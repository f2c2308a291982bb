/**
 * Server-side rules of the optical point-of-sale order (models/pos_order_ext.py):
 * when an invoice is forced, how insurance payment lines are flagged, the
 * ordered validation of an optical order, the zero-and-restore wrapper around
 * the host's invoice reconciliation, the post-processing of generated
 * invoices, the defaults of an insurance payment record, the analytic
 * distribution written into invoice lines and the payment breakdown returned
 * when an order is finalised.
 *
 * The host's own implementations (`super()`) are parameters or inputs.
 */
module PosOrder {
  import opened Wrappers
  import opened PyValues
  import Decimal

  /** A record id; 0 stands for False, the empty recordset. */
  type Id = nat

  /** The optical settings of a point-of-sale configuration. */
  datatype Config = Config(
    opticalEnabled: bool,
    forceInvoice: bool,
    requireCustomer: bool,
    insuranceJournal: Id,
    branch: Id,
    branchAnalytic: Id,    // analytic account of the optical branch
    destLocation: Id,      // default destination location of the picking type
    locationAnalytic: Id)  // analytic account of that location

  /** An `optical.insurance.payment` record, as far as the order code reads it. */
  datatype InsuranceRecord = InsuranceRecord(id: Id, companyId: Id, invoiceId: Id)

  /** A `pos.payment` with the optical extension fields. */
  datatype Payment = Payment(
    id: Id,
    isInsurance: bool,
    methodIsInsurance: bool,  // `payment_method_id.is_insurance_method`
    amount: int,              // minor currency units
    insuranceData: Option<InsuranceRecord>)

  /** The optical flags of an invoice (`account.move`). */
  datatype Invoice = Invoice(id: Id, isInsuranceInvoice: bool, payingWithInsurance: bool, associatedPatient: Id)

  /** A `pos.order` with the fields the optical code reads or writes. */
  datatype Order = Order(
    id: Id,
    hasSession: bool,
    config: Config,
    partner: Id,
    payments: seq<Payment>,
    amountTotal: int,
    toInvoice: bool,
    invoice: Option<Invoice>)

  /** The filter used by the validation, reconciliation and invoicing code. */
  predicate IsInsurancePayment(p: Payment)
  {
    p.isInsurance || p.methodIsInsurance
  }

  // ---------------------------------------------------------------------
  // Recordset filters and sums
  // ---------------------------------------------------------------------

  /** `payments.filtered(keep)`, order preserved. */
  function Select(ps: seq<Payment>, keep: Payment -> bool): (r: seq<Payment>)
    ensures |r| <= |ps|
    ensures forall p :: p in r <==> p in ps && keep(p)
  {
    if ps == [] then []
    else (if keep(ps[0]) then [ps[0]] else []) + Select(ps[1..], keep)
  }

  /** `payments.filtered(lambda p: not keep(p))`. */
  function Reject(ps: seq<Payment>, keep: Payment -> bool): (r: seq<Payment>)
    ensures |r| <= |ps|
    ensures forall p :: p in r <==> p in ps && !keep(p)
  {
    if ps == [] then []
    else (if keep(ps[0]) then [] else [ps[0]]) + Reject(ps[1..], keep)
  }

  /** `sum(payments.mapped('amount'))`. */
  function SumAmounts(ps: seq<Payment>): int
  {
    if ps == [] then 0 else ps[0].amount + SumAmounts(ps[1..])
  }

  function InsurancePayments(ps: seq<Payment>): seq<Payment>
  {
    Select(ps, IsInsurancePayment)
  }

  /** A filter and its complement partition the payments: amounts and counts add up. */
  lemma {:induction false} SelectRejectPartition(ps: seq<Payment>, keep: Payment -> bool)
    ensures SumAmounts(Select(ps, keep)) + SumAmounts(Reject(ps, keep)) == SumAmounts(ps)
    ensures |Select(ps, keep)| + |Reject(ps, keep)| == |ps|
  {
    if ps != [] {
      var rest := ps[1..];
      SelectRejectPartition(rest, keep);
      if keep(ps[0]) {
        assert Select(ps, keep) == [ps[0]] + Select(rest, keep);
        assert Reject(ps, keep) == Reject(rest, keep);
        SumAmountsCons(ps[0], Select(rest, keep));
      } else {
        assert Reject(ps, keep) == [ps[0]] + Reject(rest, keep);
        assert Select(ps, keep) == Select(rest, keep);
        SumAmountsCons(ps[0], Reject(rest, keep));
      }
    }
  }

  lemma SumAmountsCons(p: Payment, ps: seq<Payment>)
    ensures SumAmounts([p] + ps) == p.amount + SumAmounts(ps)
  {
    assert ([p] + ps)[1..] == ps;
  }

  // ---------------------------------------------------------------------
  // _order_fields: forcing an invoice
  // ---------------------------------------------------------------------

  /** One entry of `statement_ids`: its length, and the payment method of its value dictionary. */
  datatype Statement = Statement(arity: nat, methodId: Id)

  /** The parts of the order sent by the client that the override reads. */
  datatype UiOrder = UiOrder(partner: Id, statements: seq<Statement>)

  predicate IsInsuranceStatement(s: Statement, insuranceMethods: set<Id>)
  {
    s.arity == 3 && s.methodId != 0 && s.methodId in insuranceMethods
  }

  ghost predicate HasInsuranceStatement(ui: UiOrder, insuranceMethods: set<Id>)
  {
    exists i :: 0 <= i < |ui.statements| && IsInsuranceStatement(ui.statements[i], insuranceMethods)
  }

  /** An invoice is forced for an optical session when a customer is set and the
      configuration forces it or an insurance method pays part of the order. */
  ghost predicate ForcesInvoice(ui: UiOrder, session: Option<Config>, insuranceMethods: set<Id>)
  {
    && session.Some?
    && session.value.opticalEnabled
    && ui.partner != 0
    && (session.value.forceInvoice || HasInsuranceStatement(ui, insuranceMethods))
  }

  /**
   * `_order_fields`: `parent` is what the host computed; `session` is the
   * configuration of the order's session (None when there is none) and
   * `insuranceMethods` the ids of the payment methods flagged as insurance.
   */
  method OrderFields(parent: map<string, Value>, ui: UiOrder, session: Option<Config>, insuranceMethods: set<Id>)
    returns (fields: map<string, Value>)
    ensures ForcesInvoice(ui, session, insuranceMethods) ==> fields == parent["to_invoice" := Bool(true)]
    ensures !ForcesInvoice(ui, session, insuranceMethods) ==> fields == parent
  {
    fields := parent;
    if session.Some? && session.value.opticalEnabled {
      var hasCustomer := ui.partner != 0;
      var hasInsurancePayment := false;
      var i := 0;
      while i < |ui.statements|
        invariant 0 <= i <= |ui.statements|
        invariant !hasInsurancePayment
        invariant forall j :: 0 <= j < i ==> !IsInsuranceStatement(ui.statements[j], insuranceMethods)
      {
        if IsInsuranceStatement(ui.statements[i], insuranceMethods) {
          hasInsurancePayment := true;
          break;
        }
        i := i + 1;
      }
      if hasCustomer && (session.value.forceInvoice || hasInsurancePayment) {
        fields := fields["to_invoice" := Bool(true)];
      }
    }
  }

  // ---------------------------------------------------------------------
  // _payment_fields: flagging insurance payment lines
  // ---------------------------------------------------------------------

  /** The client line asks for insurance by its flag or by carrying insurance data. */
  predicate FlagsInsurance(ui: map<string, Value>)
  {
    Truthy(Get(ui, "is_insurance")) || Truthy(Get(ui, "insuranceData"))
  }

  /** `_payment_fields`: `parent` is the host's value dictionary for the line `ui`. */
  function PaymentFields(parent: map<string, Value>, ui: map<string, Value>): (r: map<string, Value>)
    ensures FlagsInsurance(ui) ==> r.Keys == parent.Keys + {"is_insurance", "insurance_raw_data"}
    ensures FlagsInsurance(ui) ==> r["is_insurance"] == Bool(true) && r["insurance_raw_data"] == Get(ui, "insuranceData")
    ensures forall k :: k in parent && k != "is_insurance" && k != "insurance_raw_data" ==> k in r && r[k] == parent[k]
    ensures !FlagsInsurance(ui) ==> r == parent
  {
    if FlagsInsurance(ui) then
      parent["is_insurance" := Bool(true)]["insurance_raw_data" := Get(ui, "insuranceData")]
    else
      parent
  }

  // ---------------------------------------------------------------------
  // _optical_check_requirements: the ordered validation
  // ---------------------------------------------------------------------

  datatype RequirementError =
    | CustomerRequired
    | InvoiceNeedsCustomer
    | InsuranceJournalMissing
    | InsuranceDetailsMissing
    | InsuranceExceedsTotal(insuranceTotal: int, orderTotal: int)

  predicate HasInsuranceDetails(p: Payment)
  {
    p.insuranceData.Some? && p.insuranceData.value.companyId != 0
  }

  function InsuranceTotal(o: Order): int
  {
    SumAmounts(InsurancePayments(o.payments))
  }

  /** Neither the "customer required" nor the "forced invoice" check objects. */
  predicate CustomerChecksPass(o: Order)
  {
    o.partner != 0 || (!o.config.requireCustomer && !o.config.forceInvoice)
  }

  ghost predicate AllInsuranceDetailed(o: Order)
  {
    forall p :: p in o.payments && IsInsurancePayment(p) ==> HasInsuranceDetails(p)
  }

  /** What a valid optical order looks like, stated without the order of the checks. */
  ghost predicate MeetsRequirements(o: Order)
  {
    && CustomerChecksPass(o)
    && (InsurancePayments(o.payments) != [] ==>
          && o.config.insuranceJournal != 0
          && AllInsuranceDetailed(o)
          && InsuranceTotal(o) <= o.amountTotal)
  }

  /** `_optical_check_requirements`: Pass, or the first error raised. */
  function CheckRequirements(o: Order): (r: Outcome<RequirementError>)
    ensures !o.config.opticalEnabled ==> r == Pass
    ensures r == Pass <==> !o.config.opticalEnabled || MeetsRequirements(o)
    ensures r == Fail(CustomerRequired) <==>
      o.config.opticalEnabled && o.config.requireCustomer && o.partner == 0
    ensures r == Fail(InvoiceNeedsCustomer) <==>
      o.config.opticalEnabled && !o.config.requireCustomer && o.config.forceInvoice && o.partner == 0
    ensures r == Fail(InsuranceJournalMissing) <==>
      && o.config.opticalEnabled && CustomerChecksPass(o)
      && InsurancePayments(o.payments) != [] && o.config.insuranceJournal == 0
    ensures r == Fail(InsuranceDetailsMissing) <==>
      && o.config.opticalEnabled && CustomerChecksPass(o)
      && InsurancePayments(o.payments) != [] && o.config.insuranceJournal != 0
      && !AllInsuranceDetailed(o)
    ensures (r.Fail? && r.error.InsuranceExceedsTotal?) <==>
      && o.config.opticalEnabled && CustomerChecksPass(o)
      && InsurancePayments(o.payments) != [] && o.config.insuranceJournal != 0
      && AllInsuranceDetailed(o) && InsuranceTotal(o) > o.amountTotal
    ensures r.Fail? && r.error.InsuranceExceedsTotal? ==>
      r.error == InsuranceExceedsTotal(InsuranceTotal(o), o.amountTotal)
  {
    var insurance := InsurancePayments(o.payments);
    if !o.config.opticalEnabled then Pass
    else if o.config.requireCustomer && o.partner == 0 then Fail(CustomerRequired)
    else if o.config.forceInvoice && o.partner == 0 then Fail(InvoiceNeedsCustomer)
    else if insurance == [] then Pass
    else if o.config.insuranceJournal == 0 then Fail(InsuranceJournalMissing)
    else if exists p | p in insurance :: !HasInsuranceDetails(p) then Fail(InsuranceDetailsMissing)
    else if SumAmounts(insurance) > o.amountTotal then
      Fail(InsuranceExceedsTotal(SumAmounts(insurance), o.amountTotal))
    else Pass
  }

  // ---------------------------------------------------------------------
  // _apply_invoice_payments: zero-and-restore around the host reconciliation
  // ---------------------------------------------------------------------

  /** A payment of one of the orders being reconciled; `live` is false once the record is deleted. */
  datatype PaymentRow = PaymentRow(orderId: Id, live: bool, payment: Payment)

  /** What the host's `_apply_invoice_payments` did: returned or raised, and which rows it deleted. */
  datatype ParentRun = ParentRun(outcome: Outcome<string>, deleted: set<nat>)

  /** The payments the wrapper hides from the host: insurance payments of optical orders. */
  predicate Hidden(row: PaymentRow, opticalOrders: set<Id>)
  {
    row.orderId in opticalOrders && IsInsurancePayment(row.payment)
  }

  function WithAmount(row: PaymentRow, amount: int): PaymentRow
  {
    row.(payment := row.payment.(amount := amount))
  }

  /** The row as the host sees it while it reconciles. */
  function HostView(row: PaymentRow, opticalOrders: set<Id>): PaymentRow
  {
    if Hidden(row, opticalOrders) then WithAmount(row, 0) else row
  }

  /**
   * `_apply_invoice_payments`. `opticalOrders` are the ids of the orders being
   * reconciled whose configuration enables optical features; `parent` is the
   * host's reconciliation, applied to the rows as they stand when it runs.
   * `seen` is that state. The outcome is the host's: a raised error is passed on
   * after the amounts are restored.
   */
  method ApplyInvoicePayments(rows: array<PaymentRow>, opticalOrders: set<Id>, parent: seq<PaymentRow> -> ParentRun)
    returns (outcome: Outcome<string>, seen: seq<PaymentRow>)
    requires forall i :: 0 <= i < rows.Length ==> rows[i].live
    modifies rows
    ensures |seen| == rows.Length
    ensures forall i :: 0 <= i < rows.Length ==> seen[i] == HostView(old(rows[i]), opticalOrders)
    ensures outcome == parent(seen).outcome
    ensures forall i :: 0 <= i < rows.Length && i !in parent(seen).deleted ==> rows[i] == old(rows[i])
    ensures forall i :: 0 <= i < rows.Length && i in parent(seen).deleted ==> rows[i] == seen[i].(live := false)
  {
    ghost var original := rows[..];
    var saved := HideInsurance(rows, opticalOrders);
    seen := rows[..];
    var run := parent(seen);
    outcome := run.outcome;
    MarkDeleted(rows, run.deleted);
    RestoreSaved(rows, saved, run.deleted, original, seen);
  }

  /** The first loop: each hidden payment's amount is saved under its position and set to 0. */
  method HideInsurance(rows: array<PaymentRow>, opticalOrders: set<Id>) returns (saved: map<nat, int>)
    modifies rows
    ensures forall j :: j in saved <==> 0 <= j < rows.Length && Hidden(old(rows[j]), opticalOrders)
    ensures forall j :: j in saved ==> saved[j] == old(rows[j]).payment.amount
    ensures forall j :: 0 <= j < rows.Length ==> rows[j] == HostView(old(rows[j]), opticalOrders)
  {
    saved := map[];
    var i := 0;
    while i < rows.Length
      invariant 0 <= i <= rows.Length
      invariant forall j :: j in saved <==> 0 <= j < i && Hidden(old(rows[j]), opticalOrders)
      invariant forall j :: j in saved ==> saved[j] == old(rows[j]).payment.amount
      invariant forall j :: 0 <= j < i ==> rows[j] == HostView(old(rows[j]), opticalOrders)
      invariant forall j :: i <= j < rows.Length ==> rows[j] == old(rows[j])
    {
      if Hidden(rows[i], opticalOrders) {
        saved := saved[i := rows[i].payment.amount];
        rows[i] := WithAmount(rows[i], 0);
      }
      i := i + 1;
    }
  }

  /** The records the host deleted while it ran. */
  method MarkDeleted(rows: array<PaymentRow>, deleted: set<nat>)
    modifies rows
    ensures forall j :: 0 <= j < rows.Length ==> rows[j] == if j in deleted then old(rows[j]).(live := false) else old(rows[j])
  {
    var i := 0;
    while i < rows.Length
      invariant 0 <= i <= rows.Length
      invariant forall j :: 0 <= j < i ==> rows[j] == if j in deleted then old(rows[j]).(live := false) else old(rows[j])
      invariant forall j :: i <= j < rows.Length ==> rows[j] == old(rows[j])
    {
      if i in deleted {
        rows[i] := rows[i].(live := false);
      }
      i := i + 1;
    }
  }

  /** The `finally` block: the saved amounts of the records that still exist are written back. */
  method RestoreSaved(rows: array<PaymentRow>, saved: map<nat, int>, deleted: set<nat>,
                      ghost original: seq<PaymentRow>, ghost seen: seq<PaymentRow>)
    requires |original| == |seen| == rows.Length
    requires forall j :: 0 <= j < rows.Length ==> original[j].live
    requires forall j :: j in saved ==> 0 <= j < rows.Length && saved[j] == original[j].payment.amount
    requires forall j :: 0 <= j < rows.Length ==> seen[j] == (if j in saved then WithAmount(original[j], 0) else original[j])
    requires forall j :: 0 <= j < rows.Length ==> rows[j] == if j in deleted then seen[j].(live := false) else seen[j]
    modifies rows
    ensures forall j :: 0 <= j < rows.Length && j !in deleted ==> rows[j] == original[j]
    ensures forall j :: 0 <= j < rows.Length && j in deleted ==> rows[j] == seen[j].(live := false)
  {
    var i := 0;
    while i < rows.Length
      invariant 0 <= i <= rows.Length
      invariant forall j :: 0 <= j < i && j !in deleted ==> rows[j] == original[j]
      invariant forall j :: 0 <= j < rows.Length && j in deleted ==> rows[j] == seen[j].(live := false)
      invariant forall j :: i <= j < rows.Length && j !in deleted ==> rows[j] == seen[j]
    {
      if i in saved && rows[i].live {
        rows[i] := WithAmount(rows[i], saved[i]);
      }
      i := i + 1;
    }
  }

  // ---------------------------------------------------------------------
  // _generate_pos_order_invoice: forcing and tagging invoices
  // ---------------------------------------------------------------------

  datatype InvoicingError = InvoiceNeedsPartner

  predicate NeedsPartnerForInvoice(o: Order)
  {
    o.config.opticalEnabled && o.config.forceInvoice && o.partner == 0
  }

  /** The pre-validation write: a forced-invoice optical order is marked `to_invoice`. */
  function ForceToInvoice(o: Order): Order
  {
    if o.config.opticalEnabled && o.config.forceInvoice then o.(toInvoice := true) else o
  }

  /** One insurance payment's record linked to the invoice; other payments untouched. */
  function LinkPayment(p: Payment, invoiceId: Id): Payment
  {
    if IsInsurancePayment(p) && p.insuranceData.Some? then
      p.(insuranceData := Some(p.insuranceData.value.(invoiceId := invoiceId)))
    else p
  }

  function LinkAll(ps: seq<Payment>, invoiceId: Id): seq<Payment>
  {
    if ps == [] then [] else [LinkPayment(ps[0], invoiceId)] + LinkAll(ps[1..], invoiceId)
  }

  /** The post-processing of one order after the host generated its invoice. */
  function TagInsuranceInvoice(o: Order): Order
  {
    if o.invoice.Some? && o.config.opticalEnabled && InsurancePayments(o.payments) != [] then
      var inv := o.invoice.value;
      o.(invoice := Some(inv.(isInsuranceInvoice := true, payingWithInsurance := true, associatedPatient := o.partner)),
         payments := LinkAll(o.payments, inv.id))
    else o
  }

  /** The inner loop of the post-processing, over one order's payments. */
  method LinkInsuranceRecords(ps: seq<Payment>, invoiceId: Id) returns (r: seq<Payment>)
    ensures r == LinkAll(ps, invoiceId)
  {
    r := [];
    var i := 0;
    while i < |ps|
      invariant 0 <= i <= |ps|
      invariant r + LinkAll(ps[i..], invoiceId) == LinkAll(ps, invoiceId)
    {
      assert ps[i..] == [ps[i]] + ps[i + 1..];
      r := r + [LinkPayment(ps[i], invoiceId)];
      i := i + 1;
    }
  }

  /** Linking keeps the payments, their order and their amounts, and links exactly the insurance records. */
  lemma {:induction false} LinkAllSpec(ps: seq<Payment>, invoiceId: Id)
    ensures |LinkAll(ps, invoiceId)| == |ps|
    ensures SumAmounts(LinkAll(ps, invoiceId)) == SumAmounts(ps)
    ensures forall i :: 0 <= i < |ps| ==>
      var q := LinkAll(ps, invoiceId)[i];
      && q.amount == ps[i].amount && q.isInsurance == ps[i].isInsurance && q.id == ps[i].id
      && (IsInsurancePayment(ps[i]) && ps[i].insuranceData.Some? ==>
            q.insuranceData.Some? && q.insuranceData.value.invoiceId == invoiceId
            && q.insuranceData.value.companyId == ps[i].insuranceData.value.companyId)
      && (!IsInsurancePayment(ps[i]) || ps[i].insuranceData.None? ==> q == ps[i])
  {
    if ps != [] {
      LinkAllSpec(ps[1..], invoiceId);
      forall i | 1 <= i < |ps|
        ensures LinkAll(ps, invoiceId)[i] == LinkAll(ps[1..], invoiceId)[i - 1]
      {
      }
    }
  }

  /** An invoice is tagged exactly when the order is optical, invoiced and paid partly by insurance. */
  lemma TagInsuranceInvoiceSpec(o: Order)
    ensures var t := TagInsuranceInvoice(o);
      && t.invoice.Some? == o.invoice.Some?
      && t.partner == o.partner && t.amountTotal == o.amountTotal
      && SumAmounts(t.payments) == SumAmounts(o.payments)
      && (o.invoice.Some? && o.config.opticalEnabled && InsurancePayments(o.payments) != [] ==>
            && t.invoice.value.id == o.invoice.value.id
            && t.invoice.value.isInsuranceInvoice && t.invoice.value.payingWithInsurance
            && t.invoice.value.associatedPatient == o.partner
            && t.payments == LinkAll(o.payments, o.invoice.value.id))
      && (!(o.invoice.Some? && o.config.opticalEnabled && InsurancePayments(o.payments) != []) ==> t == o)
  {
    LinkAllSpec(o.payments, if o.invoice.Some? then o.invoice.value.id else 0);
  }

  /**
   * `_generate_pos_order_invoice` over the orders of the recordset; `parent`
   * is the host's invoice generation for one order. A missing partner on a
   * forced-invoice optical order raises (the host rolls the transaction back).
   */
  method GeneratePosOrderInvoice(orders: array<Order>, parent: Order -> Order) returns (r: Outcome<InvoicingError>)
    modifies orders
    ensures r.Fail? <==> exists i :: 0 <= i < orders.Length && NeedsPartnerForInvoice(old(orders[i]))
    ensures r.Pass? ==> forall i :: 0 <= i < orders.Length ==>
      orders[i] == TagInsuranceInvoice(parent(ForceToInvoice(old(orders[i]))))
  {
    r := PrevalidateOrders(orders);
    if r.Fail? {
      return;
    }
    ghost var forced := orders[..];
    // the host generates the invoices
    var i := 0;
    while i < orders.Length
      invariant 0 <= i <= orders.Length
      invariant forall j :: 0 <= j < i ==> orders[j] == parent(forced[j])
      invariant forall j :: i <= j < orders.Length ==> orders[j] == forced[j]
    {
      orders[i] := parent(orders[i]);
      i := i + 1;
    }
    TagInvoices(orders);
  }

  /** The pre-validation loop: raises on the first forced-invoice optical order without partner. */
  method PrevalidateOrders(orders: array<Order>) returns (r: Outcome<InvoicingError>)
    modifies orders
    ensures r.Fail? <==> exists i :: 0 <= i < orders.Length && NeedsPartnerForInvoice(old(orders[i]))
    ensures r.Pass? ==> forall i :: 0 <= i < orders.Length ==> orders[i] == ForceToInvoice(old(orders[i]))
  {
    var i := 0;
    while i < orders.Length
      invariant 0 <= i <= orders.Length
      invariant forall j :: 0 <= j < i ==> !NeedsPartnerForInvoice(old(orders[j]))
      invariant forall j :: 0 <= j < i ==> orders[j] == ForceToInvoice(old(orders[j]))
      invariant forall j :: i <= j < orders.Length ==> orders[j] == old(orders[j])
    {
      var o := orders[i];
      if o.config.opticalEnabled && o.config.forceInvoice {
        if o.partner == 0 {
          return Fail(InvoiceNeedsPartner);
        }
        if !o.toInvoice {
          orders[i] := o.(toInvoice := true);
        }
      }
      i := i + 1;
    }
    r := Pass;
  }

  /** The post-processing loop over the invoiced orders. */
  method TagInvoices(orders: array<Order>)
    modifies orders
    ensures forall j :: 0 <= j < orders.Length ==> orders[j] == TagInsuranceInvoice(old(orders[j]))
  {
    var i := 0;
    while i < orders.Length
      invariant 0 <= i <= orders.Length
      invariant forall j :: 0 <= j < i ==> orders[j] == TagInsuranceInvoice(old(orders[j]))
      invariant forall j :: i <= j < orders.Length ==> orders[j] == old(orders[j])
    {
      var o := orders[i];
      if o.invoice.Some? && o.config.opticalEnabled && InsurancePayments(o.payments) != [] {
        var inv := o.invoice.value;
        var linked := LinkInsuranceRecords(o.payments, inv.id);
        orders[i] := o.(invoice := Some(inv.(isInsuranceInvoice := true, payingWithInsurance := true, associatedPatient := o.partner)),
                        payments := linked);
      }
      i := i + 1;
    }
  }

  // ---------------------------------------------------------------------
  // _create_insurance_payment_record: defaults of the record values
  // ---------------------------------------------------------------------

  const TextKeys: set<string> := {"policy_number", "member_number", "employer", "notes"}
  const BaseKeys: set<string> := {"order_id", "amount", "insurance_company_id"} + TextKeys

  /** The seven values every record gets: the order, the amount (default 0), the company and the four texts (default ''). */
  function BaseInsuranceValues(o: Order, vals: map<string, Value>): (r: map<string, Value>)
    ensures r.Keys == BaseKeys
    ensures r["order_id"] == Int(o.id)
    ensures r["amount"] == GetOr(vals, "amount", Int(0))
    ensures r["insurance_company_id"] == Get(vals, "insurance_company_id")
    ensures forall k :: k in TextKeys ==> r[k] == GetOr(vals, k, Str(""))
  {
    map[
      "order_id" := Int(o.id),
      "amount" := GetOr(vals, "amount", Int(0)),
      "insurance_company_id" := Get(vals, "insurance_company_id"),
      "policy_number" := GetOr(vals, "policy_number", Str("")),
      "member_number" := GetOr(vals, "member_number", Str("")),
      "employer" := GetOr(vals, "employer", Str("")),
      "notes" := GetOr(vals, "notes", Str(""))]
  }

  /** The two optional keys are not among the seven fixed ones. */
  lemma OptionalKeysFresh()
    ensures "payment_id" !in BaseKeys && "invoice_id" !in BaseKeys && "payment_id" != "invoice_id"
  {
    assert |"payment_id"| == |"invoice_id"| == 10;
    assert "payment_id"[0] != "invoice_id"[0];
  }

  /** The values handed to `optical.insurance.payment.create` for order `o`. */
  function InsurancePaymentValues(o: Order, vals: map<string, Value>): (r: map<string, Value>)
    ensures "order_id" in r && r["order_id"] == Int(o.id)
    ensures "amount" in r && r["amount"] == GetOr(vals, "amount", Int(0))
    ensures "insurance_company_id" in r && r["insurance_company_id"] == Get(vals, "insurance_company_id")
    ensures forall k :: k in TextKeys ==> k in r && r[k] == GetOr(vals, k, Str(""))
    ensures ("payment_id" in r) <==> Truthy(Get(vals, "pos_payment_id"))
    ensures "payment_id" in r ==> r["payment_id"] == vals["pos_payment_id"]
    ensures ("invoice_id" in r) <==> o.invoice.Some?
    ensures "invoice_id" in r ==> r["invoice_id"] == Int(o.invoice.value.id)
    ensures r.Keys <= BaseKeys + {"payment_id", "invoice_id"}
  {
    OptionalKeysFresh();
    var base := BaseInsuranceValues(o, vals);
    var withPayment := if Truthy(Get(vals, "pos_payment_id")) then base["payment_id" := vals["pos_payment_id"]] else base;
    if o.invoice.Some? then withPayment["invoice_id" := Int(o.invoice.value.id)] else withPayment
  }

  // ---------------------------------------------------------------------
  // _create_invoice and _apply_location_analytic_to_move_vals
  // ---------------------------------------------------------------------

  /** The analytic account for the invoice lines: the branch's, else the location's, else none (0). */
  function AnalyticAccount(c: Config): (a: Id)
    ensures c.opticalEnabled && c.branch != 0 && c.branchAnalytic != 0 ==> a == c.branchAnalytic
    ensures !(c.opticalEnabled && c.branch != 0 && c.branchAnalytic != 0) && c.destLocation != 0 && c.locationAnalytic != 0 ==>
      a == c.locationAnalytic
    ensures a != 0 ==> a == c.branchAnalytic || (c.destLocation != 0 && a == c.locationAnalytic)
    ensures a == 0 <==>
      !(c.opticalEnabled && c.branch != 0 && c.branchAnalytic != 0) && (c.destLocation == 0 || c.locationAnalytic == 0)
  {
    if c.opticalEnabled && c.branch != 0 && c.branchAnalytic != 0 then c.branchAnalytic
    else if c.destLocation != 0 && c.locationAnalytic != 0 then c.locationAnalytic
    else 0
  }

  /** `{str(account): 100}`. */
  function Distribution(account: Id): Value
  {
    Dict(map[Decimal.DecimalString(account) := Int(100)])
  }

  /** A command triple whose value dictionary names a product. */
  predicate IsProductLine(entry: Value)
  {
    && entry.List? && |entry.items| == 3
    && entry.items[2].Dict?
    && Truthy(Get(entry.items[2].entries, "product_id"))
  }

  /** One entry of `invoice_line_ids` after the analytic distribution is applied. */
  function WithAnalytic(entry: Value, account: Id): (r: Value)
    ensures !IsProductLine(entry) ==> r == entry
    ensures IsProductLine(entry) ==>
      && IsProductLine(r)
      && r.items[0] == entry.items[0] && r.items[1] == entry.items[1]
      && r.items[2].entries.Keys == entry.items[2].entries.Keys + {"analytic_distribution"}
      && r.items[2].entries["analytic_distribution"] == Distribution(account)
      && (forall k :: k in entry.items[2].entries && k != "analytic_distribution" ==>
            r.items[2].entries[k] == entry.items[2].entries[k])
  {
    if IsProductLine(entry) then
      var vals := entry.items[2].entries;
      List(entry.items[2 := Dict(vals["analytic_distribution" := Distribution(account)])])
    else entry
  }

  /** The distribution written into a line names exactly the chosen account, at 100 percent. */
  lemma DistributionNamesAccount(account: Id, key: string)
    ensures Distribution(account).Dict?
    ensures key in Distribution(account).entries <==> key == Decimal.DecimalString(account)
    ensures key in Distribution(account).entries ==> Distribution(account).entries[key] == Int(100)
  {
  }

  /**
   * The `move_vals` dictionary handed to `_create_invoice`: its keys other than
   * `invoice_line_ids`, and the entries of `invoice_line_ids` (whose value
   * dictionaries are changed in place).
   */
  class MoveVals {
    var fields: map<string, Value>
    const hasLines: bool
    const lines: array<Value>

    constructor (fields: map<string, Value>, hasLines: bool, lines: array<Value>)
      ensures this.fields == fields && this.hasLines == hasLines && this.lines == lines
    {
      this.fields := fields;
      this.hasLines := hasLines;
      this.lines := lines;
    }

    /** `_apply_location_analytic_to_move_vals`. */
    method ApplyLocationAnalytic(o: Order)
      modifies lines
      ensures var account := AnalyticAccount(o.config);
        forall i :: 0 <= i < lines.Length ==>
          lines[i] == if hasLines && o.hasSession && account != 0 then WithAnalytic(old(lines[i]), account) else old(lines[i])
    {
      if !o.hasSession {
        return;
      }
      var account := AnalyticAccount(o.config);
      if account == 0 {
        return;
      }
      if hasLines {
        var i := 0;
        while i < lines.Length
          invariant 0 <= i <= lines.Length
          invariant forall j :: 0 <= j < i ==> lines[j] == WithAnalytic(old(lines[j]), account)
          invariant forall j :: i <= j < lines.Length ==> lines[j] == old(lines[j])
        {
          lines[i] := WithAnalytic(lines[i], account);
          i := i + 1;
        }
      }
    }

    /** `_create_invoice` up to the host's own `_create_invoice`, which receives the values. */
    method CreateInvoice(o: Order)
      modifies this, lines
      ensures var account := AnalyticAccount(o.config);
        forall i :: 0 <= i < lines.Length ==>
          lines[i] == if hasLines && o.hasSession && account != 0 then WithAnalytic(old(lines[i]), account) else old(lines[i])
      ensures o.config.opticalEnabled && o.config.branch != 0 ==> "branch_id" in fields && fields["branch_id"] == Int(o.config.branch)
      ensures o.config.opticalEnabled && o.config.insuranceJournal != 0 && InsurancePayments(o.payments) != [] ==>
        "journal_id" in fields && fields["journal_id"] == Int(o.config.insuranceJournal)
      ensures !(o.config.opticalEnabled && o.config.branch != 0) ==>
        ("branch_id" in fields <==> "branch_id" in old(fields)) && ("branch_id" in fields ==> fields["branch_id"] == old(fields)["branch_id"])
      ensures !(o.config.opticalEnabled && o.config.insuranceJournal != 0 && InsurancePayments(o.payments) != []) ==>
        ("journal_id" in fields <==> "journal_id" in old(fields)) && ("journal_id" in fields ==> fields["journal_id"] == old(fields)["journal_id"])
      ensures forall k :: k in old(fields) && k != "branch_id" && k != "journal_id" ==> k in fields && fields[k] == old(fields)[k]
      ensures forall k :: k in fields ==> k in old(fields) || k == "branch_id" || k == "journal_id"
      ensures !o.config.opticalEnabled ==> fields == old(fields)
    {
      ApplyLocationAnalytic(o);
      if o.config.opticalEnabled && o.config.branch != 0 {
        fields := fields["branch_id" := Int(o.config.branch)];
      }
      if o.config.opticalEnabled && o.config.insuranceJournal != 0 {
        if InsurancePayments(o.payments) != [] {
          fields := fields["journal_id" := Int(o.config.insuranceJournal)];
        }
      }
    }
  }

  // ---------------------------------------------------------------------
  // optical_finalize_payments: linking records and the payment breakdown
  // ---------------------------------------------------------------------

  /** A journal item of the invoice, as the breakdown filters it. */
  datatype InvoiceLine = InvoiceLine(receivable: bool, partner: Id, debit: int, residual: int)

  datatype InvoiceSummary = InvoiceSummary(id: Id, lines: seq<InvoiceLine>)

  datatype Breakdown = Breakdown(
    invoiceId: Id,
    customerDue: int,
    insuranceDue: int,
    customerPayments: int,
    insurancePayments: int,
    paymentCount: nat,
    insurancePaymentCount: nat)

  datatype FinalizeResult =
    | FinalizeError(message: string, hasInvoice: Option<bool>)
    | Finalized(breakdown: Breakdown)

  predicate Flagged(p: Payment)
  {
    p.isInsurance
  }

  /** `sum(lines.filtered(keep).mapped('amount_residual'))`. */
  function SumResidual(lines: seq<InvoiceLine>, keep: InvoiceLine -> bool): int
  {
    if lines == [] then 0
    else (if keep(lines[0]) then lines[0].residual else 0) + SumResidual(lines[1..], keep)
  }

  function CustomerReceivable(partner: Id): InvoiceLine -> bool
  {
    (l: InvoiceLine) => l.receivable && l.partner == partner && l.debit > 0
  }

  function InsuranceReceivable(partner: Id): InvoiceLine -> bool
  {
    (l: InvoiceLine) => l.receivable && l.partner != partner && l.debit > 0
  }

  function OpenReceivable(l: InvoiceLine): bool
  {
    l.receivable && l.debit > 0
  }

  function BreakdownOf(ps: seq<Payment>, partner: Id, inv: InvoiceSummary): Breakdown
  {
    Breakdown(
      inv.id,
      SumResidual(inv.lines, CustomerReceivable(partner)),
      SumResidual(inv.lines, InsuranceReceivable(partner)),
      SumAmounts(Reject(ps, Flagged)),
      SumAmounts(Select(ps, Flagged)),
      |ps|,
      |Select(ps, Flagged)|)
  }

  lemma {:induction false} ResidualPartition(lines: seq<InvoiceLine>, partner: Id)
    ensures SumResidual(lines, CustomerReceivable(partner)) + SumResidual(lines, InsuranceReceivable(partner))
      == SumResidual(lines, OpenReceivable)
  {
    if lines != [] {
      ResidualPartition(lines[1..], partner);
    }
  }

  /**
   * The breakdown is a partition: customer and insurance payments add up to
   * all payments, there are no more insurance payments than payments, and the
   * customer and insurance dues add up to the open receivable of the invoice.
   */
  lemma BreakdownIsPartition(ps: seq<Payment>, partner: Id, inv: InvoiceSummary)
    ensures var b := BreakdownOf(ps, partner, inv);
      && b.customerPayments + b.insurancePayments == SumAmounts(ps)
      && b.insurancePaymentCount <= b.paymentCount
      && b.customerDue + b.insuranceDue == SumResidual(inv.lines, OpenReceivable)
  {
    SelectRejectPartition(ps, Flagged);
    ResidualPartition(inv.lines, partner);
  }

  /** The finalisation link: an insurance-flagged payment's record gets the invoice if it has none yet. */
  function LinkIfUnlinked(p: Payment, invoiceId: Id): Payment
  {
    if p.isInsurance && p.insuranceData.Some? && p.insuranceData.value.invoiceId == 0 then
      p.(insuranceData := Some(p.insuranceData.value.(invoiceId := invoiceId)))
    else p
  }

  /**
   * `optical_finalize_payments`. The search by `orderUid` is an input: whether
   * an order was found, its partner and its invoice; `payments` are the
   * order's payments, whose insurance records are linked in place.
   */
  method FinalizePayments(orderUid: string, found: bool, partner: Id, invoice: Option<InvoiceSummary>, payments: array<Payment>)
    returns (r: FinalizeResult)
    modifies payments
    ensures orderUid == "" ==> r == FinalizeError("No order specified.", None)
    ensures orderUid != "" && !found ==> r == FinalizeError("Order not found.", None)
    ensures orderUid != "" && found && invoice.None? ==> r == FinalizeError("No invoice found for this order.", Some(false))
    ensures r.FinalizeError? ==> payments[..] == old(payments[..])
    ensures orderUid != "" && found && invoice.Some? ==>
      && r == Finalized(BreakdownOf(old(payments[..]), partner, invoice.value))
      && forall i :: 0 <= i < payments.Length ==> payments[i] == LinkIfUnlinked(old(payments[i]), invoice.value.id)
  {
    if orderUid == "" {
      return FinalizeError("No order specified.", None);
    }
    if !found {
      return FinalizeError("Order not found.", None);
    }
    if invoice.None? {
      return FinalizeError("No invoice found for this order.", Some(false));
    }
    var inv := invoice.value;
    var ps := payments[..];
    var i := 0;
    while i < payments.Length
      invariant 0 <= i <= payments.Length
      invariant forall j :: 0 <= j < i ==> payments[j] == LinkIfUnlinked(old(payments[j]), inv.id)
      invariant forall j :: i <= j < payments.Length ==> payments[j] == old(payments[j])
    {
      var p := payments[i];
      if p.isInsurance && p.insuranceData.Some? && p.insuranceData.value.invoiceId == 0 {
        payments[i] := p.(insuranceData := Some(p.insuranceData.value.(invoiceId := inv.id)));
      }
      i := i + 1;
    }
    r := Finalized(BreakdownOf(ps, partner, inv));
  }
}
