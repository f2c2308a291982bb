/**
 * The client-side payment extension (static/src/js/optical_models_ext.js):
 * the insurance fields a payment line carries and their JSON round trip, the
 * routing of a new payment line to the insurance flow, and the guards of that
 * flow.
 */
module PaymentExt {
  import opened Wrappers
  import opened JsValues

  type Id = nat

  /** The insurance details copied from the selection popup's payload onto a line. */
  datatype InsuranceDetails = InsuranceDetails(
    insuranceId: JsValue,
    insuranceCompanyId: JsValue,
    insuranceCompanyName: JsValue,
    policyNumber: JsValue,
    expiryDate: JsValue,
    patientCompanyId: JsValue,
    invoiceNumber: JsValue,
    coverageDetails: JsValue)

  /** The payload's fields of the same names (undefined where missing). */
  function DetailsOf(payload: JsValue): (d: InsuranceDetails)
    ensures d.insuranceId == Field(payload, "insurance_id")
    ensures d.insuranceCompanyId == Field(payload, "insurance_company_id")
    ensures d.insuranceCompanyName == Field(payload, "insurance_company_name")
    ensures d.policyNumber == Field(payload, "policy_number")
    ensures d.expiryDate == Field(payload, "expiry_date")
    ensures d.patientCompanyId == Field(payload, "patient_company_id")
    ensures d.invoiceNumber == Field(payload, "invoice_number")
    ensures d.coverageDetails == Field(payload, "coverage_details")
    ensures payload.Obj? && "policy_number" in payload.fields ==> d.policyNumber == payload.fields["policy_number"]
    ensures !payload.Obj? ==> d == InsuranceDetails(Undefined, Undefined, Undefined, Undefined, Undefined, Undefined, Undefined, Undefined)
  {
    InsuranceDetails(
      Field(payload, "insurance_id"),
      Field(payload, "insurance_company_id"),
      Field(payload, "insurance_company_name"),
      Field(payload, "policy_number"),
      Field(payload, "expiry_date"),
      Field(payload, "patient_company_id"),
      Field(payload, "invoice_number"),
      Field(payload, "coverage_details"))
  }

  const NoDetails := InsuranceDetails(Undefined, Undefined, Undefined, Undefined, Undefined, Undefined, Undefined, Undefined)

  /** The two insurance fields as `init_from_JSON` reads them back: falsy values become false and null. */
  function Restored(json: map<string, JsValue>): (r: (JsValue, JsValue))
    ensures Truthy(r.0) || r.0 == Bool(false)
    ensures Truthy(r.1) || r.1 == Null
    ensures "is_insurance" in json && Truthy(json["is_insurance"]) ==> r.0 == json["is_insurance"]
    ensures "insuranceData" in json && Truthy(json["insuranceData"]) ==> r.1 == json["insuranceData"]
    ensures !("is_insurance" in json && Truthy(json["is_insurance"])) ==> r.0 == Bool(false)
    ensures !("insuranceData" in json && Truthy(json["insuranceData"])) ==> r.1 == Null
  {
    (Or(Field(Obj(json), "is_insurance"), Bool(false)), Or(Field(Obj(json), "insuranceData"), Null))
  }

  /** A payment line of the order, with the two fields the patch adds. */
  class PaymentLine {
    const paymentMethod: JsValue
    var amount: int
    var isInsurance: JsValue
    var insuranceData: JsValue
    var details: InsuranceDetails

    /** The shape `setup` leaves: insurance flag true or false, data an object or null. */
    predicate Normalised()
      reads this
    {
      (Truthy(isInsurance) || isInsurance == Bool(false)) && (Truthy(insuranceData) || insuranceData == Null)
    }

    /**
     * `setup`: the host's setup leaves `isInsurance0` and `insuranceData0` on
     * the line; a falsy flag becomes false and falsy data null.
     */
    constructor (paymentMethod: JsValue, amount: int, isInsurance0: JsValue, insuranceData0: JsValue)
      ensures Normalised()
      ensures this.paymentMethod == paymentMethod && this.amount == amount && details == NoDetails
      ensures Truthy(isInsurance0) ==> isInsurance == isInsurance0
      ensures Truthy(insuranceData0) ==> insuranceData == insuranceData0
      ensures !Truthy(isInsurance0) ==> isInsurance == Bool(false)
      ensures !Truthy(insuranceData0) ==> insuranceData == Null
    {
      this.paymentMethod := paymentMethod;
      this.amount := amount;
      isInsurance := Or(isInsurance0, Bool(false));
      insuranceData := Or(insuranceData0, Null);
      details := NoDetails;
    }

    /** `export_as_JSON`: the host's JSON for the line with the two insurance fields added. */
    function ExportAsJson(parentJson: map<string, JsValue>): (json: map<string, JsValue>)
      reads this
      ensures json.Keys == parentJson.Keys + {"is_insurance", "insuranceData"}
      ensures json["is_insurance"] == isInsurance && json["insuranceData"] == insuranceData
      ensures forall k :: k in parentJson && k != "is_insurance" && k != "insuranceData" ==> json[k] == parentJson[k]
    {
      parentJson["is_insurance" := isInsurance]["insuranceData" := insuranceData]
    }

    /** `init_from_JSON`: the two fields read back from the JSON; the host's own fields are not modelled. */
    method InitFromJson(json: map<string, JsValue>)
      modifies this
      ensures (isInsurance, insuranceData) == Restored(json)
      ensures Normalised()
      ensures amount == old(amount) && details == old(details)
    {
      var restored := Restored(json);
      isInsurance := restored.0;
      insuranceData := restored.1;
    }
  }

  /** Exporting a line and initialising a line from that JSON gives back both insurance fields. */
  lemma ExportThenRestore(line: PaymentLine, parentJson: map<string, JsValue>)
    requires line.Normalised()
    ensures Restored(line.ExportAsJson(parentJson)) == (line.isInsurance, line.insuranceData)
  {
  }

  /** Without normalisation the round trip fails: a stored 0 or "" flag comes back as false. */
  lemma ExportThenRestoreNormalises(line: PaymentLine, parentJson: map<string, JsValue>)
    requires !Truthy(line.isInsurance)
    ensures Restored(line.ExportAsJson(parentJson)).0 == Bool(false)
  {
  }

  // ---------------------------------------------------------------------
  // addNewPaymentLine
  // ---------------------------------------------------------------------

  /** Where `addNewPaymentLine` sends its argument. */
  datatype Routing = ToInsurance(paymentMethod: JsValue) | ToParent(arg: JsValue)

  /** The payment method: the event's `detail` when the argument carries one, otherwise the argument itself. */
  function Unwrapped(arg: JsValue): (m: JsValue)
    ensures Truthy(arg) && Field(arg, "detail") != Undefined ==> m == Field(arg, "detail")
    ensures !Truthy(arg) || Field(arg, "detail") == Undefined ==> m == arg
  {
    if Truthy(arg) && Field(arg, "detail") != Undefined then Field(arg, "detail") else arg
  }

  predicate IsInsuranceMethod(m: JsValue)
  {
    Truthy(m) && Truthy(Field(m, "is_insurance_method"))
  }

  /**
   * `addNewPaymentLine`: an insurance method goes to the insurance flow;
   * anything else goes to the host with the original argument.
   */
  function Route(arg: JsValue): (r: Routing)
    ensures r.ToInsurance? <==> IsInsuranceMethod(Unwrapped(arg))
    ensures r.ToInsurance? ==> r.paymentMethod == Unwrapped(arg) && Truthy(Field(r.paymentMethod, "is_insurance_method"))
    ensures r.ToParent? ==> r.arg == arg
  {
    var m := Unwrapped(arg);
    if IsInsuranceMethod(m) then ToInsurance(m) else ToParent(arg)
  }

  /**
   * A method object sent directly and the same method wrapped in an event
   * `{detail: method}` take the same route to the insurance flow.
   */
  lemma RouteWrappedAgrees(m: JsValue)
    requires m.Obj? && "detail" !in m.fields
    ensures Route(Obj(map["detail" := m])).ToInsurance? <==> Route(m).ToInsurance?
    ensures Route(m).ToInsurance? ==> Route(Obj(map["detail" := m])) == Route(m)
  {
    var event := Obj(map["detail" := m]);
    assert Field(event, "detail") == m;
    assert Field(m, "detail") == Undefined;
  }

  /** A missing method (null or undefined) always goes to the host. */
  lemma RouteOfNothing(arg: JsValue)
    requires !Truthy(arg)
    ensures Route(arg) == ToParent(arg)
  {
  }

  // ---------------------------------------------------------------------
  // handleInsurancePayment
  // ---------------------------------------------------------------------

  datatype ErrorPopup = ErrorPopup(title: string, body: string)

  const NoCustomerError := ErrorPopup("No Customer Selected", "Please select a customer before using insurance payment.")

  /** The sum of the lines' amounts. */
  function PaidBy(lines: seq<PaymentLine>): int
    reads set l | l in lines
  {
    if lines == [] then 0 else PaidBy(lines[..|lines| - 1]) + lines[|lines| - 1].amount
  }

  /** The current order as the payment screen sees it. */
  class OrderUi {
    /** The order's total, in minor units. */
    var total: int
    /** `get_partner()`: the customer's id, if one is selected. */
    var customer: Option<Id>
    var lines: seq<PaymentLine>
    /** Error popups shown on the screen. */
    var errors: seq<ErrorPopup>

    /** `get_due()`: what the payment lines leave of the total. */
    function Due(): int
      reads this, set l | l in lines
    {
      total - PaidBy(lines)
    }

    constructor (total: int, customer: Option<Id>)
      ensures this.total == total && this.customer == customer && lines == [] && errors == []
      ensures Due() == total
    {
      this.total := total;
      this.customer := customer;
      lines := [];
      errors := [];
    }
  }

  /**
   * `handleInsurancePayment`. The selection popup's answer (`confirmed`,
   * `payload`) and whether the host's `add_paymentline` returns a line
   * (`hostAddsLine`) are inputs. A new line takes the whole due amount, so
   * the order is then fully paid and a second insurance payment stops at the
   * first guard.
   */
  method HandleInsurancePayment(order: OrderUi, paymentMethod: JsValue, confirmed: bool, payload: JsValue, hostAddsLine: bool)
    returns (added: Option<PaymentLine>)
    modifies order
    ensures order.total == old(order.total) && order.customer == old(order.customer)
    ensures old(order.Due()) <= 0 ==>
      added.None? && order.lines == old(order.lines) && order.errors == old(order.errors)
    ensures old(order.Due()) > 0 && order.customer.None? ==>
      added.None? && order.lines == old(order.lines) && order.errors == old(order.errors) + [NoCustomerError]
    ensures old(order.Due()) > 0 && order.customer.Some? && !(confirmed && Truthy(payload) && hostAddsLine) ==>
      added.None? && order.lines == old(order.lines) && order.errors == old(order.errors)
    ensures old(order.Due()) > 0 && order.customer.Some? && confirmed && Truthy(payload) && hostAddsLine ==>
      && added.Some? && fresh(added.value)
      && order.lines == old(order.lines) + [added.value]
      && order.errors == old(order.errors)
      && added.value.paymentMethod == paymentMethod
      && added.value.amount == old(order.Due())
      && added.value.isInsurance == Bool(true)
      && added.value.insuranceData == payload
      && added.value.details == DetailsOf(payload)
      && order.Due() == 0
    ensures added.None? ==> order.Due() == old(order.Due())
  {
    added := None;
    var dueAmount := order.Due();
    if dueAmount <= 0 {
      return;
    }
    if order.customer.None? {
      order.errors := order.errors + [NoCustomerError];
      return;
    }
    if confirmed && Truthy(payload) && hostAddsLine {
      var payment := AddInsuranceLine(order, paymentMethod, dueAmount, payload);
      added := Some(payment);
    }
  }

  /**
   * The confirmed branch: the host's `add_paymentline` appends a line for the
   * method, which then gets the amount, the insurance flag, the payload and
   * its details; the due amount drops by that amount.
   */
  method AddInsuranceLine(order: OrderUi, paymentMethod: JsValue, amount: int, payload: JsValue) returns (payment: PaymentLine)
    modifies order
    ensures fresh(payment)
    ensures order.lines == old(order.lines) + [payment]
    ensures order.total == old(order.total) && order.customer == old(order.customer) && order.errors == old(order.errors)
    ensures payment.paymentMethod == paymentMethod && payment.amount == amount
    ensures payment.isInsurance == Bool(true) && payment.insuranceData == payload && payment.details == DetailsOf(payload)
    ensures order.Due() == old(order.Due()) - amount
  {
    payment := new PaymentLine(paymentMethod, 0, Undefined, Undefined);
    payment.amount := amount;
    payment.isInsurance := Bool(true);
    payment.insuranceData := payload;
    payment.details := DetailsOf(payload);
    assert PaidBy(order.lines) == old(PaidBy(order.lines));
    order.lines := order.lines + [payment];
    assert order.lines[..|order.lines| - 1] == old(order.lines);
  }

  /**
   * `addNewPaymentLine`: the insurance flow for an insurance method; the
   * host's own handling of other methods is not modelled and leaves the
   * order as it is here.
   */
  method AddNewPaymentLine(order: OrderUi, arg: JsValue, confirmed: bool, payload: JsValue, hostAddsLine: bool)
    returns (routing: Routing, added: Option<PaymentLine>)
    modifies order
    ensures routing == Route(arg)
    ensures order.total == old(order.total) && order.customer == old(order.customer)
    ensures routing.ToParent? ==>
      added.None? && order.lines == old(order.lines) && order.errors == old(order.errors)
    ensures routing.ToInsurance? && old(order.Due()) <= 0 ==>
      added.None? && order.lines == old(order.lines) && order.errors == old(order.errors)
    ensures routing.ToInsurance? && old(order.Due()) > 0 && order.customer.None? ==>
      added.None? && order.lines == old(order.lines) && order.errors == old(order.errors) + [NoCustomerError]
    ensures routing.ToInsurance? && old(order.Due()) > 0 && order.customer.Some? && !(confirmed && Truthy(payload) && hostAddsLine) ==>
      added.None? && order.lines == old(order.lines) && order.errors == old(order.errors)
    ensures routing.ToInsurance? && old(order.Due()) > 0 && order.customer.Some? && confirmed && Truthy(payload) && hostAddsLine ==>
      && added.Some? && fresh(added.value)
      && order.lines == old(order.lines) + [added.value]
      && order.errors == old(order.errors)
      && added.value.paymentMethod == routing.paymentMethod
      && added.value.amount == old(order.Due())
      && added.value.isInsurance == Bool(true)
      && added.value.insuranceData == payload
      && added.value.details == DetailsOf(payload)
      && order.Due() == 0
  {
    routing := Route(arg);
    added := None;
    if routing.ToInsurance? {
      added := HandleInsurancePayment(order, routing.paymentMethod, confirmed, payload, hostAddsLine);
    }
  }
}
