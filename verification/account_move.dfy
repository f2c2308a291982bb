/**
 * The computed insurance fields of an invoice (models/account_move_ext.py):
 * the insurance company taken from the invoice's insurance payment records,
 * and whether the invoice's customer has an active insurance.
 */
module AccountMove {
  import PosOrder
  import PartnerPos

  type Id = nat

  /** Position `k` holds the first record that points at invoice `moveId`. */
  predicate FirstPointing(records: seq<PosOrder.InsuranceRecord>, moveId: Id, k: nat)
  {
    k < |records| && records[k].invoiceId == moveId &&
    forall j :: 0 <= j < k ==> records[j].invoiceId != moveId
  }

  /**
   * `insurance_payment_ids`: the insurance payment records pointing at the
   * invoice, in the host's order, so the first one pointing at it comes first.
   */
  function InsurancePaymentsOf(records: seq<PosOrder.InsuranceRecord>, moveId: Id): (r: seq<PosOrder.InsuranceRecord>)
    ensures forall x :: x in r <==> x in records && x.invoiceId == moveId
    ensures forall k: nat :: FirstPointing(records, moveId, k) ==> r != [] && r[0] == records[k]
  {
    if records == [] then []
    else
      assert forall k: nat :: FirstPointing(records, moveId, k) && k > 0 ==> FirstPointing(records[1..], moveId, k - 1);
      (if records[0].invoiceId == moveId then [records[0]] else []) + InsurancePaymentsOf(records[1..], moveId)
  }

  /** `_compute_insurance_company`: the first record's company, or False (0) without records. */
  function InsuranceCompany(payments: seq<PosOrder.InsuranceRecord>): Id
  {
    if payments != [] then payments[0].companyId else 0
  }

  /**
   * The company shown is the company of one of the records, or False exactly
   * when there are none (company ids are non-zero).
   */
  lemma InsuranceCompanySpec(payments: seq<PosOrder.InsuranceRecord>)
    requires forall x :: x in payments ==> x.companyId != 0
    ensures InsuranceCompany(payments) == 0 <==> payments == []
    ensures payments != [] ==> exists x :: x in payments && x.companyId == InsuranceCompany(payments)
  {
    if payments != [] {
      assert payments[0] in payments;
    }
  }

  /** When all records share one company, as the source expects, that company is shown. */
  lemma InsuranceCompanyOfOneCompany(payments: seq<PosOrder.InsuranceRecord>, c: Id)
    requires payments != [] && forall x :: x in payments ==> x.companyId == c
    ensures InsuranceCompany(payments) == c
  {
    if payments != [] {
      assert payments[0] in payments;
    }
  }

  /**
   * The company shown on invoice `moveId`: False exactly when no insurance
   * payment record points at the invoice, otherwise the company of the first
   * record that does (company ids are non-zero).
   */
  lemma InvoiceInsuranceCompany(records: seq<PosOrder.InsuranceRecord>, moveId: Id)
    requires forall x :: x in records ==> x.companyId != 0
    ensures InsuranceCompany(InsurancePaymentsOf(records, moveId)) == 0 <==>
      forall x :: x in records ==> x.invoiceId != moveId
    ensures forall k: nat :: FirstPointing(records, moveId, k) ==>
      InsuranceCompany(InsurancePaymentsOf(records, moveId)) == records[k].companyId
  {
    var payments := InsurancePaymentsOf(records, moveId);
    InsuranceCompanySpec(payments);
  }

  /** `search_count` of the partner's active insurances. */
  function CountActive(insurances: seq<PartnerPos.PatientInsurance>, partner: Id): nat
  {
    if insurances == [] then 0
    else (if PartnerPos.ActiveFor(insurances[0], partner) then 1 else 0) + CountActive(insurances[1..], partner)
  }

  lemma {:induction false} CountActivePositive(insurances: seq<PartnerPos.PatientInsurance>, partner: Id)
    ensures CountActive(insurances, partner) > 0 <==>
      exists i :: 0 <= i < |insurances| && PartnerPos.ActiveFor(insurances[i], partner)
  {
    if insurances != [] {
      CountActivePositive(insurances[1..], partner);
      if PartnerPos.ActiveFor(insurances[0], partner) {
      } else {
        if i :| 0 <= i < |insurances| && PartnerPos.ActiveFor(insurances[i], partner) {
          assert PartnerPos.ActiveFor(insurances[1..][i - 1], partner);
        }
        if i :| 0 <= i < |insurances[1..]| && PartnerPos.ActiveFor(insurances[1..][i], partner) {
          assert PartnerPos.ActiveFor(insurances[i + 1], partner);
        }
      }
    }
  }

  /** `_compute_patient_has_insurance`; partner 0 is an invoice without customer. */
  predicate PatientHasInsurance(partner: Id, insurances: seq<PartnerPos.PatientInsurance>)
  {
    partner != 0 && CountActive(insurances, partner) > 0
  }

  /**
   * The flag is False without a customer, and otherwise true exactly when the
   * customer has an active insurance, which is exactly when the customer's
   * own computed `has_insurance` is set.
   */
  lemma PatientHasInsuranceSpec(partner: Id, insurances: seq<PartnerPos.PatientInsurance>)
    ensures partner == 0 ==> !PatientHasInsurance(partner, insurances)
    ensures PatientHasInsurance(partner, insurances) <==>
      partner != 0 && exists i :: 0 <= i < |insurances| && PartnerPos.ActiveFor(insurances[i], partner)
    ensures PatientHasInsurance(partner, insurances) <==>
      partner != 0 && PartnerPos.LatestActive(insurances, partner).Some?
  {
    CountActivePositive(insurances, partner);
  }
}
