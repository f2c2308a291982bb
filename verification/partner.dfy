/**
 * Partner creation from the point-of-sale client and the computed insurance
 * fields of a partner (models/res_partner_pos_ext.py).
 */
module PartnerPos {
  import opened Wrappers
  import opened PyValues
  import Decimal

  type Id = nat

  // ---------------------------------------------------------------------
  // String helpers
  // ---------------------------------------------------------------------

  /** `s.split(sep)`: the pieces between separators; there is always at least one. */
  function Split(s: string, sep: char): (parts: seq<string>)
    ensures |parts| >= 1
  {
    if s == [] then [[]]
    else if s[0] == sep then [[]] + Split(s[1..], sep)
    else
      var rest := Split(s[1..], sep);
      [[s[0]] + rest[0]] + rest[1..]
  }

  lemma {:induction false} SplitWithoutSeparator(s: string, sep: char)
    requires sep !in s
    ensures Split(s, sep) == [s]
  {
    if s != [] {
      SplitWithoutSeparator(s[1..], sep);
      assert [s[0]] + s[1..] == s;
    }
  }

  /** A character other than the separator joins the first piece. */
  lemma SplitCons(c: char, s: string, sep: char)
    requires c != sep
    ensures Split([c] + s, sep) == [[c] + Split(s, sep)[0]] + Split(s, sep)[1..]
  {
    assert ([c] + s)[0] == c && ([c] + s)[1..] == s;
  }

  lemma {:induction false} SplitPrefix(head: string, tail: string, sep: char)
    requires sep !in head
    ensures Split(head + tail, sep) == [head + Split(tail, sep)[0]] + Split(tail, sep)[1..]
  {
    if head != [] {
      var parts := Split(tail, sep);
      var c, t := head[0], head[1..];
      assert c in head;
      assert sep !in t by {
        assert forall i :: 0 <= i < |t| ==> t[i] == head[i + 1];
      }
      SplitPrefix(t, tail, sep);
      assert head + tail == [c] + (t + tail);
      SplitCons(c, t + tail, sep);
      assert [c] + (t + parts[0]) == head + parts[0];
    } else {
      var parts := Split(tail, sep);
      assert head + tail == tail;
      assert head + parts[0] == parts[0];
      assert [parts[0]] + parts[1..] == parts;
    }
  }

  /** `s.split(',')[1]`, or None where Python raises IndexError. */
  function SecondSegment(s: string): (r: Option<string>)
    ensures r.Some? <==> ',' in s
  {
    var parts := Split(s, ',');
    if ',' !in s then
      SplitWithoutSeparator(s, ',');
      None
    else
      SegmentsOfCommaText(s);
      Some(parts[1])
  }

  lemma {:induction false} SegmentsOfCommaText(s: string)
    requires ',' in s
    ensures |Split(s, ',')| >= 2
  {
    if s[0] != ',' {
      SegmentsOfCommaText(s[1..]);
    }
  }

  /** For a data URL `header,payload` (RFC 2397, section 3) the second segment is the payload. */
  lemma DataUrlPayload(header: string, payload: string)
    requires ',' !in header && ',' !in payload
    ensures SecondSegment(header + "," + payload) == Some(payload)
  {
    var tail := "," + payload;
    assert header + "," + payload == header + tail;
    SplitPrefix(header, tail, ',');
    SplitWithoutSeparator(payload, ',');
    assert tail[0] == ',' && tail[1..] == payload;
    assert Split(tail, ',') == [[], payload];
  }

  /** `str.lower()` on ASCII letters. */
  function LowerChar(c: char): char
  {
    if 'A' <= c <= 'Z' then (c as int + 32) as char else c
  }

  /** `name.replace(' ', '_').lower()`. */
  function Slug(name: string): (r: string)
    ensures |r| == |name|
    ensures forall i :: 0 <= i < |r| ==> r[i] != ' ' && !('A' <= r[i] <= 'Z')
    ensures forall i :: 0 <= i < |r| ==> r[i] == (if name[i] == ' ' then '_' else LowerChar(name[i]))
  {
    if name == [] then []
    else [if name[0] == ' ' then '_' else LowerChar(name[0])] + Slug(name[1..])
  }

  const LocalDomain: string := "@pos.local"

  // ---------------------------------------------------------------------
  // create_from_ui
  // ---------------------------------------------------------------------

  /** The keys dropped before writing an existing partner. */
  const OpticalKeys: seq<string> := [
    "has_insurance", "insurance_company_id", "policy_number", "insurance_expiry_date", "patient_company",
    "insurance_invoice_number", "coverage_details", "document", "document_name", "insuranceData"]

  /** The keys popped before creating a patient. */
  const InsuranceKeys: set<string> := {
    "insurance_company_id", "policy_number", "insurance_expiry_date", "patient_company",
    "insurance_invoice_number", "coverage_details"}

  /** The open point-of-sale session of the user, as far as partner creation reads it. */
  datatype Session = Session(opticalEnabled: bool, branch: Id)

  /**
   * What the server answers while creating: the user's open session, the
   * first branch (0: none), today's date, the id a plain partner creation
   * returns, and the partner linked to the created patient (None when the
   * patient creation raised).
   */
  datatype Host = Host(session: Option<Session>, defaultBranch: Id, today: Value, newPartnerId: Id, patientPartner: Option<Id>)

  /** The values an `optical.patient` is created with (the dictionary's seven keys). */
  datatype PatientVals = PatientVals(
    name: Value,
    phone: Value,
    mobile: Value,
    email: Value,
    dateOfBirth: Value,
    branchId: Value,
    hasInsurance: bool)

  /**
   * The values an `optical.patient.insurance` is created with: five keys
   * always, four only when the UI sent a truthy value (None: key absent).
   */
  datatype InsuranceVals = InsuranceVals(
    patientId: Id,
    companyId: int,
    name: Value,
    date: Value,
    active: bool,
    expiryDate: Option<Value>,
    patientCompanyId: Option<Value>,
    invoiceNumber: Option<Value>,
    coverageDetails: Option<Value>)

  /** The records written or created. */
  datatype Effect =
    | Wrote(id: Value, vals: map<string, Value>)
    | CreatedPartner(vals: map<string, Value>)
    | CreatedPatient(patient: PatientVals)
    | CreatedInsurance(insurance: InsuranceVals)

  datatype Created = Created(returned: Value, effects: seq<Effect>)

  /** The two ways the method raises before reaching its own exception handler. */
  datatype UiError =
    | ImageMalformed  // a truthy image that is not a string with a comma
    | NameNotText     // an email fallback over a name that is not a string

  /** The image step: a truthy image is replaced by its second comma-separated segment. */
  function NormaliseImage(partner: map<string, Value>): (r: Result<map<string, Value>, UiError>)
    ensures !Truthy(Get(partner, "image_1920")) ==> r == Success(partner)
    ensures Truthy(Get(partner, "image_1920")) ==>
      match partner["image_1920"]
      case Str(s) => (',' in s ==> r == Success(partner["image_1920" := Str(SecondSegment(s).value)]))
                     && (',' !in s ==> r == Failure(ImageMalformed))
      case _ => r == Failure(ImageMalformed)
  {
    if !Truthy(Get(partner, "image_1920")) then Success(partner)
    else
      match partner["image_1920"]
      case Str(s) => if ',' in s then Success(partner["image_1920" := Str(SecondSegment(s).value)]) else Failure(ImageMalformed)
      case _ => Failure(ImageMalformed)
  }

  /** What is written to an existing partner: everything but `id` and the optical keys. */
  function Stripped(m: map<string, Value>): (r: map<string, Value>)
    ensures forall k :: k in r <==> k in m && k != "id" && k !in OpticalKeys
  {
    map k | k in m && k != "id" && k !in OpticalKeys :: m[k]
  }

  /** An empty date of birth becomes False; a missing one stays missing. */
  function DobNormalised(m: map<string, Value>): (r: map<string, Value>)
    ensures r.Keys == m.Keys
    ensures forall k :: k in m && k != "date_of_birth" ==> r[k] == m[k]
    ensures "date_of_birth" in m ==>
      r["date_of_birth"] == (if Truthy(m["date_of_birth"]) then m["date_of_birth"] else Bool(false))
  {
    if "date_of_birth" in m && !Truthy(m["date_of_birth"]) then m["date_of_birth" := Bool(false)] else m
  }

  function Without(m: map<string, Value>, keys: set<string>): (r: map<string, Value>)
    ensures forall k :: k in r <==> k in m && k !in keys
  {
    map k | k in m && k !in keys :: m[k]
  }

  /** `pos_session and pos_session.config_id.optical_enabled`. */
  predicate OpticalPos(session: Option<Session>)
  {
    session.Some? && session.value.opticalEnabled
  }

  /** The fallback email: the name (or 'patient' when the key is absent) with spaces as underscores, lowered. */
  function EmailFallback(name: Value): (r: Result<string, UiError>)
    ensures name.Str? <==> r.Success?
    ensures r.Success? ==> r.value == Slug(name.s) + LocalDomain
  {
    if name.Str? then Success(Slug(name.s) + LocalDomain) else Failure(NameNotText)
  }

  lemma EmailFallbackShape(name: string)
    ensures var e := Slug(name) + LocalDomain;
      && e[|e| - |LocalDomain|..] == LocalDomain
      && forall i :: 0 <= i < |e| ==> e[i] != ' ' && !('A' <= e[i] <= 'Z')
  {
    var slug := Slug(name);
    var e := slug + LocalDomain;
    assert e[|slug|..] == LocalDomain;
    forall i | 0 <= i < |e|
      ensures e[i] != ' ' && !('A' <= e[i] <= 'Z')
    {
      if i < |slug| {
        assert e[i] == slug[i];
      } else {
        LocalDomainShape();
        assert e[i] == LocalDomain[i - |slug|];
      }
    }
  }

  /** The local domain has no space and no upper-case letter. */
  lemma LocalDomainShape()
    ensures forall i :: 0 <= i < |LocalDomain| ==> LocalDomain[i] != ' ' && !('A' <= LocalDomain[i] <= 'Z')
  {
    assert LocalDomain == ['@', 'p', 'o', 's', '.', 'l', 'o', 'c', 'a', 'l'];
  }

  /** A name that is already a slug is kept. */
  lemma {:induction false} SlugOfSlug(name: string)
    requires forall i :: 0 <= i < |name| ==> name[i] != ' ' && !('A' <= name[i] <= 'Z')
    ensures Slug(name) == name
  {
    if name != [] {
      SlugOfSlug(name[1..]);
      assert [name[0]] + name[1..] == name;
    }
  }

  /** Without a name key the fallback address is `patient@pos.local`. */
  lemma EmailFallbackWithoutName(q: map<string, Value>)
    requires "name" !in q
    ensures EmailFallback(GetOr(q, "name", Str("patient"))) == Success("patient" + LocalDomain)
  {
    var name := "patient";
    assert GetOr(q, "name", Str("patient")) == Str(name);
    assert forall i :: 0 <= i < |name| ==> 'a' <= name[i] <= 'z';
    SlugOfSlug(name);
    assert Slug(name) == name;
  }

  /** The fallback phone: the mobile value when the key exists, 'N/A' otherwise. */
  function PhoneFallback(q: map<string, Value>): (v: Value)
    ensures "mobile" in q ==> v == q["mobile"]
    ensures "mobile" !in q ==> v == Str("N/A")
  {
    GetOr(q, "mobile", Str("N/A"))
  }

  /** `int(v)`: integers, booleans and non-empty digit strings; None where Python raises. */
  function IntOf(v: Value): (r: Option<int>)
    ensures v.Int? ==> r == Some(v.i)
    ensures v.Null? || v.List? || v.Dict? ==> r.None?
  {
    match v
    case Int(i) => Some(i)
    case Bool(b) => Some(if b then 1 else 0)
    case Str(s) => if s != [] && Decimal.AllDigits(s) then Some(Decimal.DigitsValue(s)) else None
    case _ => None
  }

  /** `int(str(n))` gives back `n`: an id sent as its numeral is converted exactly. */
  lemma IntOfNumeral(n: nat)
    ensures IntOf(Str(Decimal.DecimalString(n))) == Some(n)
  {
    Decimal.DigitsValueOfDecimal(n);
  }

  /** An optional insurance key: present with the UI's value only when that value is truthy. */
  function IfTruthy(v: Value): (r: Option<Value>)
    ensures r.Some? <==> Truthy(v)
    ensures r.Some? ==> r.value == v
  {
    if Truthy(v) then Some(v) else None
  }

  /** The patient values, key by key, as the method builds and then patches them. */
  ghost predicate PatientValsOk(vals: PatientVals, q: map<string, Value>, q0: map<string, Value>, host: Host)
    requires OpticalPos(host.session)
  {
    var email := GetOr(q, "email", Str(""));
    var phone := GetOr(q, "phone", Str(""));
    var sessionBranch := host.session.value.branch;
    && vals.name == Get(q, "name")
    && vals.mobile == GetOr(q, "mobile", Str(""))
    && EmailPatched(vals.email, email, GetOr(q, "name", Str("patient")))
    && vals.phone == (if Truthy(phone) then phone else PhoneFallback(q))
    && vals.dateOfBirth == (if Truthy(Get(q, "date_of_birth")) then q["date_of_birth"] else host.today)
    && vals.branchId == Int(if sessionBranch != 0 then sessionBranch else host.defaultBranch)
    && vals.hasInsurance == (Truthy(Get(q0, "insurance_company_id")) && Truthy(Get(q0, "policy_number")))
  }

  /** The insurance values: fixed keys, and the four optional keys only when truthy in the UI dictionary. */
  predicate InsuranceValsOk(vals: InsuranceVals, pid: Id, companyId: int, q0: map<string, Value>, today: Value)
  {
    && vals.patientId == pid && vals.companyId == companyId && vals.name == Get(q0, "policy_number")
    && vals.date == today && vals.active
    && vals.expiryDate == IfTruthy(Get(q0, "insurance_expiry_date"))
    && vals.patientCompanyId == IfTruthy(Get(q0, "patient_company"))
    && vals.invoiceNumber == IfTruthy(Get(q0, "insurance_invoice_number"))
    && vals.coverageDetails == IfTruthy(Get(q0, "coverage_details"))
  }

  /** The email fallback fails exactly when it is needed and the name is present but not text. */
  predicate NameFails(q: map<string, Value>)
  {
    !Truthy(GetOr(q, "email", Str(""))) && EmailFallback(GetOr(q, "name", Str("patient"))).Failure?
  }

  predicate BranchAvailable(host: Host)
    requires OpticalPos(host.session)
  {
    host.session.value.branch != 0 || host.defaultBranch != 0
  }

  /** The loop popping the optical keys before an existing partner is written. */
  method PopOpticalKeys(m: map<string, Value>) returns (p: map<string, Value>)
    requires "id" !in m
    ensures p == Stripped(m)
  {
    p := m;
    var i := 0;
    while i < |OpticalKeys|
      invariant 0 <= i <= |OpticalKeys|
      invariant forall k :: k in p <==> k in m && k !in OpticalKeys[..i]
      invariant forall k :: k in p ==> p[k] == m[k]
    {
      p := p - {OpticalKeys[i]};
      assert OpticalKeys[..i + 1] == OpticalKeys[..i] + [OpticalKeys[i]];
      i := i + 1;
    }
    assert OpticalKeys[..i] == OpticalKeys;
  }

  /** A truthy email is kept; a falsy one is replaced by the fallback address built from `name`. */
  predicate EmailPatched(out: Value, email: Value, name: Value)
  {
    (Truthy(email) ==> out == email) && (!Truthy(email) ==> out.Str? && EmailFallback(name) == Success(out.s))
  }

  /** The email patch: a falsy email is replaced by the fallback address, which may raise. */
  method PatchEmail(q: map<string, Value>, email: Value) returns (r: Result<Value, UiError>)
    ensures r.Failure? <==> !Truthy(email) && EmailFallback(GetOr(q, "name", Str("patient"))).Failure?
    ensures r.Failure? ==> r.error == NameNotText
    ensures r.Success? ==> EmailPatched(r.value, email, GetOr(q, "name", Str("patient")))
  {
    if Truthy(email) {
      return Success(email);
    }
    var fallback := EmailFallback(GetOr(q, "name", Str("patient")));
    if fallback.Failure? {
      return Failure(fallback.error);
    }
    return Success(Str(fallback.value));
  }

  /** `patient_vals` as first built, before the email, phone and branch patches. */
  method InitialPatientVals(q: map<string, Value>, q0: map<string, Value>, host: Host) returns (vals: PatientVals)
    requires OpticalPos(host.session)
    ensures vals.name == Get(q, "name")
    ensures vals.phone == GetOr(q, "phone", Str("")) && vals.mobile == GetOr(q, "mobile", Str(""))
    ensures vals.email == GetOr(q, "email", Str(""))
    ensures vals.dateOfBirth == (if Truthy(Get(q, "date_of_birth")) then q["date_of_birth"] else host.today)
    ensures vals.branchId == if host.session.value.branch != 0 then Int(host.session.value.branch) else Bool(false)
    ensures vals.hasInsurance == (Truthy(Get(q0, "insurance_company_id")) && Truthy(Get(q0, "policy_number")))
  {
    var company := Get(q0, "insurance_company_id");
    var policy := Get(q0, "policy_number");
    var dateOfBirth := Get(q, "date_of_birth");
    if !Truthy(dateOfBirth) {
      dateOfBirth := host.today;
    }
    var sessionBranch := host.session.value.branch;
    vals := PatientVals(
      Get(q, "name"),
      GetOr(q, "phone", Str("")),
      GetOr(q, "mobile", Str("")),
      GetOr(q, "email", Str("")),
      dateOfBirth,
      if sessionBranch != 0 then Int(sessionBranch) else Bool(false),
      Truthy(company) && Truthy(policy));
  }


  /**
   * Building `patient_vals` and patching email, phone and branch. None: no
   * branch at all, where the source falls back to a plain partner.
   */
  method PatientValues(q: map<string, Value>, q0: map<string, Value>, host: Host) returns (r: Result<Option<PatientVals>, UiError>)
    requires OpticalPos(host.session)
    ensures r.Failure? <==> NameFails(q)
    ensures r.Failure? ==> r.error == NameNotText
    ensures r.Success? ==> (r.value.None? <==> !BranchAvailable(host))
    ensures r.Success? && r.value.Some? ==> PatientValsOk(r.value.value, q, q0, host)
  {
    var vals := InitialPatientVals(q, q0, host);
    var sessionBranch := host.session.value.branch;
    var email := PatchEmail(q, vals.email);
    if email.Failure? {
      return Failure(email.error);
    }
    vals := vals.(email := email.value);
    if !Truthy(vals.phone) {
      vals := vals.(phone := PhoneFallback(q));
    }
    if !Truthy(vals.branchId) {
      if host.defaultBranch != 0 {
        vals := vals.(branchId := Int(host.defaultBranch));
      } else {
        return Success(None);
      }
    }
    assert vals.branchId == Int(if sessionBranch != 0 then sessionBranch else host.defaultBranch);
    return Success(Some(vals));
  }

  /** The insurance record's values: the five fixed ones and the truthy optional ones. */
  method InsuranceValues(pid: Id, companyId: int, q0: map<string, Value>, today: Value) returns (vals: InsuranceVals)
    ensures InsuranceValsOk(vals, pid, companyId, q0, today)
  {
    var expiry := Get(q0, "insurance_expiry_date");
    var patientCompany := Get(q0, "patient_company");
    var invoiceNumber := Get(q0, "insurance_invoice_number");
    var coverage := Get(q0, "coverage_details");
    vals := InsuranceVals(pid, companyId, Get(q0, "policy_number"), today, true, None, None, None, None);
    if Truthy(expiry) {
      vals := vals.(expiryDate := Some(expiry));
    }
    if Truthy(patientCompany) {
      vals := vals.(patientCompanyId := Some(patientCompany));
    }
    if Truthy(invoiceNumber) {
      vals := vals.(invoiceNumber := Some(invoiceNumber));
    }
    if Truthy(coverage) {
      vals := vals.(coverageDetails := Some(coverage));
    }
  }

  /**
   * The outcome of creating a patient from the normalised dictionary `q0`:
   * the email fallback may raise; without a branch, or when the patient
   * creation raises, a plain partner is created from the dictionary without
   * its insurance keys; otherwise the patient is created and, when both
   * company and policy are truthy, an insurance record too, unless the
   * company cannot be converted to an integer, in which case a plain partner
   * is created as well.
   */
  ghost predicate PatientOutcomeOk(r: Result<Created, UiError>, q0: map<string, Value>, host: Host)
    requires OpticalPos(host.session)
  {
    var q := Without(q0, InsuranceKeys);
    var company := Get(q0, "insurance_company_id");
    var insured := Truthy(company) && Truthy(Get(q0, "policy_number"));
    && (r.Failure? <==> NameFails(q))
    && (r.Failure? ==> r.error == NameNotText)
    && (!NameFails(q) && (!BranchAvailable(host) || host.patientPartner.None?) ==>
          r == Success(Created(Int(host.newPartnerId), [CreatedPartner(q)])))
    && (!NameFails(q) && BranchAvailable(host) && host.patientPartner.Some? ==>
          var pid := host.patientPartner.value;
          && r.Success? && |r.value.effects| >= 1 && r.value.effects[0].CreatedPatient?
          && PatientValsOk(r.value.effects[0].patient, q, q0, host)
          && (!insured ==> r.value.returned == Int(pid) && |r.value.effects| == 1)
          && (insured && IntOf(company).None? ==>
                r.value.returned == Int(host.newPartnerId) && r.value.effects[1..] == [CreatedPartner(q)])
          && (insured && IntOf(company).Some? ==>
                && r.value.returned == Int(pid)
                && |r.value.effects| == 2 && r.value.effects[1].CreatedInsurance?
                && InsuranceValsOk(r.value.effects[1].insurance, pid, IntOf(company).value, q0, host.today)))
  }

  /**
   * The optical branch of `create_from_ui` for a new partner: `q0` is the
   * normalised UI dictionary, whose insurance keys are popped before the
   * patient is created.
   */
  method CreatePatient(q0: map<string, Value>, host: Host) returns (r: Result<Created, UiError>)
    requires OpticalPos(host.session)
    ensures PatientOutcomeOk(r, q0, host)
  {
    var company := Get(q0, "insurance_company_id");
    var policy := Get(q0, "policy_number");
    var p := q0 - InsuranceKeys;
    assert p == Without(q0, InsuranceKeys);

    var patient := PatientValues(p, q0, host);
    if patient.Failure? {
      return Failure(patient.error);
    }
    if patient.value.None? {
      return Success(Created(Int(host.newPartnerId), [CreatedPartner(p)]));
    }
    var vals := patient.value.value;

    // the guarded part: a raise falls back to creating a plain partner
    if host.patientPartner.None? {
      return Success(Created(Int(host.newPartnerId), [CreatedPartner(p)]));
    }
    var pid := host.patientPartner.value;
    if Truthy(company) && Truthy(policy) {
      var companyId := IntOf(company);
      if companyId.None? {
        return Success(Created(Int(host.newPartnerId), [CreatedPatient(vals), CreatedPartner(p)]));
      }
      var insurance := InsuranceValues(pid, companyId.value, q0, host.today);
      return Success(Created(Int(pid), [CreatedPatient(vals), CreatedInsurance(insurance)]));
    }
    return Success(Created(Int(pid), [CreatedPatient(vals)]));
  }

  /**
   * `create_from_ui`. The incoming dictionary is updated step by step:
   * image, `id`, date of birth; an existing partner is written, a new one is
   * created plainly or, at an optical point of sale, as a patient.
   */
  method CreateFromUi(partner: map<string, Value>, host: Host) returns (r: Result<Created, UiError>)
    ensures NormaliseImage(partner).Failure? ==> r == Failure(ImageMalformed)
    ensures NormaliseImage(partner).Success? && Truthy(Get(partner, "id")) ==>
      var written := Stripped(NormaliseImage(partner).value);
      r == Success(Created(partner["id"], if written == map[] then [] else [Wrote(partner["id"], written)]))
    ensures NormaliseImage(partner).Success? && !Truthy(Get(partner, "id")) && !OpticalPos(host.session) ==>
      r == Success(Created(Int(host.newPartnerId), [CreatedPartner(DobNormalised(NormaliseImage(partner).value - {"id"}))]))
    ensures NormaliseImage(partner).Success? && !Truthy(Get(partner, "id")) && OpticalPos(host.session) ==>
      PatientOutcomeOk(r, DobNormalised(NormaliseImage(partner).value - {"id"}), host)
  {
    var image := NormaliseImage(partner);
    if image.Failure? {
      return Failure(image.error);
    }
    var p := image.value;
    assert Get(p, "id") == Get(partner, "id");
    var partnerId := Get(p, "id");
    p := p - {"id"};

    if Truthy(partnerId) {
      p := PopOpticalKeys(p);
      assert p == Stripped(image.value);
      if p != map[] {
        return Success(Created(partnerId, [Wrote(partnerId, p)]));
      }
      return Success(Created(partnerId, []));
    }

    if "date_of_birth" in p && !Truthy(p["date_of_birth"]) {
      p := p["date_of_birth" := Bool(false)];
    }
    assert p == DobNormalised(image.value - {"id"});

    if !OpticalPos(host.session) {
      return Success(Created(Int(host.newPartnerId), [CreatedPartner(p)]));
    }
    r := CreatePatient(p, host);
  }

  // ---------------------------------------------------------------------
  // _compute_insurance_fields
  // ---------------------------------------------------------------------

  /** An `optical.patient.insurance` record; `patientCompany` 0 is none. */
  datatype PatientInsurance = PatientInsurance(
    id: Id,
    patient: Id,
    active: bool,
    date: int,
    company: Id,
    name: Value,
    expiryDate: Value,
    patientCompany: Id,
    invoiceNumber: Value,
    coverageDetails: Value)

  predicate ActiveFor(ins: PatientInsurance, pid: Id)
  {
    ins.patient == pid && ins.active
  }

  /**
   * The search for the patient's active insurance, latest date first, one
   * record: among the latest, the first in the host's order.
   */
  function LatestActive(insurances: seq<PatientInsurance>, pid: Id): (r: Option<PatientInsurance>)
    ensures r.None? <==> forall i :: 0 <= i < |insurances| ==> !ActiveFor(insurances[i], pid)
    ensures r.Some? ==> r.value in insurances && ActiveFor(r.value, pid)
    ensures r.Some? ==> forall i :: 0 <= i < |insurances| && ActiveFor(insurances[i], pid) ==> insurances[i].date <= r.value.date
  {
    if insurances == [] then None
    else
      var init := insurances[..|insurances| - 1];
      var last := insurances[|insurances| - 1];
      var before := LatestActive(init, pid);
      assert forall i :: 0 <= i < |init| ==> init[i] == insurances[i];
      if !ActiveFor(last, pid) then before
      else if before.None? || last.date > before.value.date then Some(last)
      else before
  }

  /** A partner with the insurance fields the point of sale loads; ids 0 and `Bool(false)` are False. */
  class PartnerRecord {
    const id: Id
    var hasInsurance: bool
    var insuranceCompany: Id
    var policyNumber: Value
    var expiryDate: Value
    var patientCompany: Id
    var invoiceNumber: Value
    var coverageDetails: Value

    constructor (id: Id)
      ensures this.id == id
      ensures Shows(None)
    {
      this.id := id;
      hasInsurance := false;
      insuranceCompany := 0;
      policyNumber := Bool(false);
      expiryDate := Bool(false);
      patientCompany := 0;
      invoiceNumber := Bool(false);
      coverageDetails := Bool(false);
    }

    /** One partner's turn of the loop: all seven fields reset, then copied from `ins` when there is one. */
    method Fill(ins: Option<PatientInsurance>)
      modifies this
      ensures Shows(ins)
    {
      hasInsurance := false;
      insuranceCompany := 0;
      policyNumber := Bool(false);
      expiryDate := Bool(false);
      patientCompany := 0;
      invoiceNumber := Bool(false);
      coverageDetails := Bool(false);
      if ins.Some? {
        hasInsurance := true;
        insuranceCompany := ins.value.company;
        policyNumber := ins.value.name;
        expiryDate := ins.value.expiryDate;
        patientCompany := ins.value.patientCompany;
        invoiceNumber := ins.value.invoiceNumber;
        coverageDetails := ins.value.coverageDetails;
      }
    }

    /** The seven fields show `ins`, or are all False when there is none. */
    predicate Shows(ins: Option<PatientInsurance>)
      reads this
    {
      match ins
      case None =>
        && !hasInsurance && insuranceCompany == 0 && policyNumber == Bool(false) && expiryDate == Bool(false)
        && patientCompany == 0 && invoiceNumber == Bool(false) && coverageDetails == Bool(false)
      case Some(i) =>
        && hasInsurance && insuranceCompany == i.company && policyNumber == i.name && expiryDate == i.expiryDate
        && patientCompany == i.patientCompany && invoiceNumber == i.invoiceNumber && coverageDetails == i.coverageDetails
    }
  }

  /** `_compute_insurance_fields` over a recordset: reset, then fill from the latest active insurance. */
  method ComputeInsuranceFields(partners: seq<PartnerRecord>, insurances: seq<PatientInsurance>)
    modifies set p | p in partners
    ensures forall p :: p in partners ==> p.Shows(LatestActive(insurances, p.id))
  {
    var i := 0;
    while i < |partners|
      invariant 0 <= i <= |partners|
      invariant forall j :: 0 <= j < i ==> partners[j].Shows(LatestActive(insurances, partners[j].id))
    {
      var partner := partners[i];
      partner.Fill(LatestActive(insurances, partner.id));
      i := i + 1;
    }
  }
}
