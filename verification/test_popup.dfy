/**
 * The optical test popup (static/src/js/optical_test_popup.js): the form
 * state, its validation, the payload it returns and the confirm and cancel
 * buttons.
 */
module TestPopup {
  import opened Wrappers
  import opened JsValues
  import Decimal

  /** What a text input holds: a string, or null/undefined when never set. */
  type JsText = v: JsValue | v.Undefined? || v.Null? || v.Text? witness Undefined

  /** The inputs for one eye (OD: right, OS: left). */
  datatype EyeFields = EyeFields(
    sphere: JsText,
    cylinder: JsText,
    axis: JsText,
    prism: JsText,
    add: JsText,
    va: JsText,
    pd: JsText,
    height: JsText)

  /** The popup's form state. */
  datatype FormState = FormState(
    od: EyeFields,
    os: EyeFields,
    needsNewLens: JsValue,
    needsNewFrame: JsValue,
    lensTypeId: JsValue,
    coatingId: JsValue,
    indexId: JsValue,
    materialId: JsValue,
    frameId: JsValue,
    insuranceCompanyId: JsValue,
    workshopOrderNumber: JsText,
    followUpRequired: JsValue,
    followUpDate: JsValue,
    notes: JsText,
    validUntil: JsValue)

  const EmptyEye := EyeFields(Text(""), Text(""), Text(""), Text(""), Text(""), Text(""), Text(""), Text(""))

  /** The state `setup` starts from. */
  const InitialState := FormState(
    EmptyEye, EmptyEye, Bool(false), Bool(false), Bool(false), Bool(false), Bool(false), Bool(false), Bool(false),
    Bool(false), Text(""), Bool(false), Text(""), Text(""), Text(""))

  // ---------------------------------------------------------------------
  // validate
  // ---------------------------------------------------------------------

  /** The three ways `validate` can fail, each shown with its own message. */
  datatype ValidationError = NoMeasurement | OdAxisOutOfRange | OsAxisOutOfRange

  function Message(e: ValidationError): string
  {
    match e
    case NoMeasurement => "Please enter at least one measurement for OD or OS."
    case OdAxisOutOfRange => "OD Axis must be between 0 and 180."
    case OsAxisOutOfRange => "OS Axis must be between 0 and 180."
  }

  datatype Validation = Valid | Invalid(error: ValidationError)

  /** Sphere, cylinder, axis or VA is filled; prism, add, PD and height do not count. */
  predicate HasEyeData(e: EyeFields)
  {
    Truthy(e.sphere) || Truthy(e.cylinder) || Truthy(e.axis) || Truthy(e.va)
  }

  /** The number a text input compares as against a number (null is 0). */
  function TextNumber(v: JsText): JsNumber
  {
    match v
    case Text(s) => StringToNumber(s)
    case Null => Finite(0.0)
    case _ => NaN
  }

  /** A filled axis whose value compares below 0 or above 180. */
  predicate AxisOutOfRange(axis: JsText)
  {
    Truthy(axis) && (Less(TextNumber(axis), Finite(0.0)) || Less(Finite(180.0), TextNumber(axis)))
  }

  /** `validate`: the measurement check, then the OD axis, then the OS axis. */
  function Validate(state: FormState): (r: Validation)
    ensures r == Valid <==>
      (HasEyeData(state.od) || HasEyeData(state.os)) && !AxisOutOfRange(state.od.axis) && !AxisOutOfRange(state.os.axis)
    ensures r == Invalid(NoMeasurement) <==> !HasEyeData(state.od) && !HasEyeData(state.os)
    ensures r == Invalid(OdAxisOutOfRange) <==>
      (HasEyeData(state.od) || HasEyeData(state.os)) && AxisOutOfRange(state.od.axis)
    ensures r == Invalid(OsAxisOutOfRange) <==>
      (HasEyeData(state.od) || HasEyeData(state.os)) && !AxisOutOfRange(state.od.axis) && AxisOutOfRange(state.os.axis)
  {
    if !HasEyeData(state.od) && !HasEyeData(state.os) then Invalid(NoMeasurement)
    else if AxisOutOfRange(state.od.axis) then Invalid(OdAxisOutOfRange)
    else if AxisOutOfRange(state.os.axis) then Invalid(OsAxisOutOfRange)
    else Valid
  }

  /** The measurements that count agree, so validation agrees, whatever prism, add, PD and height hold. */
  lemma ValidateIgnoresOtherFields(s1: FormState, s2: FormState)
    requires s1.od.sphere == s2.od.sphere && s1.od.cylinder == s2.od.cylinder && s1.od.axis == s2.od.axis && s1.od.va == s2.od.va
    requires s1.os.sphere == s2.os.sphere && s1.os.cylinder == s2.os.cylinder && s1.os.axis == s2.os.axis && s1.os.va == s2.os.va
    ensures Validate(s1) == Validate(s2)
  {
  }

  /** A fresh popup cannot be confirmed: nothing has been measured. */
  lemma InitialStateInvalid()
    ensures Validate(InitialState) == Invalid(NoMeasurement)
  {
    assert !Truthy(Text(""));
    assert !HasEyeData(EmptyEye);
  }

  // ---------------------------------------------------------------------
  // getPayload
  // ---------------------------------------------------------------------

  /** `_parseInt`: None (false) for "", null, undefined and text without a leading integer. */
  function ParseIntField(v: JsText): (r: Option<int>)
    ensures !Truthy(v) ==> r.None?
    ensures v.Text? && v.s != "" ==> r == ParseInt(v.s)
  {
    if v.Text? && v.s != "" then ParseInt(v.s) else None
  }

  /** Text without white space at either end. */
  predicate Trimmed(t: string)
  {
    t == [] || (!IsJsSpace(t[0]) && !IsJsSpace(t[|t| - 1]))
  }

  /** `value?.trim() || ""`: the trimmed text, or the empty string for null and undefined. */
  function TrimmedText(v: JsText): (r: string)
    ensures Trimmed(r)
    ensures v.Text? ==> r == Trim(v.s)
    ensures !v.Text? ==> r == ""
    ensures v.Text? && Trimmed(v.s) ==> r == v.s
  {
    if v.Text? && v.s != [] && Trimmed(v.s) then
      TrimUnchanged(v.s);
      Trim(v.s)
    else if v.Text? then Trim(v.s)
    else ""
  }

  /** The payload for one eye; the decimal measurements go through `_parseFloat`, which is not modelled. */
  datatype EyePayload = EyePayload(axis: Option<int>, va: string)

  datatype Payload = Payload(
    od: EyePayload,
    os: EyePayload,
    needsNewLens: JsValue,
    needsNewFrame: JsValue,
    lensTypeId: JsValue,
    coatingId: JsValue,
    indexId: JsValue,
    materialId: JsValue,
    frameId: JsValue,
    insuranceCompanyId: JsValue,
    workshopOrderNumber: string,
    followUpRequired: JsValue,
    followUpDate: JsValue,
    notes: string,
    validUntil: JsValue)

  /** A value or false: what `value || false` leaves. */
  predicate OrFalse(out: JsValue, v: JsValue)
  {
    (Truthy(v) ==> out == v) && (!Truthy(v) ==> out == Bool(false))
  }

  function EyePayloadOf(e: EyeFields): EyePayload
  {
    EyePayload(ParseIntField(e.axis), TrimmedText(e.va))
  }

  /**
   * `getPayload`: the axes parsed as integers, the texts trimmed, and every
   * other field the state's value when truthy and false otherwise.
   */
  function GetPayload(state: FormState): (p: Payload)
    ensures p.od.axis == ParseIntField(state.od.axis) && p.os.axis == ParseIntField(state.os.axis)
    ensures p.od.va == TrimmedText(state.od.va) && p.os.va == TrimmedText(state.os.va)
    ensures p.workshopOrderNumber == TrimmedText(state.workshopOrderNumber) && p.notes == TrimmedText(state.notes)
    ensures Trimmed(p.od.va) && Trimmed(p.os.va) && Trimmed(p.workshopOrderNumber) && Trimmed(p.notes)
    ensures OrFalse(p.needsNewLens, state.needsNewLens) && OrFalse(p.needsNewFrame, state.needsNewFrame)
    ensures OrFalse(p.lensTypeId, state.lensTypeId) && OrFalse(p.coatingId, state.coatingId)
    ensures OrFalse(p.indexId, state.indexId) && OrFalse(p.materialId, state.materialId)
    ensures OrFalse(p.frameId, state.frameId) && OrFalse(p.insuranceCompanyId, state.insuranceCompanyId)
    ensures OrFalse(p.followUpRequired, state.followUpRequired) && OrFalse(p.followUpDate, state.followUpDate)
    ensures OrFalse(p.validUntil, state.validUntil)
  {
    Payload(
      EyePayloadOf(state.od),
      EyePayloadOf(state.os),
      Or(state.needsNewLens, Bool(false)),
      Or(state.needsNewFrame, Bool(false)),
      Or(state.lensTypeId, Bool(false)),
      Or(state.coatingId, Bool(false)),
      Or(state.indexId, Bool(false)),
      Or(state.materialId, Bool(false)),
      Or(state.frameId, Bool(false)),
      Or(state.insuranceCompanyId, Bool(false)),
      TrimmedText(state.workshopOrderNumber),
      Or(state.followUpRequired, Bool(false)),
      Or(state.followUpDate, Bool(false)),
      TrimmedText(state.notes),
      Or(state.validUntil, Bool(false)))
  }

  /** An axis typed as a plain numeral that passed validation is stored in 0..180. */
  lemma ValidatedNumeralAxisInRange(state: FormState, digits: string)
    requires Validate(state) == Valid
    requires state.od.axis == Text(digits) && digits != [] && Decimal.AllDigits(digits)
    ensures GetPayload(state).od.axis == Some(Decimal.DigitsValue(digits))
    ensures 0 <= Decimal.DigitsValue(digits) <= 180
  {
    NumeralAxis(digits);
    assert !AxisOutOfRange(state.od.axis);
  }

  /** A numeral axis compares as its value and is stored as its value. */
  lemma NumeralAxis(digits: string)
    requires digits != [] && Decimal.AllDigits(digits)
    ensures Truthy(Text(digits))
    ensures TextNumber(Text(digits)) == Finite(Decimal.DigitsValue(digits) as real)
    ensures ParseIntField(Text(digits)) == Some(Decimal.DigitsValue(digits))
  {
    StringToNumberOfDigits(digits);
    assert digits + [] == digits;
    ParseIntStopsAtNonDigit(digits, []);
  }

  /**
   * The axis check compares the text as a number, while the payload keeps its
   * leading integer: an axis typed as `200x` is not a number to the check, so
   * it passes, and is stored as 200.
   */
  lemma AxisTextSlipsThrough(state: FormState)
    requires state.od.axis == Text("200x") && !AxisOutOfRange(state.os.axis)
    ensures Validate(state) == Valid
    ensures GetPayload(state).od.axis == Some(200)
  {
    Axis200xNaN();
    Axis200xParse();
  }

  /** The text `200x` is NaN to the comparison. */
  lemma Axis200xNaN()
    ensures TextNumber(Text("200x")) == NaN
  {
    var d := Numeral200();
    assert d + ['x'] == "200x";
    StringToNumberOfDigitsAndLetter(d, 'x');
  }

  /** The text `200x` is 200 to `parseInt`. */
  lemma Axis200xParse()
    ensures ParseIntField(Text("200x")) == Some(200)
  {
    var d := Numeral200();
    assert d + "x" == "200x";
    ParseIntStopsAtNonDigit(d, "x");
  }

  lemma Numeral200() returns (d: string)
    ensures d == "200" && Decimal.AllDigits(d) && Decimal.DigitsValue(d) == 200
  {
    d := "200";
    assert d[..2] == "20" && "20"[..1] == "2" && "2"[..0] == "";
  }

  // ---------------------------------------------------------------------
  // confirm / cancel
  // ---------------------------------------------------------------------

  /** The value the popup is closed with. */
  datatype CloseResult = CloseResult(confirmed: bool, payload: Option<Payload>)

  class OpticalTestPopup {
    var state: FormState
    /** The value passed to `props.close`, once closed. */
    var closedWith: Option<CloseResult>
    /** The bodies of the error popups shown. */
    var errors: seq<string>

    constructor ()
      ensures state == InitialState && closedWith.None? && errors == []
    {
      state := InitialState;
      closedWith := None;
      errors := [];
    }

    /** `confirm`: an error popup when validation fails, otherwise close with the payload. */
    method Confirm()
      modifies this
      ensures state == old(state)
      ensures Validate(state) == Valid ==>
        closedWith == Some(CloseResult(true, Some(GetPayload(state)))) && errors == old(errors)
      ensures Validate(state).Invalid? ==>
        closedWith == old(closedWith) && errors == old(errors) + [Message(Validate(state).error)]
    {
      var validation := Validate(state);
      if validation.Invalid? {
        errors := errors + [Message(validation.error)];
        return;
      }
      var payload := GetPayload(state);
      closedWith := Some(CloseResult(true, Some(payload)));
    }

    /** `cancel`: close unconfirmed with a null payload. */
    method Cancel()
      modifies this
      ensures state == old(state) && errors == old(errors)
      ensures closedWith == Some(CloseResult(false, None))
    {
      closedWith := Some(CloseResult(false, None));
    }
  }
}
