/**
 * The JavaScript values the point-of-sale client handles, with the three
 * conversions the client code relies on: truthiness (and `a || b`), the
 * string-to-number conversion behind `<` and `>` against a number
 * (ECMAScript section 7.1.4.1.1, StringToNumber), and `parseInt(s, 10)`
 * (ECMAScript section 19.2.5).
 */
module JsValues {
  import opened Wrappers
  import Decimal

  /**
   * A client value. Numbers are those the client holds as integers (record
   * ids, amounts in minor units); objects are dictionaries of fields.
   */
  datatype JsValue =
    | Undefined
    | Null
    | Bool(b: bool)
    | Num(n: int)
    | Text(s: string)
    | Obj(fields: map<string, JsValue>)

  /** JavaScript truthiness: undefined, null, false, 0 and "" are false; every object is true. */
  predicate Truthy(v: JsValue)
  {
    match v
    case Undefined => false
    case Null => false
    case Bool(b) => b
    case Num(n) => n != 0
    case Text(s) => s != ""
    case Obj(_) => true
  }

  /** `a || b`: `a` when truthy, otherwise `b`. */
  function Or(a: JsValue, b: JsValue): (r: JsValue)
    ensures Truthy(a) ==> r == a
    ensures !Truthy(a) ==> r == b
  {
    if Truthy(a) then a else b
  }

  /** `o.k` on an object (undefined for a missing key or a non-object). */
  function Field(o: JsValue, k: string): (r: JsValue)
    ensures !o.Obj? ==> r == Undefined
    ensures o.Obj? && k in o.fields ==> r == o.fields[k]
  {
    if o.Obj? && k in o.fields then o.fields[k] else Undefined
  }

  // ---------------------------------------------------------------------
  // White space
  // ---------------------------------------------------------------------

  /** WhiteSpace and LineTerminator code points (ECMAScript sections 12.2 and 12.3). */
  predicate IsJsSpace(c: char)
  {
    var n := c as int;
    || n == 0x09 || n == 0x0A || n == 0x0B || n == 0x0C || n == 0x0D || n == 0x20
    || n == 0xA0 || n == 0x1680 || (0x2000 <= n <= 0x200A) || n == 0x2028 || n == 0x2029
    || n == 0x202F || n == 0x205F || n == 0x3000 || n == 0xFEFF
  }

  /** Drops the leading white space. */
  function TrimStart(s: string): (r: string)
    ensures |r| <= |s| && r == s[|s| - |r|..]
    ensures r != [] ==> !IsJsSpace(r[0])
    ensures forall i :: 0 <= i < |s| - |r| ==> IsJsSpace(s[i])
  {
    if s != [] && IsJsSpace(s[0]) then TrimStart(s[1..]) else s
  }

  /** Drops the trailing white space. */
  function TrimEnd(s: string): (r: string)
    ensures |r| <= |s| && r == s[..|r|]
    ensures r != [] ==> !IsJsSpace(r[|r| - 1])
    ensures forall i :: |r| <= i < |s| ==> IsJsSpace(s[i])
  {
    if s != [] && IsJsSpace(s[|s| - 1]) then TrimEnd(s[..|s| - 1]) else s
  }

  /** `r` is the slice of `s` starting at `i`, with only white space before and after it. */
  predicate SurroundedBySpace(s: string, i: int, r: string)
  {
    && 0 <= i && i + |r| <= |s| && r == s[i..i + |r|]
    && (forall k :: 0 <= k < i ==> IsJsSpace(s[k]))
    && (forall k :: i + |r| <= k < |s| ==> IsJsSpace(s[k]))
  }

  /**
   * `String.prototype.trim`: the input without its surrounding white space.
   * The result is a slice of the input with only white space around it, and
   * it neither starts nor ends with white space.
   */
  function Trim(s: string): (r: string)
    ensures r == [] || (!IsJsSpace(r[0]) && !IsJsSpace(r[|r| - 1]))
    ensures exists i :: SurroundedBySpace(s, i, r)
  {
    TrimSurrounded(s);
    TrimEnd(TrimStart(s))
  }

  /** The leading white space dropped by `TrimStart` and the trailing white space dropped by `TrimEnd` surround the result. */
  lemma TrimSurrounded(s: string)
    ensures SurroundedBySpace(s, |s| - |TrimStart(s)|, TrimEnd(TrimStart(s)))
  {
    var t := TrimStart(s);
    SurroundedBySlices(s, |s| - |t|, t, TrimEnd(t));
  }

  /** A slice of a suffix, with white space before the suffix and after the slice, is surrounded by white space. */
  lemma SurroundedBySlices(s: string, i: int, t: string, r: string)
    requires 0 <= i <= |s| && t == s[i..] && |r| <= |t| && r == t[..|r|]
    requires forall k :: 0 <= k < i ==> IsJsSpace(s[k])
    requires forall k :: |r| <= k < |t| ==> IsJsSpace(t[k])
    ensures SurroundedBySpace(s, i, r)
  {
    assert r == s[i..i + |r|];
    forall k | i + |r| <= k < |s|
      ensures IsJsSpace(s[k])
    {
      assert s[k] == t[k - i];
    }
  }

  // ---------------------------------------------------------------------
  // parseInt(s, 10)
  // ---------------------------------------------------------------------

  /** The longest prefix of decimal digits. */
  function DigitPrefix(s: string): (r: string)
    ensures Decimal.AllDigits(r) && |r| <= |s| && r == s[..|r|]
    ensures |r| < |s| ==> !Decimal.IsDigit(s[|r|])
  {
    if s != [] && Decimal.IsDigit(s[0]) then [s[0]] + DigitPrefix(s[1..]) else []
  }

  /**
   * `parseInt(s, 10)`: leading white space and one sign are skipped, then the
   * longest run of digits is read; None (NaN) when there is none. (`-0` is
   * read as 0.)
   */
  function ParseInt(s: string): (r: Option<int>)
    ensures TrimStart(s) == [] ==> r.None?
    ensures TrimStart(s) != [] && Decimal.IsDigit(TrimStart(s)[0]) ==> r.Some? && r.value >= 0
    ensures TrimStart(s) != [] && !Decimal.IsDigit(TrimStart(s)[0]) && TrimStart(s)[0] != '-' && TrimStart(s)[0] != '+' ==> r.None?
    ensures r.Some? && r.value < 0 ==> TrimStart(s)[0] == '-'
  {
    var t := TrimStart(s);
    var negative := t != [] && t[0] == '-';
    var rest := if t != [] && (t[0] == '-' || t[0] == '+') then t[1..] else t;
    var digits := DigitPrefix(rest);
    var magnitude: int := if digits == [] then 0 else Decimal.DigitsValue(digits);
    if digits == [] then None else Some(if negative then -magnitude else magnitude)
  }

  lemma DigitPrefixOfDigits(s: string, tail: string)
    requires Decimal.AllDigits(s)
    requires tail == [] || !Decimal.IsDigit(tail[0])
    ensures DigitPrefix(s + tail) == s
  {
    if s != [] {
      assert (s + tail)[1..] == s[1..] + tail;
      DigitPrefixOfDigits(s[1..], tail);
    } else {
      assert s + tail == tail;
    }
  }

  /** Reading the numeral of a record id gives the id back. */
  lemma ParseIntOfNumeral(n: nat)
    ensures ParseInt(Decimal.DecimalString(n)) == Some(n)
  {
    var s := Decimal.DecimalString(n);
    assert s + [] == s;
    ParseIntStopsAtNonDigit(s, []);
    Decimal.DigitsValueOfDecimal(n);
  }

  /**
   * A digit run followed by anything that is not a digit is read as the run:
   * `parseInt` stops at the first character that is not a digit.
   */
  lemma ParseIntStopsAtNonDigit(digits: string, tail: string)
    requires digits != [] && Decimal.AllDigits(digits)
    requires tail == [] || !Decimal.IsDigit(tail[0])
    ensures ParseInt(digits + tail) == Some(Decimal.DigitsValue(digits))
  {
    var s := digits + tail;
    assert s[0] == digits[0];
    assert Decimal.IsDigit(s[0]) && !IsJsSpace(s[0]);
    assert TrimStart(s) == s;
    assert !(s[0] == '-' || s[0] == '+');
    DigitPrefixOfDigits(digits, tail);
    assert DigitPrefix(s) == digits;
  }

  /** Text with no digit after the white space and sign is not a number. */
  lemma ParseIntNone(s: string)
    ensures ParseInt(s).None? <==>
      var t := TrimStart(s);
      var rest := if t != [] && (t[0] == '-' || t[0] == '+') then t[1..] else t;
      rest == [] || !Decimal.IsDigit(rest[0])
  {
  }

  // ---------------------------------------------------------------------
  // StringToNumber
  // ---------------------------------------------------------------------

  /** A JavaScript number as far as the client's comparisons need it. */
  datatype JsNumber = NaN | Finite(r: real) | Infinite(positive: bool)

  /** `x < y` on numbers (false whenever NaN is involved). */
  predicate Less(x: JsNumber, y: JsNumber)
  {
    match (x, y)
    case (Finite(a), Finite(b)) => a < b
    case (Infinite(p), Finite(_)) => !p
    case (Finite(_), Infinite(q)) => q
    case (Infinite(p), Infinite(q)) => !p && q
    case _ => false
  }

  function Pow10(k: nat): (r: real)
    ensures r >= 1.0
  {
    if k == 0 then 1.0 else 10.0 * Pow10(k - 1)
  }

  predicate IsRadixDigit(c: char, radix: nat)
  {
    DigitOf(c) < radix
  }

  /** The value of a digit in bases up to 16 (16 for anything else). */
  function DigitOf(c: char): nat
  {
    if '0' <= c <= '9' then c as int - '0' as int
    else if 'a' <= c <= 'f' then c as int - 'a' as int + 10
    else if 'A' <= c <= 'F' then c as int - 'A' as int + 10
    else 16
  }

  predicate AllRadixDigits(s: string, radix: nat)
  {
    forall i :: 0 <= i < |s| ==> IsRadixDigit(s[i], radix)
  }

  function RadixValue(s: string, radix: nat): nat
  {
    if s == [] then 0 else radix * RadixValue(s[..|s| - 1], radix) + DigitOf(s[|s| - 1])
  }

  /** The value of `d1.d2` for digit strings `d1`, `d2`. */
  function MantissaValue(d1: string, d2: string): real
    requires Decimal.AllDigits(d1) && Decimal.AllDigits(d2)
  {
    Decimal.DigitsValue(d1) as real + Decimal.DigitsValue(d2) as real / Pow10(|d2|)
  }

  /** `m * 10^e`. */
  function Scale(m: real, e: int): real
  {
    if e >= 0 then m * Pow10(e) else m / Pow10(-e)
  }

  /** The index of the first character satisfying `p`, or `|s|`. */
  function FindChar(s: string, c1: char, c2: char): (i: nat)
    ensures i <= |s|
    ensures forall j :: 0 <= j < i ==> s[j] != c1 && s[j] != c2
    ensures i < |s| ==> s[i] == c1 || s[i] == c2
  {
    if s == [] then 0
    else if s[0] == c1 || s[0] == c2 then 0
    else 1 + FindChar(s[1..], c1, c2)
  }

  /** An exponent `[+|-]digits`, or None when malformed. */
  function ExponentValue(s: string): Option<int>
  {
    var negative := s != [] && s[0] == '-';
    var digits := if s != [] && (s[0] == '-' || s[0] == '+') then s[1..] else s;
    if digits == [] || !Decimal.AllDigits(digits) then None
    else
      var magnitude: int := Decimal.DigitsValue(digits);
      Some(if negative then -magnitude else magnitude)
  }

  /** A mantissa `d1[.d2]` with `d1` or `d2` non-empty, or None when malformed. */
  function MantissaNumber(m: string): Option<real>
  {
    var dot := FindChar(m, '.', '.');
    var d1 := m[..dot];
    var d2 := if dot < |m| then m[dot + 1..] else [];
    if (d1 == [] && d2 == []) || !Decimal.AllDigits(d1) || !Decimal.AllDigits(d2) then None
    else Some(MantissaValue(d1, d2))
  }

  /** An unsigned decimal literal: a mantissa and an optional `(e|E)exp`. */
  function UnsignedDecimal(s: string): JsNumber
  {
    var e := FindChar(s, 'e', 'E');
    var exponent := if e < |s| then ExponentValue(s[e + 1..]) else Some(0);
    var mantissa := MantissaNumber(s[..e]);
    if exponent.None? || mantissa.None? then NaN else Finite(Scale(mantissa.value, exponent.value))
  }

  function Negate(x: JsNumber): JsNumber
  {
    match x
    case NaN => NaN
    case Finite(r) => Finite(-r)
    case Infinite(p) => Infinite(!p)
  }

  /** The letter after `0` in a hexadecimal, octal or binary literal. */
  predicate IsRadixMark(c: char)
  {
    c == 'x' || c == 'X' || c == 'o' || c == 'O' || c == 'b' || c == 'B'
  }

  /** StringToNumber: the trimmed text as a numeric literal, 0 when empty, NaN otherwise. */
  function StringToNumber(s: string): JsNumber
  {
    var t := Trim(s);
    if t == [] then Finite(0.0)
    else if |t| > 2 && t[0] == '0' && IsRadixMark(t[1]) then
      var radix := if t[1] == 'x' || t[1] == 'X' then 16 else if t[1] == 'o' || t[1] == 'O' then 8 else 2;
      if AllRadixDigits(t[2..], radix) then Finite(RadixValue(t[2..], radix) as real) else NaN
    else
      var negative := t[0] == '-';
      var body := if t[0] == '-' || t[0] == '+' then t[1..] else t;
      var magnitude := if body == "Infinity" then Infinite(true) else UnsignedDecimal(body);
      if negative then Negate(magnitude) else magnitude
  }

  /**
   * Trimming is determined by its contract: any slice with only white space
   * around it that neither starts nor ends with white space is `Trim(s)`.
   */
  lemma TrimCharacterised(s: string, i: int, r: string)
    requires SurroundedBySpace(s, i, r)
    requires r == [] || (!IsJsSpace(r[0]) && !IsJsSpace(r[|r| - 1]))
    ensures r == Trim(s)
  {
    var t := Trim(s);
    var j :| SurroundedBySpace(s, j, t);
    if r != [] {
      assert s[i] == r[0] && s[i + |r| - 1] == r[|r| - 1];
    }
    if t != [] {
      assert s[j] == t[0] && s[j + |t| - 1] == t[|t| - 1];
    }
  }

  /** Text that starts and ends with a character other than white space is its own trim. */
  lemma TrimUnchanged(s: string)
    requires s != [] && !IsJsSpace(s[0]) && !IsJsSpace(s[|s| - 1])
    ensures Trim(s) == s
  {
    assert TrimStart(s) == s;
    assert TrimEnd(s) == s;
  }

  /** Without a point, a mantissa is a plain numeral or malformed. */
  lemma MantissaPlain(m: string)
    requires m != []
    requires forall j :: 0 <= j < |m| ==> m[j] != '.'
    ensures MantissaNumber(m) == (if Decimal.AllDigits(m) then Some(Decimal.DigitsValue(m) as real) else None)
  {
    var dot := FindChar(m, '.', '.');
    assert dot == |m|;
    assert m[..dot] == m;
    if Decimal.AllDigits(m) {
      MantissaWithoutFraction(m);
    }
  }

  lemma MantissaWithoutFraction(d1: string)
    requires Decimal.AllDigits(d1)
    ensures MantissaValue(d1, []) == Decimal.DigitsValue(d1) as real
  {
    var empty: string := [];
    assert Decimal.DigitsValue(empty) == 0;
    assert Pow10(|empty|) == 1.0;
  }

  /** Without exponent and point, an unsigned literal is a plain numeral or not a number. */
  lemma UnsignedDecimalPlain(s: string)
    requires s != []
    requires forall j :: 0 <= j < |s| ==> s[j] != 'e' && s[j] != 'E' && s[j] != '.'
    ensures UnsignedDecimal(s) == (if Decimal.AllDigits(s) then Finite(Decimal.DigitsValue(s) as real) else NaN)
  {
    var e := FindChar(s, 'e', 'E');
    assert e == |s|;
    assert s[..e] == s;
    MantissaPlain(s);
    if Decimal.AllDigits(s) {
      var m := Decimal.DigitsValue(s) as real;
      assert MantissaNumber(s) == Some(m);
      ScaleByZero(m);
      assert UnsignedDecimal(s) == Finite(Scale(m, 0));
    } else {
      assert MantissaNumber(s).None?;
    }
  }

  lemma ScaleByZero(m: real)
    ensures Scale(m, 0) == m
  {
    assert Pow10(0) == 1.0;
  }

  /** Text that starts with a digit and holds no `e`, `E` or `.` is read as a decimal numeral. */
  lemma StringToNumberOfPlain(s: string)
    requires s != [] && Decimal.IsDigit(s[0]) && !IsJsSpace(s[|s| - 1])
    requires forall j :: 0 <= j < |s| ==> s[j] != 'e' && s[j] != 'E' && s[j] != '.'
    requires |s| > 1 ==> !IsRadixMark(s[1])
    ensures StringToNumber(s) == (if Decimal.AllDigits(s) then Finite(Decimal.DigitsValue(s) as real) else NaN)
  {
    TrimUnchanged(s);
    assert s != "Infinity" by {
      assert "Infinity"[0] == 'I';
    }
    UnsignedDecimalPlain(s);
  }

  /** A plain numeral is converted to its value. */
  lemma StringToNumberOfDigits(s: string)
    requires s != [] && Decimal.AllDigits(s)
    ensures StringToNumber(s) == Finite(Decimal.DigitsValue(s) as real)
  {
    StringToNumberOfPlain(s);
  }

  /** A numeral followed by a letter past `f` (other than `o` and `x`) is not a number to StringToNumber. */
  lemma StringToNumberOfDigitsAndLetter(d: string, c: char)
    requires d != [] && Decimal.AllDigits(d)
    requires 'f' < c <= 'z' && (|d| == 1 ==> c != 'o' && c != 'x')
    ensures StringToNumber(d + [c]) == NaN
  {
    var s := d + [c];
    forall j | 0 <= j < |s|
      ensures s[j] != 'e' && s[j] != 'E' && s[j] != '.'
    {
      if j < |d| {
        assert s[j] == d[j];
      }
    }
    assert s[0] == d[0];
    assert s[|s| - 1] == c;
    if |d| > 1 {
      assert s[1] == d[1];
    }
    assert !Decimal.AllDigits(s) by {
      assert !Decimal.IsDigit(s[|d|]);
    }
    StringToNumberOfPlain(s);
  }
}
