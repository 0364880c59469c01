/** The untyped values the pipeline receives from outside: JSON as produced
    by `JSON.parse`, JavaScript truthiness, property reads, and the `Number()`
    conversion, all written out explicitly. */
module JsValues {
  import opened Wrappers

  /** A JSON value. Objects are maps, so a repeated key keeps its last value,
      as `JSON.parse` does. */
  datatype Json =
    | JNull
    | JBool(b: bool)
    | JNum(n: real)
    | JStr(s: string)
    | JArr(items: seq<Json>)
    | JObj(fields: map<string, Json>)

  /** A JavaScript number: NaN or a finite value. */
  datatype JsNumber = NaN | Num(value: real)

  /** The message of the TypeError thrown by reading a property of null. */
  function NullRead(key: string): string {
    "Cannot read properties of null (reading '" + key + "')"
  }

  /** `v.key` on a value that is not null; None stands for `undefined`.
      Only an object's own keys are visible: none of the keys this code
      reads is inherited by strings, numbers, booleans or arrays. */
  function Prop(v: Json, key: string): (r: Option<Json>)
    requires !v.JNull?
    ensures r.Some? <==> v.JObj? && key in v.fields
    ensures r.Some? ==> r.value == v.fields[key]
  {
    if v.JObj? && key in v.fields then Some(v.fields[key]) else None
  }

  /** `v.key` on any JSON value: reading from null throws. */
  function Get(v: Json, key: string): (r: Result<Option<Json>, string>)
    ensures r.Failure? <==> v.JNull?
    ensures r.Failure? ==> r.error == NullRead(key)
    ensures r.Success? ==> r.value == Prop(v, key)
  {
    if v.JNull? then Failure(NullRead(key)) else Success(Prop(v, key))
  }

  /** JavaScript truthiness of a possibly undefined value. */
  predicate Truthy(v: Option<Json>) {
    match v
    case None => false
    case Some(j) =>
      match j
      case JNull => false
      case JBool(b) => b
      case JNum(n) => n != 0.0
      case JStr(s) => s != ""
      case JArr(_) => true
      case JObj(_) => true
  }

  /** `v || default`. */
  function Or(v: Option<Json>, default: Json): Json {
    if Truthy(v) then v.value else default
  }

  /** `Array.isArray(v)`. */
  predicate IsArray(v: Option<Json>) {
    v.Some? && v.value.JArr?
  }

  /** `Number(v)`. An array converts through its comma-joined text, so only
      an empty or one-element array can give a number. An object converts
      through "[object Object]" and gives NaN. */
  function ToNumber(v: Json): JsNumber {
    match v
    case JNull => Num(0.0)
    case JBool(b) => if b then Num(1.0) else Num(0.0)
    case JNum(n) => Num(n)
    case JStr(s) => StringToNumber(s)
    case JArr(xs) =>
      if |xs| == 0 then Num(0.0)
      else if |xs| > 1 then NaN
      else (
        match xs[0]
        case JNull => Num(0.0)
        case JBool(_) => NaN
        case JNum(n) => Num(n)
        case JStr(s) => StringToNumber(s)
        case JArr(_) => ToNumber(xs[0])
        case JObj(_) => NaN)
    case JObj(_) => NaN
  }

  /** `Number(v)` where `v` may be undefined. */
  function NumberOf(v: Option<Json>): JsNumber {
    match v
    case None => NaN
    case Some(j) => ToNumber(j)
  }

  /** `Number(v) || 0`: the number when it is nonzero, otherwise 0. */
  function NumberOrZero(v: Option<Json>): (r: real)
    ensures r != 0.0 <==> NumberOf(v).Num? && NumberOf(v).value != 0.0
    ensures r != 0.0 ==> NumberOf(v) == Num(r)
  {
    match NumberOf(v)
    case NaN => 0.0
    case Num(x) => x
  }

  // ---------------------------------------------------------------------
  // String to number conversion (the StringNumericLiteral grammar of
  // ECMAScript, section 7.1.4.1 of ECMA-262), without "Infinity".
  // ---------------------------------------------------------------------

  /** ECMAScript white space and line terminators. */
  predicate IsWhitespace(c: char) {
    var k := c as int;
    || k == 0x09 || k == 0x0A || k == 0x0B || k == 0x0C || k == 0x0D
    || k == 0x20 || k == 0xA0 || k == 0x1680 || 0x2000 <= k <= 0x200A
    || k == 0x2028 || k == 0x2029 || k == 0x202F || k == 0x205F
    || k == 0x3000 || k == 0xFEFF
  }

  function TrimStart(s: string): (r: string)
    ensures |r| <= |s|
    ensures |r| > 0 ==> !IsWhitespace(r[0])
  {
    if |s| > 0 && IsWhitespace(s[0]) then TrimStart(s[1..]) else s
  }

  function TrimEnd(s: string): (r: string)
    ensures |r| <= |s|
    ensures |r| > 0 ==> !IsWhitespace(r[|r| - 1])
  {
    if |s| > 0 && IsWhitespace(s[|s| - 1]) then TrimEnd(s[..|s| - 1]) else s
  }

  /** The value of one digit in the given radix, if it is one. */
  function DigitValue(c: char, radix: nat): Option<nat> {
    var d :=
      if '0' <= c <= '9' then c as int - '0' as int
      else if 'a' <= c <= 'z' then c as int - 'a' as int + 10
      else if 'A' <= c <= 'Z' then c as int - 'A' as int + 10
      else 36;
    if d < radix then Some(d) else None
  }

  predicate AllDigits(s: string, radix: nat) {
    forall i :: 0 <= i < |s| ==> DigitValue(s[i], radix).Some?
  }

  function DigitsValue(s: string, radix: nat): nat
    requires AllDigits(s, radix)
  {
    if |s| == 0 then 0
    else DigitsValue(s[..|s| - 1], radix) * radix + DigitValue(s[|s| - 1], radix).value
  }

  function Pow10(e: int): real
    decreases if e < 0 then -e else e
  {
    if e == 0 then 1.0
    else if e > 0 then 10.0 * Pow10(e - 1)
    else Pow10(e + 1) / 10.0
  }

  /** Index of the first character of `s` that is in `cs`, or |s|. */
  function IndexOfAny(s: string, cs: string): (k: nat)
    ensures k <= |s|
    ensures k < |s| ==> s[k] in cs
  {
    if |s| == 0 then 0
    else if s[0] in cs then 0
    else 1 + IndexOfAny(s[1..], cs)
  }

  /** An exponent: an optional sign followed by at least one decimal digit. */
  function ExponentValue(t: string): Option<int> {
    if |t| > 0 && (t[0] == '+' || t[0] == '-') then
      var digits := t[1..];
      if |digits| > 0 && AllDigits(digits, 10) then
        var magnitude: int := DigitsValue(digits, 10);
        Some(if t[0] == '-' then -magnitude else magnitude)
      else None
    else if |t| > 0 && AllDigits(t, 10) then Some(DigitsValue(t, 10))
    else None
  }

  /** An unsigned decimal literal: digits, an optional fraction and an
      optional exponent, with at least one digit before the exponent. */
  function UnsignedDecimal(t: string): JsNumber {
    var e := IndexOfAny(t, "eE");
    var mantissa := t[..e];
    var dot := IndexOfAny(mantissa, ".");
    var whole := mantissa[..dot];
    var frac := if dot < |mantissa| then mantissa[dot + 1..] else "";
    var exponent := if e < |t| then ExponentValue(t[e + 1..]) else Some(0);
    if |whole| + |frac| == 0 || !AllDigits(whole, 10) || !AllDigits(frac, 10) || exponent.None? then NaN
    else
      assert AllDigits(whole + frac, 10);
      Num(DigitsValue(whole + frac, 10) as real * Pow10(exponent.value - |frac|))
  }

  function Negate(x: JsNumber): JsNumber {
    match x
    case NaN => NaN
    case Num(a) => Num(-a)
  }

  /** `Number(s)` for a string: surrounding white space is ignored, the
      empty string is 0, and a literal may be a signed decimal or an
      unsigned 0x/0o/0b integer. */
  function StringToNumber(s: string): JsNumber {
    var t := TrimEnd(TrimStart(s));
    if t == "" then Num(0.0)
    else if |t| >= 2 && t[0] == '0' && t[1] in "xXoObB" then
      var radix := if t[1] in "xX" then 16 else if t[1] in "oO" then 8 else 2;
      var digits := t[2..];
      if |digits| > 0 && AllDigits(digits, radix) then Num(DigitsValue(digits, radix) as real) else NaN
    else if t[0] == '-' then Negate(UnsignedDecimal(t[1..]))
    else if t[0] == '+' then UnsignedDecimal(t[1..])
    else UnsignedDecimal(t)
  }

  /** A plain run of decimal digits converts to the integer it spells,
      leading zeros included. */
  lemma DecimalDigitsConvert(s: string)
    requires |s| > 0 && AllDigits(s, 10)
    ensures StringToNumber(s) == Num(DigitsValue(s, 10) as real)
  {
    DigitsAreTrimmed(s);
    DigitsHaveNoPrefix(s);
    UnprefixedIsDecimal(s);
    UnsignedDigits(s);
  }

  /** A digit string starts with no sign and no radix prefix. */
  lemma DigitsHaveNoPrefix(s: string)
    requires |s| > 0 && AllDigits(s, 10)
    ensures s[0] != '-' && s[0] != '+'
    ensures !(|s| >= 2 && s[0] == '0' && s[1] in "xXoObB")
  {
    assert DigitValue(s[0], 10).Some?;
    assert |s| >= 2 ==> DigitValue(s[1], 10).Some?;
  }

  /** Already trimmed text with no sign and no radix prefix is read as an
      unsigned decimal literal. */
  lemma UnprefixedIsDecimal(s: string)
    requires |s| > 0 && TrimEnd(TrimStart(s)) == s
    requires s[0] != '-' && s[0] != '+'
    requires !(|s| >= 2 && s[0] == '0' && s[1] in "xXoObB")
    ensures StringToNumber(s) == UnsignedDecimal(s)
  {
  }

  /** Digits are not white space, so trimming leaves a digit string alone. */
  lemma DigitsAreTrimmed(s: string)
    requires |s| > 0 && AllDigits(s, 10)
    ensures TrimEnd(TrimStart(s)) == s
  {
    assert DigitValue(s[0], 10).Some?;
    assert TrimStart(s) == s;
    assert DigitValue(s[|s| - 1], 10).Some?;
  }

  lemma UnsignedDigits(t: string)
    requires |t| > 0 && AllDigits(t, 10)
    ensures UnsignedDecimal(t) == Num(DigitsValue(t, 10) as real)
  {
    NoneOfDigits(t, "eE");
    assert t[..|t|] == t;
    NoneOfDigits(t, ".");
    assert t + "" == t;
    assert Pow10(0 - |""|) == 1.0;
  }

  /** A digit string holds no exponent marker and no decimal point. */
  lemma NoneOfDigits(t: string, cs: string)
    requires AllDigits(t, 10)
    requires forall c :: c in cs ==> DigitValue(c, 10).None?
    ensures IndexOfAny(t, cs) == |t|
  {
    if IndexOfAny(t, cs) < |t| {
      assert DigitValue(t[IndexOfAny(t, cs)], 10).Some?;
    }
  }

  /** White space around a literal is ignored, and so is the empty string's
      lack of digits: blank text converts to 0. */
  lemma BlankIsZero(s: string)
    requires forall i :: 0 <= i < |s| ==> IsWhitespace(s[i])
    ensures StringToNumber(s) == Num(0.0)
  {
    TrimStartBlank(s);
  }

  lemma TrimStartBlank(s: string)
    requires forall i :: 0 <= i < |s| ==> IsWhitespace(s[i])
    ensures TrimStart(s) == ""
  {
    if |s| > 0 {
      TrimStartBlank(s[1..]);
    }
  }
}
