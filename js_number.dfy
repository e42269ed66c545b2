/**
 * JavaScript numbers as far as the forms use them: the results of
 * `parseInt` and `parseFloat` (without a radix argument), the comparisons
 * `<` and `<=` against a constant, and how `JSON.stringify` writes them.
 * Finite values are exact reals: binary rounding is not modelled.
 */
module JsNumber {
  import opened Wrappers
  import opened JsString

  datatype Number = NaN | Finite(value: real) | Infinity(negative: bool)

  /** `n <= k`: false for NaN, as every comparison with NaN is. */
  predicate AtMost(n: Number, k: real) {
    match n
    case NaN => false
    case Finite(v) => v <= k
    case Infinity(negative) => negative
  }

  /** `n < k`: false for NaN. */
  predicate LessThan(n: Number, k: real) {
    match n
    case NaN => false
    case Finite(v) => v < k
    case Infinity(negative) => negative
  }

  /** `JSON.stringify` writes NaN and both infinities as `null`. */
  function ToJson(n: Number): Option<real> {
    if n.Finite? then Some(n.value) else None
  }

  predicate IsHexDigit(c: char) {
    IsDigit(c) || 'a' <= c <= 'f' || 'A' <= c <= 'F'
  }

  predicate IsRadixDigit(c: char, hex: bool) {
    if hex then IsHexDigit(c) else IsDigit(c)
  }

  function DigitValue(c: char): (d: nat)
    ensures IsHexDigit(c) ==> d < 16
    ensures IsDigit(c) ==> d < 10
  {
    if IsDigit(c) then c as int - '0' as int
    else if 'a' <= c <= 'f' then c as int - 'a' as int + 10
    else if 'A' <= c <= 'F' then c as int - 'A' as int + 10
    else 0
  }

  /** The longest prefix of `s` made of digits of the radix. */
  function DigitRun(s: string, hex: bool): (r: string)
    ensures r <= s
  {
    if s != [] && IsRadixDigit(s[0], hex) then [s[0]] + DigitRun(s[1..], hex) else []
  }

  /** A run of digits is its own longest digit prefix. */
  lemma {:induction false} DigitRunOfDigits(s: string, hex: bool)
    requires forall i :: 0 <= i < |s| ==> IsRadixDigit(s[i], hex)
    ensures DigitRun(s, hex) == s
  {
    if s != [] {
      DigitRunOfDigits(s[1..], hex);
    }
  }

  /** The value of a numeral read most significant digit first. */
  function DigitsValue(ds: string, base: nat): nat {
    if ds == [] then 0 else DigitsValue(ds[..|ds| - 1], base) * base + DigitValue(ds[|ds| - 1])
  }

  function Pow10(e: nat): (p: nat)
    ensures p >= 1
  {
    if e == 0 then 1 else 10 * Pow10(e - 1)
  }

  /** 10 raised to an integer power, exactly. */
  function Scale(e: int): (x: real)
    ensures x > 0.0
  {
    if e >= 0 then Pow10(e) as real else 1.0 / Pow10(-e) as real
  }

  /** The value of a decimal numeral: its digits `ds`, of which the last
      `places` follow the point, times 10 to the power `exponent`. */
  function Decimal(ds: string, places: nat, exponent: int): real {
    DigitsValue(ds, 10) as real / Pow10(places) as real * Scale(exponent)
  }

  /** With no fraction digits and no exponent a numeral is its integer. */
  lemma DecimalOfInteger(ds: string)
    ensures Decimal(ds, 0, 0) == DigitsValue(ds, 10) as real
  {
    assert Pow10(0) == 1;
    assert Scale(0) == 1.0;
  }

  /** Leading whitespace and one sign character stripped: the sign is
      whether a '-' was stripped. */
  function Unsigned(s: string): (string, bool) {
    var t := TrimStart(s);
    if t != [] && (t[0] == '-' || t[0] == '+') then (t[1..], t[0] == '-') else (t, false)
  }

  /** `parseInt(s)`: after leading whitespace and a sign, a "0x"/"0X" prefix
      selects radix 16; the longest run of digits of the radix is read, and
      an empty run gives NaN. */
  function ParseInt(s: string): Number {
    var (u, negative) := Unsigned(s);
    var hex := |u| >= 2 && u[0] == '0' && (u[1] == 'x' || u[1] == 'X');
    var digits := DigitRun(if hex then u[2..] else u, hex);
    if digits == [] then NaN
    else
      var magnitude := DigitsValue(digits, if hex then 16 else 10) as real;
      Finite(if negative then -magnitude else magnitude)
  }

  /** The exponent an `e`/`E` part at the start of `s` denotes (0 when there
      is none, or when no digit follows the letter and its sign). */
  function ExponentOf(s: string): int {
    if s != [] && (s[0] == 'e' || s[0] == 'E') then
      var signed := |s| > 1 && (s[1] == '-' || s[1] == '+');
      var digits := DigitRun(if signed then s[2..] else s[1..], false);
      var e: int := DigitsValue(digits, 10);
      if signed && s[1] == '-' then -e else e
    else 0
  }

  /** The magnitude of the longest prefix of `u` of the form
      digits[.digits][exponent] or .digits[exponent], if there is one. */
  function DecimalPrefixValue(u: string): Option<real> {
    var whole := DigitRun(u, false);
    var rest := u[|whole|..];
    var point := rest != [] && rest[0] == '.';
    var fraction := if point then DigitRun(rest[1..], false) else [];
    if whole == [] && fraction == [] then None
    else
      var tail := if point then rest[1 + |fraction|..] else rest;
      Some(Decimal(whole + fraction, |fraction|, ExponentOf(tail)))
  }

  /** `parseFloat(s)`: after leading whitespace and a sign, "Infinity" or
      the longest decimal prefix; NaN when there is neither. */
  function ParseFloat(s: string): Number {
    var (u, negative) := Unsigned(s);
    if "Infinity" <= u then Infinity(negative)
    else
      match DecimalPrefixValue(u)
      case None => NaN
      case Some(m) => Finite(if negative then -m else m)
  }

  /** The decimal numeral of `n` reads back as `n`. */
  lemma {:induction false} DigitsValueOfNatToString(n: nat)
    ensures DigitsValue(NatToString(n), 10) == n
  {
    var r := NatToString(n);
    if n >= 10 {
      DigitsValueOfNatToString(n / 10);
      assert r[..|r| - 1] == NatToString(n / 10);
    }
  }

  /** Text that starts with a digit has no leading whitespace and no sign. */
  lemma UnsignedOfDigitFirst(s: string)
    requires s != [] && IsDigit(s[0])
    ensures Unsigned(s) == (s, false)
  {
    assert !IsWhitespace(s[0]);
  }

  /** A non-empty run of decimal digits parses with `parseInt` to the
      integer it denotes. */
  lemma ParseIntOfDigits(ds: string)
    requires ds != [] && forall i :: 0 <= i < |ds| ==> IsDigit(ds[i])
    ensures ParseInt(ds) == Finite(DigitsValue(ds, 10) as real)
  {
    UnsignedOfDigitFirst(ds);
    DigitRunOfDigits(ds, false);
  }

  /** A non-empty run of decimal digits parses with `parseFloat` to the
      integer it denotes. */
  lemma ParseFloatOfDigits(ds: string)
    requires ds != [] && forall i :: 0 <= i < |ds| ==> IsDigit(ds[i])
    ensures ParseFloat(ds) == Finite(DigitsValue(ds, 10) as real)
  {
    UnsignedOfDigitFirst(ds);
    NotInfinity(ds);
    DecimalPrefixOfDigits(ds);
  }

  lemma NotInfinity(s: string)
    requires s != [] && s[0] != 'I'
    ensures !("Infinity" <= s)
  {
    assert "Infinity"[0] == 'I';
  }

  lemma DecimalPrefixOfDigits(ds: string)
    requires ds != [] && forall i :: 0 <= i < |ds| ==> IsDigit(ds[i])
    ensures DecimalPrefixValue(ds) == Some(DigitsValue(ds, 10) as real)
  {
    DigitRunOfDigits(ds, false);
    var whole := DigitRun(ds, false);
    assert whole == ds;
    var rest := ds[|whole|..];
    assert rest == [];
    var fraction: string := [];
    assert whole + fraction == ds;
    assert ExponentOf(rest) == 0;
    DecimalOfInteger(ds);
  }

  /** `parseInt(String(n))` gives back the integer `n`: the id a category
      `<option>` carries survives the trip through its string value. */
  lemma ParseIntOfIntToString(n: int)
    ensures ParseInt(IntToString(n)) == Finite(n as real)
  {
    var m := if n < 0 then -n else n;
    var digits := NatToString(m);
    DigitsValueOfNatToString(m);
    DigitRunOfDigits(digits, false);
    if n < 0 {
      var s := "-" + digits;
      assert !IsWhitespace(s[0]);
      assert TrimStart(s) == s;
      assert s[1..] == digits;
      assert Unsigned(s) == (digits, true);
    } else {
      ParseIntOfDigits(digits);
    }
  }

  /** Text whose first character cannot begin a number parses to NaN with
      both parsers: no whitespace, digit, sign, point or 'I' of "Infinity". */
  lemma ParseNonNumeric(s: string)
    requires s != [] && !IsWhitespace(s[0]) && !IsDigit(s[0])
    requires s[0] != '+' && s[0] != '-' && s[0] != '.' && s[0] != 'I'
    ensures ParseInt(s) == NaN && ParseFloat(s) == NaN
  {
    assert TrimStart(s) == s;
    assert Unsigned(s) == (s, false);
  }
}
