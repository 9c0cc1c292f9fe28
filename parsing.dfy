/**
 The two ways the screen turns a text field into a number: JavaScript's
 `parseFloat` (the longest numeric prefix after leading white space) and the
 `Number` coercion a relational comparison such as `majorCons > 0` applies to a
 string (the whole trimmed string must be a numeric literal, and a blank
 string is 0). Numbers are exact reals; a JavaScript NaN is `None`.
 */
module Parsing {

  datatype Option<+T> = None | Some(value: T) {
    /** The value, or `default` when there is none (JavaScript's `x || 0` for a parse result). */
    function GetOr(default: T): T {
      match this
      case Some(v) => v
      case None => default
    }
  }

  /** The white space ECMAScript trims in front of a numeric string (the ASCII
      set, no-break space, line and paragraph separators and the byte order mark). */
  predicate IsSpace(c: char) {
    c == ' ' || c == '\t' || c == '\n' || c == '\r' || c == '\U{B}' || c == '\U{C}'
    || c == '\U{A0}' || c == '\U{2028}' || c == '\U{2029}' || c == '\U{FEFF}'
  }

  predicate IsDigit(c: char) {
    '0' <= c <= '9'
  }

  predicate AllDigits(s: string) {
    forall i :: 0 <= i < |s| ==> IsDigit(s[i])
  }

  predicate AllSpace(s: string) {
    forall i :: 0 <= i < |s| ==> IsSpace(s[i])
  }

  function DigitValue(c: char): nat {
    if IsDigit(c) then c as int - '0' as int else 0
  }

  /** `s` without its leading white space. */
  function TrimStart(s: string): (t: string)
    ensures |t| <= |s|
    ensures t == [] || !IsSpace(t[0])
  {
    if s != [] && IsSpace(s[0]) then TrimStart(s[1..]) else s
  }

  /** The length of the run of decimal digits at the front of `s`. */
  function DigitRun(s: string): (n: nat)
    ensures n <= |s|
  {
    if s != [] && IsDigit(s[0]) then 1 + DigitRun(s[1..]) else 0
  }

  /** The value of a run of decimal digits read as an integer. */
  function IntValue(d: string): nat {
    if d == [] then 0 else IntValue(d[..|d| - 1]) * 10 + DigitValue(d[|d| - 1])
  }

  /** The value of a run of decimal digits read as the digits after a decimal point. */
  function FracValue(d: string): real {
    if d == [] then 0.0 else (DigitValue(d[0]) as real + FracValue(d[1..])) / 10.0
  }

  /** `v` times ten to the power `x`, one factor of ten at a time. */
  function ScaleBy(v: real, x: int): real
    decreases if x >= 0 then x else -x
  {
    if x == 0 then v else if x > 0 then ScaleBy(v * 10.0, x - 1) else ScaleBy(v / 10.0, x + 1)
  }

  /** A numeric literal found at the front of a string: its value and how many characters it spans. */
  datatype Scan = Scan(value: real, length: nat)

  /** The exponent part (`e`/`E`, an optional sign, at least one digit) at the
      front of `t`, as the exponent and the number of characters it spans. */
  function ScanExponent(t: string): (r: Option<(int, nat)>)
    ensures r.Some? ==> 2 <= r.value.1 <= |t|
  {
    if t != [] && (t[0] == 'e' || t[0] == 'E') then
      var signed := |t| > 1 && (t[1] == '+' || t[1] == '-');
      var start := if signed then 2 else 1;
      var k := DigitRun(t[start..]);
      if k == 0 then None
      else
        var magnitude: int := IntValue(t[start..][..k]);
        Some((if signed && t[1] == '-' then -magnitude else magnitude, start + k))
    else None
  }

  /** The longest literal without sign and exponent (`digits`, `digits.`,
      `digits.digits` or `.digits`) at the front of `s`. */
  function ScanMantissa(s: string): (r: Option<Scan>)
    ensures r.Some? ==> 1 <= r.value.length <= |s|
  {
    var i := DigitRun(s);
    var dotted := i < |s| && s[i] == '.';
    var f := if dotted then DigitRun(s[i + 1..]) else 0;
    if i == 0 && f == 0 then None
    else if dotted then
      Some(Scan(IntValue(s[..i]) as real + FracValue(s[i + 1..][..f]), i + 1 + f))
    else
      Some(Scan(IntValue(s[..i]) as real, i))
  }

  /** The longest unsigned decimal literal, a mantissa with an optional
      exponent part, at the front of `s`. */
  function ScanUnsigned(s: string): (r: Option<Scan>)
    ensures r.Some? ==> 1 <= r.value.length <= |s|
  {
    match ScanMantissa(s)
    case None => None
    case Some(m) =>
      match ScanExponent(s[m.length..])
      case None => Some(m)
      case Some(e) => Some(Scan(ScaleBy(m.value, e.0), m.length + e.1))
  }

  /** An unsigned literal, optionally preceded by `+` or `-`. */
  function ScanSigned(s: string): (r: Option<Scan>)
    ensures r.Some? ==> 1 <= r.value.length <= |s|
  {
    if s != [] && (s[0] == '+' || s[0] == '-') then
      match ScanUnsigned(s[1..])
      case None => None
      case Some(sc) => Some(Scan(if s[0] == '-' then -sc.value else sc.value, sc.length + 1))
    else ScanUnsigned(s)
  }

  /** JavaScript's `parseFloat` on a string: `None` stands for NaN. A number is
      found only when the first character after the white space can start a
      literal (a digit, a sign or a decimal point). */
  function ParseFloat(s: string): (r: Option<real>)
    ensures r.Some? ==> TrimStart(s) != [] && (IsDigit(TrimStart(s)[0]) || TrimStart(s)[0] in "+-.")
  {
    match ScanSigned(TrimStart(s))
    case None => None
    case Some(sc) => Some(sc.value)
  }

  /** JavaScript's `Number(s)` for a string: a blank string is 0; otherwise the
      string, without surrounding white space, must be one numeric literal,
      and then it is the number `parseFloat` reads. */
  function ToNumber(s: string): (r: Option<real>)
    ensures TrimStart(s) == [] ==> r == Some(0.0)
    ensures r.Some? && TrimStart(s) != [] ==> r == ParseFloat(s)
  {
    var t := TrimStart(s);
    if t == [] then Some(0.0)
    else
      match ScanSigned(t)
      case Some(sc) => if AllSpace(t[sc.length..]) then Some(sc.value) else None
      case None => None
  }

  /** An empty field is NaN for `parseFloat` but 0 for `Number`. */
  lemma EmptyField()
    ensures ParseFloat("") == None
    ensures ToNumber("") == Some(0.0)
  {
  }

  /** `Number` is the strict reading of `parseFloat`: the two part ways only
      when something other than white space follows the literal `parseFloat`
      found. */
  lemma StrictAgreesWithPrefix(s: string)
    ensures ParseFloat(s).Some? && ToNumber(s).None? ==>
              !AllSpace(TrimStart(s)[ScanSigned(TrimStart(s)).value.length..])
  {
  }

  /** A string `Number` reads as positive is read the same by `parseFloat`. */
  lemma PositiveNumberParses(s: string)
    ensures ToNumber(s).Some? && ToNumber(s).value > 0.0 ==> ParseFloat(s) == ToNumber(s)
  {
  }

  lemma {:induction false} DigitRunAll(d: string)
    requires AllDigits(d)
    ensures DigitRun(d) == |d|
  {
    if d != [] {
      DigitRunAll(d[1..]);
    }
  }

  /** A non-empty string of digits (what a numeric keypad types for a whole
      number) reads as its decimal value under both conversions. */
  lemma WholeNumber(d: string)
    requires d != [] && AllDigits(d)
    ensures ParseFloat(d) == Some(IntValue(d) as real)
    ensures ToNumber(d) == Some(IntValue(d) as real)
  {
    DigitRunAll(d);
    assert TrimStart(d) == d;
    assert d[..|d|] == d;
    assert d[|d|..] == [];
  }

  /** Whatever follows a literal that ends in a character that cannot continue
      it is ignored by `parseFloat`: "12abc" reads as 12, as does "12". */
  lemma {:induction false} TrailingTextIgnored(d: string, rest: string)
    requires d != [] && AllDigits(d)
    requires rest == [] || (!IsDigit(rest[0]) && rest[0] != '.' && rest[0] != 'e' && rest[0] != 'E')
    ensures ParseFloat(d + rest) == Some(IntValue(d) as real)
  {
    var s := d + rest;
    assert s[0] == d[0];
    assert TrimStart(s) == s;
    assert s[..|d|] == d;
    DigitRunPrefix(d, rest);
    assert s[|d|..] == rest;
  }

  lemma {:induction false} DigitRunPrefix(d: string, rest: string)
    requires AllDigits(d)
    requires rest == [] || !IsDigit(rest[0])
    ensures DigitRun(d + rest) == |d|
  {
    if d == [] {
      assert d + rest == rest;
    } else {
      assert (d + rest)[1..] == d[1..] + rest;
      DigitRunPrefix(d[1..], rest);
    }
  }
}
