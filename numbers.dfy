/** JavaScript's number coercions as the dashboard uses them on form text:
    `Number(s)`, `Number(s) || 0`, `parseFloat(s)`, `n.toString()` and
    `Number(x.toFixed(2))`. Numbers are exact reals; `None` stands for `NaN`. */
module JsNumber {
  import opened Wrappers
  import opened JsText

  predicate IsDigit(c: char) {
    '0' <= c <= '9'
  }

  function DigitValue(c: char): nat
    requires IsDigit(c)
  {
    c as int - '0' as int
  }

  function DigitChar(d: nat): (c: char)
    requires d < 10
    ensures IsDigit(c) && DigitValue(c) == d
  {
    ('0' as int + d) as char
  }

  predicate AllDigits(s: string) {
    forall i :: 0 <= i < |s| ==> IsDigit(s[i])
  }

  /** The value of a run of decimal digits, most significant first. */
  function DigitsValue(s: string): nat
    requires AllDigits(s)
  {
    if s == [] then 0 else DigitsValue(s[..|s| - 1]) * 10 + DigitValue(s[|s| - 1])
  }

  function Pow10(n: nat): (p: nat)
    ensures p >= 1
  {
    if n == 0 then 1 else 10 * Pow10(n - 1)
  }

  /** The end of the run of digits that starts at `i`. */
  function ScanDigits(s: string, i: nat): (j: nat)
    requires i <= |s|
    ensures i <= j <= |s|
    ensures AllDigits(s[i..j])
    ensures j == |s| || !IsDigit(s[j])
    decreases |s| - i
  {
    if i < |s| && IsDigit(s[i]) then
      var j := ScanDigits(s, i + 1);
      assert s[i..j] == [s[i]] + s[i + 1..j];
      j
    else i
  }

  /** An exponent part `e[+-]digits` found at some position: its value and where it ends. */
  datatype Exponent = Exponent(power: int, end: nat)

  /** The exponent part starting at `i`, or power 0 ending at `i` when there is none
      (an `e` without digits is not part of the literal). */
  function ScanExponent(s: string, i: nat): (r: Exponent)
    requires i <= |s|
    ensures i <= r.end <= |s|
    ensures r.end == i ==> r.power == 0
  {
    if i < |s| && (s[i] == 'e' || s[i] == 'E') then
      var signEnd := if i + 1 < |s| && (s[i + 1] == '+' || s[i + 1] == '-') then i + 2 else i + 1;
      var digitsEnd := ScanDigits(s, signEnd);
      if digitsEnd == signEnd then Exponent(0, i)
      else
        var e: int := DigitsValue(s[signEnd..digitsEnd]);
        Exponent(if signEnd == i + 2 && s[i + 1] == '-' then -e else e, digitsEnd)
    else Exponent(0, i)
  }

  /** `m × 10^e` */
  function Scale(m: real, e: int): real {
    if e >= 0 then m * (Pow10(e) as real) else m / (Pow10(-e) as real)
  }

  /** A decimal literal found at the start of a string: its value and its length. */
  datatype Literal = Literal(value: real, end: nat)

  /** The longest prefix of `s` of the form `[+-] digits [. digits] [e [+-] digits]`
      with at least one mantissa digit (ECMAScript StrDecimalLiteral without
      `Infinity`). */
  function ScanLiteral(s: string): (r: Option<Literal>)
    ensures r.Some? ==> 0 < r.value.end <= |s|
  {
    var start := if |s| > 0 && (s[0] == '+' || s[0] == '-') then 1 else 0;
    var intEnd := ScanDigits(s, start);
    var hasPoint := intEnd < |s| && s[intEnd] == '.';
    var fracEnd := if hasPoint then ScanDigits(s, intEnd + 1) else intEnd;
    var intDigits := s[start..intEnd];
    var fracDigits := if hasPoint then s[intEnd + 1..fracEnd] else [];
    if |intDigits| + |fracDigits| == 0 then None
    else
      var exponent := ScanExponent(s, fracEnd);
      var mantissa := DigitsValue(intDigits) as real
                      + DigitsValue(fracDigits) as real / (Pow10(|fracDigits|) as real);
      var magnitude := Scale(mantissa, exponent.power);
      Some(Literal(if start == 1 && s[0] == '-' then -magnitude else magnitude, exponent.end))
  }

  /** `Number(s)`: white space around the literal is ignored, blank text is 0,
      and anything that is not one whole literal is `NaN` (`None`). */
  function ToNumber(s: string): Option<real> {
    var t := Trim(s);
    if t == [] then Some(0.0)
    else
      match ScanLiteral(t)
      case Some(lit) => if lit.end == |t| then Some(lit.value) else None
      case None => None
  }

  /** `Number(s) || 0`: the lenient coercion, 0 for `NaN`. */
  function Num(s: string): (r: real)
    ensures ToNumber(s).None? ==> r == 0.0
    ensures ToNumber(s).Some? ==> r == ToNumber(s).value
  {
    ToNumber(s).GetOr(0.0)
  }

  /** A stored field declared as text that the create flow writes as a number
      (`costDiscount`, `costTax`, `costShipping`, `costAmountPaid`), and that
      the edit form holds as typed text. */
  datatype Scalar = Text(text: string) | Figure(figure: Option<real>)

  /** `Number(v)` */
  function ScalarNumber(v: Scalar): (r: Option<real>)
    ensures v.Text? ==> r == ToNumber(v.text)
    ensures v.Figure? ==> r == v.figure
  {
    match v
    case Text(s) => ToNumber(s)
    case Figure(x) => x
  }

  /** `Number(v) || 0` */
  function ScalarNum(v: Scalar): (r: real)
    ensures ScalarNumber(v).None? ==> r == 0.0
    ensures ScalarNumber(v).Some? ==> r == ScalarNumber(v).value
  {
    ScalarNumber(v).GetOr(0.0)
  }

  /** `Number(v || 0)`: a falsy value (empty text, 0, `NaN`) becomes 0 first, so
      a stored `NaN` reads as 0 while text that is no number stays `NaN`. */
  function ScalarOrZero(v: Scalar): (r: Option<real>)
    ensures v.Text? ==> r == ToNumber(v.text)
    ensures v.Figure? ==> r == Some(v.figure.GetOr(0.0))
  {
    match v
    case Text(s) => ToNumber(s)
    case Figure(x) => Some(x.GetOr(0.0))
  }

  /** `parseFloat(s)`: the longest literal after leading white space; `NaN`
      (`None`) when there is none, blank text included. */
  function ParseFloat(s: string): Option<real> {
    match ScanLiteral(TrimStart(s))
    case Some(lit) => Some(lit.value)
    case None => None
  }

  /** Blank text and text that is no number both coerce to 0. */
  lemma NumOfBlank(s: string)
    requires IsBlank(s)
    ensures ToNumber(s) == Some(0.0) && Num(s) == 0.0
  {
    TrimEmptyIffBlank(s);
  }

  /** Empty text reads as 0. */
  lemma ToNumberOfEmpty()
    ensures ToNumber("") == Some(0.0) && Num("") == 0.0
  {
    assert Trim("") == [];
  }

  /** `n.toString()` for a natural number. */
  function NatToString(n: nat): (s: string)
    ensures s != [] && AllDigits(s)
  {
    if n < 10 then [DigitChar(n)] else NatToString(n / 10) + [DigitChar(n % 10)]
  }

  lemma {:induction false} DigitsValueOfNatToString(n: nat)
    ensures DigitsValue(NatToString(n)) == n
  {
    var s := NatToString(n);
    if n < 10 {
      assert s[..0] == [];
    } else {
      assert s[..|s| - 1] == NatToString(n / 10);
      DigitsValueOfNatToString(n / 10);
    }
  }

  lemma ScanDigitsToEnd(s: string, i: nat)
    requires i <= |s| && AllDigits(s)
    ensures ScanDigits(s, i) == |s|
  {
  }

  /** A mantissa without fraction digits, scaled by no power, is its integer part. */
  lemma WholeMantissa(v: nat)
    ensures Scale(v as real + DigitsValue([]) as real / (Pow10(0) as real), 0) == v as real
  {
    assert DigitsValue([]) == 0 && Pow10(0) == 1;
  }

  /** A string of digits alone is one whole literal. */
  lemma ScanLiteralOfDigits(s: string)
    requires s != [] && AllDigits(s)
    ensures ScanLiteral(s) == Some(Literal(DigitsValue(s) as real, |s|))
  {
    assert !(s[0] == '+' || s[0] == '-');
    ScanDigitsToEnd(s, 0);
    assert s[0..|s|] == s;
    assert ScanExponent(s, |s|) == Exponent(0, |s|);
    WholeMantissa(DigitsValue(s));
  }

  /** `Number(n.toString()) === n`: the rendered key of a row reads back as its number. */
  lemma ToNumberOfNatToString(n: nat)
    ensures ToNumber(NatToString(n)) == Some(n as real)
  {
    var s := NatToString(n);
    assert !IsSpace(s[0]) && !IsSpace(s[|s| - 1]);
    TrimUnpadded(s);
    ScanLiteralOfDigits(s);
    DigitsValueOfNatToString(n);
  }

  /** `parseFloat(n.toString()) === n` */
  lemma ParseFloatOfNatToString(n: nat)
    ensures ParseFloat(NatToString(n)) == Some(n as real)
  {
    var s := NatToString(n);
    assert TrimStart(s) == s;
    ScanLiteralOfDigits(s);
    DigitsValueOfNatToString(n);
  }

  /** No literal starts with a character that is not white space, a sign, a
      point or a digit. */
  lemma ScanLiteralOfWord(s: string)
    requires s != [] && !IsDigit(s[0]) && s[0] !in {'+', '-', '.'}
    ensures ScanLiteral(s) == None
  {
    assert ScanDigits(s, 0) == 0;
  }

  /** Text that starts like a word is `NaN` for `Number` and `parseFloat` alike. */
  lemma NumberOfWord(s: string)
    requires s != [] && !IsSpace(s[0]) && !IsDigit(s[0]) && s[0] !in {'+', '-', '.'}
    ensures ToNumber(s) == None && ParseFloat(s) == None
  {
    assert TrimStart(s) == s;
    ScanLiteralOfWord(s);
    var t := TrimEnd(s);
    assert t != [] && t[0] == s[0];
    ScanLiteralOfWord(t);
  }

  /** Distinct numbers render as distinct strings. */
  lemma NatToStringInjective(a: nat, b: nat)
    requires NatToString(a) == NatToString(b)
    ensures a == b
  {
    DigitsValueOfNatToString(a);
    DigitsValueOfNatToString(b);
  }

  /** `toFixed` switches to exponent notation, and so does no rounding, from 1e21 on. */
  const FixedLimit: real := 1000000000000000000000.0

  /** The value is a whole number of cents. */
  predicate IsCents(x: real) {
    (x * 100.0).Floor as real == x * 100.0
  }

  /** Half-up rounding of a non-negative value to cents stays within half a cent. */
  lemma HalfUpToCents(y: real)
    requires y >= 0.0
    ensures var r := ((y * 100.0 + 0.5).Floor as real) / 100.0;
      IsCents(r) && -0.005 <= r - y <= 0.005 && r >= 0.0
  {
    var n := (y * 100.0 + 0.5).Floor;
    assert n as real <= y * 100.0 + 0.5 < n as real + 1.0;
    var r := (n as real) / 100.0;
    assert r * 100.0 == n as real;
    assert (r * 100.0).Floor == n;
  }

  /** Rounding a negative value half away from zero stays within half a cent. */
  lemma HalfAwayToCents(x: real)
    requires x < 0.0
    ensures var r := -(((-x) * 100.0 + 0.5).Floor as real / 100.0);
      IsCents(r) && -0.005 <= r - x <= 0.005 && r <= 0.0
  {
    HalfUpToCents(-x);
    var m := ((-x) * 100.0 + 0.5).Floor;
    var q := m as real / 100.0;
    assert q * 100.0 == m as real;
    assert (-q) * 100.0 == (-m) as real;
    assert ((-q) * 100.0).Floor == -m;
  }

  /** `Number(x.toFixed(2))`: to the nearest cent, halves away from zero, on the
      exact value; no rounding at or beyond 1e21 in magnitude. */
  function Round2(x: real): (r: real)
    ensures -FixedLimit < x < FixedLimit ==> IsCents(r)
    ensures -0.005 <= r - x <= 0.005
    ensures x >= 0.0 ==> r >= 0.0
    ensures x <= 0.0 ==> r <= 0.0
  {
    if x >= FixedLimit || x <= -FixedLimit then x
    else if x >= 0.0 then
      HalfUpToCents(x);
      (x * 100.0 + 0.5).Floor as real / 100.0
    else
      HalfAwayToCents(x);
      -(((-x) * 100.0 + 0.5).Floor as real / 100.0)
  }

  /** A whole number of cents is its own rounding. */
  lemma Round2OfCents(x: real)
    requires IsCents(x)
    ensures Round2(x) == x
  {
    var n := (x * 100.0).Floor;
    if -FixedLimit < x < FixedLimit {
      if x >= 0.0 {
        assert (x * 100.0 + 0.5).Floor == n;
      } else {
        assert ((-x) * 100.0 + 0.5).Floor == -n;
      }
    }
  }

  /** Rounding twice is rounding once. */
  lemma Round2Idempotent(x: real)
    ensures Round2(Round2(x)) == Round2(x)
  {
    if -FixedLimit < x < FixedLimit {
      Round2OfCents(Round2(x));
    }
  }

  /** Zero needs no rounding. */
  lemma Round2OfZero()
    ensures Round2(0.0) == 0.0
  {
    Round2OfCents(0.0);
  }

  /** A product with a zero factor rounds to zero. */
  lemma Round2OfZeroProduct(x: real, y: real)
    requires x == 0.0
    ensures Round2(x * y) == 0.0
  {
    Round2OfZero();
    assert x * y == 0.0;
  }
}
