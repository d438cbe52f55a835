/** JavaScript's conversion of values to numbers (`Number(value)`, and the
    conversion `>`, `<` and `/` apply to their operands), with the values
    kept exact: a finite number is a fraction, and the infinities and NaN
    are values of their own. */
module Numbers {
  import opened Js
  import opened Text

  /** A number: `num / den` with `den > 0`, an infinity, or NaN. */
  datatype Number = Fraction(num: int, den: nat) | PosInfinity | NegInfinity | NaN

  predicate WellFormed(x: Number) {
    x.Fraction? ==> x.den > 0
  }

  function Pow10(k: nat): (p: nat)
    ensures p >= 1
  {
    if k == 0 then 1 else 10 * Pow10(k - 1)
  }

  /** `m × 10^e` */
  function Scaled(m: nat, e: int): (x: Number)
    ensures x.Fraction? && x.den > 0 && x.num >= 0
    ensures e == 0 ==> x == Fraction(m, 1)
  {
    if e >= 0 then Fraction(m * Pow10(e), 1) else Fraction(m, Pow10(-e))
  }

  function Negate(x: Number): Number {
    match x
    case Fraction(n, d) => Fraction(-n, d)
    case PosInfinity => NegInfinity
    case NegInfinity => PosInfinity
    case NaN => NaN
  }

  /** The string is non-empty and made of digits of the radix. */
  predicate AllDigits(s: string, radix: nat) {
    |s| > 0 && forall i :: 0 <= i < |s| ==> DigitOf(s[i], radix).Some?
  }

  /** The radix a `0x`, `0o` or `0b` prefix (in either case) selects. */
  function PrefixRadix(t: string): (radix: Option<nat>)
    ensures radix.Some? ==> radix.value == 16 || radix.value == 8 || radix.value == 2
  {
    if |t| < 2 || t[0] != '0' then None
    else if t[1] == 'x' || t[1] == 'X' then Some(16)
    else if t[1] == 'o' || t[1] == 'O' then Some(8)
    else if t[1] == 'b' || t[1] == 'B' then Some(2)
    else None
  }

  /** An exponent part: nothing, or `e`/`E`, an optional sign and at least one digit. */
  function Exponent(r: string): (e: Option<int>) {
    if r == [] then Some(0)
    else if r[0] != 'e' && r[0] != 'E' then None
    else
      var u := r[1..];
      var negative := |u| > 0 && u[0] == '-';
      var digits := if |u| > 0 && (u[0] == '-' || u[0] == '+') then u[1..] else u;
      if !AllDigits(digits, 10) then None
      else Some(if negative then -(DigitsValue(digits, 10) as int) else DigitsValue(digits, 10))
  }

  /** After the whole digits: an optional `.` with the fraction digits, and what follows them. */
  function PointPart(rest: string): (r: (string, string))
    ensures forall i :: 0 <= i < |r.0| ==> DigitOf(r.0[i], 10).Some?
    ensures |rest| == 0 || rest[0] != '.' ==> r == ("", rest)
  {
    if |rest| > 0 && rest[0] == '.' then
      var frac := DigitPrefix(rest[1..], 10);
      (frac, rest[1..][|frac|..])
    else ("", rest)
  }

  lemma DigitsConcat(a: string, b: string, radix: nat)
    requires forall i :: 0 <= i < |a| ==> DigitOf(a[i], radix).Some?
    requires forall i :: 0 <= i < |b| ==> DigitOf(b[i], radix).Some?
    ensures forall i :: 0 <= i < |a + b| ==> DigitOf((a + b)[i], radix).Some?
  {
    forall i | 0 <= i < |a + b| ensures DigitOf((a + b)[i], radix).Some? {
      if i < |a| { assert (a + b)[i] == a[i]; } else { assert (a + b)[i] == b[i - |a|]; }
    }
  }

  /** An unsigned decimal literal: digits, an optional `.` and digits (at
      least one digit in all), and an optional exponent. */
  function UnsignedDecimal(body: string): (x: Option<Number>)
    ensures x.Some? ==> x.value.Fraction? && x.value.num >= 0 && x.value.den > 0
  {
    var whole := DigitPrefix(body, 10);
    var (frac, tail) := PointPart(body[|whole|..]);
    if |whole| + |frac| == 0 then None
    else
      match Exponent(tail)
      case None => None
      case Some(e) =>
        DigitsConcat(whole, frac, 10);
        Some(Scaled(DigitsValue(whole + frac, 10), e - |frac|))
  }

  /** `Number(s)` for a string: surrounding white space is ignored, the empty
      string is 0, a `0x`/`0o`/`0b` literal is read in its radix (no sign
      allowed), otherwise an optional sign precedes `Infinity` or a decimal
      literal; anything else is NaN. */
  function StringToNumber(s: string): (x: Number)
    ensures WellFormed(x)
  {
    TrimmedToNumber(Trim(s))
  }

  /** `Number` of a string without surrounding white space. */
  function TrimmedToNumber(t: string): (x: Number)
    ensures WellFormed(x)
  {
    if t == "" then Fraction(0, 1)
    else if PrefixRadix(t).Some? && AllDigits(t[2..], PrefixRadix(t).value) then
      Fraction(DigitsValue(t[2..], PrefixRadix(t).value), 1)
    else if t[0] == '-' then Negate(SignlessToNumber(t[1..]))
    else if t[0] == '+' then SignlessToNumber(t[1..])
    else SignlessToNumber(t)
  }

  /** What follows the sign: `Infinity` or an unsigned decimal literal. */
  function SignlessToNumber(body: string): (x: Number)
    ensures x.Fraction? ==> x.den > 0
    ensures x.Fraction? ==> x.num >= 0
  {
    if body == "Infinity" then PosInfinity
    else
      match UnsignedDecimal(body)
      case None => NaN
      case Some(m) => m
  }

  /** `Number(value)` of a value read from a document; `None` is `undefined`.
      An array converts through its `join`, an object through "[object Object]". */
  function ToNumber(v: Option<Json>): (x: Number)
    ensures WellFormed(x)
    ensures v.None? ==> x == NaN
    ensures v == Some(Null) ==> x == Fraction(0, 1)
    ensures v.Some? && v.value.Num? ==> x == Fraction(v.value.n, 1)
    ensures v.Some? && v.value.Bool? ==> x == Fraction(if v.value.b then 1 else 0, 1)
    ensures v.Some? && v.value.Str? ==> x == StringToNumber(v.value.s)
  {
    match v
    case None => NaN
    case Some(Null) => Fraction(0, 1)
    case Some(Bool(b)) => Fraction(if b then 1 else 0, 1)
    case Some(Num(n)) => Fraction(n, 1)
    case Some(j) => StringToNumber(ValueString(j))
  }

  /** `x > k` for an integer `k`; NaN compares false with everything. */
  predicate GreaterThan(x: Number, k: int)
    requires WellFormed(x)
  {
    match x
    case Fraction(n, d) => n > k * d
    case PosInfinity => true
    case _ => false
  }

  /** `k < x` for an integer `k`. */
  predicate LessThan(k: int, x: Number)
    requires WellFormed(x)
  {
    GreaterThan(x, k)
  }

  /** `Math.ceil(n / d)` for a positive divisor. */
  function CeilDiv(n: int, d: int): (q: int)
    requires d > 0
    ensures (q - 1) * d < n <= q * d
  {
    -((-n) / d)
  }

  /** `q` is the integer `ceil(x / d)` of a finite `x`: the least integer
      whose multiple of `d` reaches `x`. */
  predicate IsCeiling(q: Number, x: Number, d: int)
    requires x.Fraction?
  {
    q.Fraction? && q.den == 1 && (q.num - 1) * (d * x.den) < x.num <= q.num * (d * x.den)
  }

  /** `Math.ceil(x / d)` for a positive integer divisor: infinities and NaN stay as they are. */
  function CeilDivBy(x: Number, d: int): (q: Number)
    requires WellFormed(x) && d > 0
    ensures WellFormed(q)
    ensures x.Fraction? ==> IsCeiling(q, x, d)
    ensures !x.Fraction? ==> q == x
  {
    match x
    case Fraction(n, den) => Fraction(CeilDiv(n, d * den), 1)
    case _ => x
  }

  /** An integer below `Math.ceil(x / d)` is a multiple of `d` below `x`. */
  lemma LessThanCeiling(k: int, x: Number, d: int)
    requires x.Fraction? && x.den > 0 && d > 0
    requires LessThan(k, CeilDivBy(x, d))
    ensures k * d * x.den < x.num
  {
    var q := CeilDivBy(x, d);
    assert q.den == 1 && k * 1 < q.num;
    BelowCeiling(k, q, x, d);
  }

  lemma BelowCeiling(k: int, q: Number, x: Number, d: int)
    requires x.Fraction? && x.den > 0 && d > 0
    requires IsCeiling(q, x, d) && k < q.num
    ensures k * d * x.den < x.num
  {
    var m := d * x.den;
    assert k * m <= (q.num - 1) * m by {
      MultiplyLe(k, q.num - 1, m);
    }
    assert k * d * x.den == k * m;
  }

  lemma MultiplyLe(a: int, b: int, m: nat)
    requires a <= b
    ensures a * m <= b * m
  {
  }

  /** The decimal rendering of an integer converts back to that integer. */
  lemma IntStringToNumber(n: int)
    ensures StringToNumber(IntToString(n)) == Fraction(n, 1)
  {
    var m: nat := if n < 0 then -n else n;
    var d := NatToString(m);
    NatToStringRoundTrip(m);
    DecimalDigits(d);
    if n < 0 {
      SignedDigits(d, m);
    } else {
      UnsignedDigits(d, m);
    }
  }

  lemma SignedDigits(d: string, v: nat)
    requires |d| > 0 && forall i :: 0 <= i < |d| ==> '0' <= d[i] <= '9'
    requires UnsignedDecimal(d) == Some(Fraction(v, 1))
    ensures StringToNumber("-" + d) == Fraction(-(v as int), 1)
  {
    var s := "-" + d;
    assert s[0] == '-' && s[|s| - 1] == d[|d| - 1];
    TrimOfTrimmed(s);
    assert s[1..] == d;
    NotInfinity(d);
    assert PrefixRadix(s).None?;
  }

  lemma UnsignedDigits(d: string, v: nat)
    requires |d| > 0 && forall i :: 0 <= i < |d| ==> '0' <= d[i] <= '9'
    requires UnsignedDecimal(d) == Some(Fraction(v, 1))
    ensures StringToNumber(d) == Fraction(v, 1)
  {
    TrimOfTrimmed(d);
    assert PrefixRadix(d).None?;
    NotInfinity(d);
  }

  lemma NotInfinity(d: string)
    requires |d| > 0 && '0' <= d[0] <= '9'
    ensures d != "Infinity"
  {
    assert "Infinity"[0] == 'I';
  }

  /** A string of decimal digits reads as its value. */
  lemma DecimalDigits(d: string)
    requires |d| > 0 && forall i :: 0 <= i < |d| ==> '0' <= d[i] <= '9'
    ensures forall i :: 0 <= i < |d| ==> DigitOf(d[i], 10).Some?
    ensures UnsignedDecimal(d) == Some(Fraction(DigitsValue(d, 10), 1))
  {
    DigitPrefixAll(d, 10);
    assert d[|d|..] == "";
    assert PointPart("") == ("", "");
    assert d + "" == d;
  }

  /** A string without white space at either end is its own trim. */
  lemma TrimOfTrimmed(s: string)
    requires |s| > 0 && !IsWhitespace(s[0]) && !IsWhitespace(s[|s| - 1])
    ensures Trim(s) == s
  {
    assert |s| - |TrimStart(s)| == 0;
  }

  /** A one-element array of an integer converts like the integer: `[3] > 1`. */
  lemma SingletonArrayToNumber(n: int)
    ensures ToNumber(Some(Arr([Num(n)]))) == Fraction(n, 1)
  {
    assert JoinValues([Num(n)]) == ValueString(Num(n)) == IntToString(n);
    assert ValueString(Arr([Num(n)])) == IntToString(n);
    IntStringToNumber(n);
  }
}
