/** The JavaScript string operations the client layer uses: `trim`, `split`
    on a one-character separator, `includes`, ASCII `toLowerCase`,
    `padStart(2, "0")`, `parseInt` and the decimal rendering of integers. */
module Text {
  import opened Js

  /** ECMAScript WhiteSpace and LineTerminator code points (what `trim`, `\s` and `parseInt` skip). */
  predicate IsWhitespace(c: char) {
    c == '\t' || c == '\n' || c == '\U{B}' || c == '\U{C}' || c == '\r' || c == ' '
    || c == '\U{A0}' || c == '\U{1680}' || ('\U{2000}' <= c <= '\U{200A}')
    || c == '\U{2028}' || c == '\U{2029}' || c == '\U{202F}' || c == '\U{205F}'
    || c == '\U{3000}' || c == '\U{FEFF}'
  }

  /** The length of the whitespace run `s` starts with. */
  function LeadingWhitespace(s: string): (n: nat)
    ensures n <= |s|
    ensures forall k :: 0 <= k < n ==> IsWhitespace(s[k])
    ensures n < |s| ==> !IsWhitespace(s[n])
  {
    if |s| > 0 && IsWhitespace(s[0]) then 1 + LeadingWhitespace(s[1..]) else 0
  }

  /** Where the whitespace run `s` ends with begins. */
  function TrailingWhitespace(s: string): (n: nat)
    ensures n <= |s|
    ensures forall k :: n <= k < |s| ==> IsWhitespace(s[k])
    ensures n > 0 ==> !IsWhitespace(s[n - 1])
  {
    if |s| > 0 && IsWhitespace(s[|s| - 1]) then TrailingWhitespace(s[..|s| - 1]) else |s|
  }

  /** `s.trimStart()` */
  function TrimStart(s: string): (r: string)
    ensures |r| <= |s| && r == s[|s| - |r|..]
    ensures r == [] || !IsWhitespace(r[0])
    ensures forall k :: 0 <= k < |s| - |r| ==> IsWhitespace(s[k])
  {
    s[LeadingWhitespace(s)..]
  }

  /** `s.trimEnd()` */
  function TrimEnd(s: string): (r: string)
    ensures |r| <= |s| && r == s[..|r|]
    ensures r == [] || !IsWhitespace(r[|r| - 1])
    ensures forall k :: |r| <= k < |s| ==> IsWhitespace(s[k])
  {
    s[..TrailingWhitespace(s)]
  }

  /** `s.trim()`: the slice of `s` left after dropping leading and trailing whitespace. */
  function Trim(s: string): (r: string)
    ensures var i := |s| - |TrimStart(s)|;
      && i + |r| <= |s| && r == s[i..i + |r|]
      && (forall k :: 0 <= k < i ==> IsWhitespace(s[k]))
      && (forall k :: i + |r| <= k < |s| ==> IsWhitespace(s[k]))
    ensures r == [] || (!IsWhitespace(r[0]) && !IsWhitespace(r[|r| - 1]))
  {
    var t := TrimStart(s);
    TrailingOfSuffix(s, t, TrimEnd(t));
    TrimEnd(t)
  }

  lemma TrailingOfSuffix(s: string, t: string, r: string)
    requires |t| <= |s| && t == s[|s| - |t|..]
    requires |r| <= |t| && r == t[..|r|]
    requires forall k :: |r| <= k < |t| ==> IsWhitespace(t[k])
    ensures var i := |s| - |t|; i + |r| <= |s| && r == s[i..i + |r|]
    ensures forall k :: |s| - |t| + |r| <= k < |s| ==> IsWhitespace(s[k])
  {
    var i := |s| - |t|;
    forall k | i + |r| <= k < |s| ensures IsWhitespace(s[k]) {
      assert s[k] == t[k - i];
    }
  }

  /** `s.split(c)` for a one-character separator `c`. */
  function Split(s: string, c: char): (parts: seq<string>)
    ensures |parts| >= 1
    ensures forall i :: 0 <= i < |parts| ==> c !in parts[i]
    ensures |parts| > 1 <==> c in s
    ensures |parts[0]| <= |s| && parts[0] == s[..|parts[0]|]
    ensures |parts[0]| < |s| ==> s[|parts[0]|] == c
  {
    if |s| == 0 then [""]
    else
      var rest := Split(s[1..], c);
      if s[0] == c then [""] + rest
      else
        assert s == [s[0]] + s[1..];
        [[s[0]] + rest[0]] + rest[1..]
  }

  /** `parts.join(c)` */
  function Join(parts: seq<string>, c: char): string
    requires |parts| >= 1
  {
    if |parts| == 1 then parts[0] else parts[0] + [c] + Join(parts[1..], c)
  }

  /** Joining the pieces of a split gives the string back. */
  lemma {:induction false} JoinSplit(s: string, c: char)
    ensures Join(Split(s, c), c) == s
  {
    if |s| > 0 {
      JoinSplit(s[1..], c);
      var rest := Split(s[1..], c);
      if s[0] != c {
        JoinConsFirst(s[0], rest, c);
      } else {
        assert Split(s, c) == [""] + rest;
        assert Split(s, c)[1..] == rest;
      }
    }
  }

  /** Prefixing the first piece prefixes the join. */
  lemma JoinConsFirst(x: char, rest: seq<string>, c: char)
    requires |rest| >= 1
    ensures Join([[x] + rest[0]] + rest[1..], c) == [x] + Join(rest, c)
  {
    var parts := [[x] + rest[0]] + rest[1..];
    if |rest| > 1 {
      assert parts[1..] == rest[1..];
      assert ([x] + rest[0]) + [c] + Join(rest[1..], c) == [x] + (rest[0] + [c] + Join(rest[1..], c));
    }
  }

  /** Splitting a join of separator-free pieces gives the pieces back. */
  lemma {:induction false} SplitJoin(parts: seq<string>, c: char)
    requires |parts| >= 1
    requires forall i :: 0 <= i < |parts| ==> c !in parts[i]
    ensures Split(Join(parts, c), c) == parts
  {
    if |parts| == 1 {
      SplitNoSeparator(parts[0], c);
    } else {
      SplitJoin(parts[1..], c);
      SplitAfterPiece(parts[0], Join(parts[1..], c), c);
      assert parts == [parts[0]] + parts[1..];
    }
  }

  /** Joining after an empty first piece puts the separator in front. */
  lemma JoinAfterEmpty(ps: seq<string>, c: char)
    requires |ps| >= 1
    ensures Join([""] + ps, c) == [c] + Join(ps, c)
  {
    assert ([""] + ps)[1..] == ps;
  }

  lemma {:induction false} SplitNoSeparator(s: string, c: char)
    requires c !in s
    ensures Split(s, c) == [s]
  {
    if |s| > 0 {
      SplitNoSeparator(s[1..], c);
      assert s == [s[0]] + s[1..];
    }
  }

  lemma {:induction false} SplitAfterPiece(p: string, t: string, c: char)
    requires c !in p
    ensures Split(p + [c] + t, c) == [p] + Split(t, c)
  {
    if |p| == 0 {
      assert p + [c] + t == [c] + t;
      assert ([c] + t)[1..] == t;
    } else {
      SplitAfterPiece(p[1..], t, c);
      assert (p + [c] + t)[1..] == p[1..] + [c] + t;
      assert [p[0]] + p[1..] == p;
    }
  }

  /** `s.includes(sub)` */
  predicate Contains(s: string, sub: string) {
    exists i | 0 <= i <= |s| - |sub| :: OccursAt(s, sub, i)
  }

  predicate OccursAt(s: string, sub: string, i: nat) {
    i + |sub| <= |s| && s[i..i + |sub|] == sub
  }

  /** `s.toLowerCase()` on the ASCII letters. */
  function ToLowerAscii(s: string): (r: string)
    ensures |r| == |s|
    ensures forall i :: 0 <= i < |s| ==> r[i] == (if 'A' <= s[i] <= 'Z' then s[i] - 'A' + 'a' else s[i])
  {
    if |s| == 0 then [] else
      var c := s[0];
      [if 'A' <= c <= 'Z' then c - 'A' + 'a' else c] + ToLowerAscii(s[1..])
  }

  /** `s.padStart(2, "0")` */
  function PadStart2(s: string): (r: string)
    ensures |s| >= 2 ==> r == s
    ensures |s| < 2 ==> |r| == 2 && r[2 - |s|..] == s && forall i :: 0 <= i < 2 - |s| ==> r[i] == '0'
  {
    if |s| >= 2 then s else if |s| == 1 then "0" + s else "00"
  }

  function DigitChar(d: nat): (c: char)
    requires d < 10
    ensures '0' <= c <= '9' && c as int - '0' as int == d
  {
    ('0' as int + d) as char
  }

  /** The decimal digits of a natural number, most significant first. */
  function NatToString(n: nat): (s: string)
    ensures |s| >= 1
    ensures forall i :: 0 <= i < |s| ==> '0' <= s[i] <= '9'
    ensures |s| > 1 ==> s[0] != '0'
  {
    if n < 10 then [DigitChar(n)] else NatToString(n / 10) + [DigitChar(n % 10)]
  }

  /** `String(n)` (and `${n}`) for an integer. */
  function IntToString(n: int): string {
    if n < 0 then "-" + NatToString(-n) else NatToString(n)
  }

  /** The value of a string of digits in the given radix. */
  function DigitsValue(s: string, radix: nat): nat
    requires radix == 2 || radix == 8 || radix == 10 || radix == 16
    requires forall i :: 0 <= i < |s| ==> DigitOf(s[i], radix).Some?
  {
    if |s| == 0 then 0 else DigitsValue(s[..|s| - 1], radix) * radix + DigitOf(s[|s| - 1], radix).value
  }

  /** Reading back the decimal rendering of a natural number gives the number. */
  lemma {:induction false} NatToStringRoundTrip(n: nat)
    ensures forall i :: 0 <= i < |NatToString(n)| ==> DigitOf(NatToString(n)[i], 10).Some?
    ensures DigitsValue(NatToString(n), 10) == n
  {
    var s := NatToString(n);
    if n >= 10 {
      NatToStringRoundTrip(n / 10);
      assert s[..|s| - 1] == NatToString(n / 10);
      assert DigitOf(s[|s| - 1], 10) == Some(n % 10);
      assert DigitsValue(s, 10) == (n / 10) * 10 + n % 10;
    } else {
      assert s[..0] == [];
      assert DigitOf(s[0], 10) == Some(n);
    }
  }

  /** The value of a digit character in the given radix, or None. */
  function DigitOf(c: char, radix: nat): (d: Option<nat>)
    ensures d.Some? ==> d.value < radix
  {
    if '0' <= c <= '9' && (c as int - '0' as int) < radix then Some(c as int - '0' as int)
    else if radix == 16 && 'a' <= c <= 'f' then Some(c as int - 'a' as int + 10)
    else if radix == 16 && 'A' <= c <= 'F' then Some(c as int - 'A' as int + 10)
    else None
  }

  /** The longest prefix of `s` made of digits of the radix. */
  function DigitPrefix(s: string, radix: nat): (p: string)
    ensures |p| <= |s| && p == s[..|p|]
    ensures forall i :: 0 <= i < |p| ==> DigitOf(p[i], radix).Some?
    ensures |p| < |s| ==> DigitOf(s[|p|], radix).None?
  {
    if |s| > 0 && DigitOf(s[0], radix).Some? then [s[0]] + DigitPrefix(s[1..], radix) else []
  }

  /** `parseInt(s)` with no radix: leading whitespace, an optional sign, a `0x` prefix for
      hexadecimal, then the longest run of digits; `None` is NaN (no digit at all). */
  function ParseInt(s: string): (r: Option<int>)
    ensures r.None? <==> ParseUnsigned(Unsigned(TrimStart(s))).None?
  {
    var t := TrimStart(s);
    match ParseUnsigned(Unsigned(t))
    case Some(v) => Some(if |t| > 0 && t[0] == '-' then -(v as int) else v as int)
    case None => None
  }

  /** What follows an optional leading sign. */
  function Unsigned(t: string): (u: string)
    ensures u == t || (|t| > 0 && (t[0] == '-' || t[0] == '+') && u == t[1..])
  {
    if |t| > 0 && (t[0] == '-' || t[0] == '+') then t[1..] else t
  }

  /** The digits after the sign: hexadecimal after `0x`/`0X`, decimal otherwise. */
  function ParseUnsigned(u: string): Option<nat> {
    var hex := |u| >= 2 && u[0] == '0' && (u[1] == 'x' || u[1] == 'X');
    var radix := if hex then 16 else 10;
    var digits := DigitPrefix(if hex then u[2..] else u, radix);
    if |digits| == 0 then None else Some(DigitsValue(digits, radix))
  }

  /** `parseInt` reads back the decimal rendering of any integer. */
  lemma ParseIntRoundTrip(n: int)
    ensures ParseInt(IntToString(n)) == Some(n)
  {
    var m: nat := if n < 0 then -n else n;
    var d := NatToString(m);
    NatToStringRoundTrip(m);
    ParseUnsignedDecimal(d);
    if n < 0 {
      ParseNegative(d, m);
    } else {
      ParseNonNegative(d, m);
    }
  }

  lemma ParseNegative(d: string, v: nat)
    requires |d| >= 1 && '0' <= d[0] <= '9'
    requires ParseUnsigned(d) == Some(v)
    ensures ParseInt("-" + d) == Some(-(v as int))
  {
    var s := "-" + d;
    assert s[0] == '-' && !IsWhitespace(s[0]);
    assert TrimStart(s) == s;
    assert Unsigned(s) == d by { assert s[1..] == d; }
  }

  lemma ParseNonNegative(d: string, v: nat)
    requires |d| >= 1 && '0' <= d[0] <= '9'
    requires ParseUnsigned(d) == Some(v)
    ensures ParseInt(d) == Some(v as int)
  {
    assert !IsWhitespace(d[0]);
    assert TrimStart(d) == d;
    assert Unsigned(d) == d;
    assert ParseInt(d) == Some(v as int);
  }

  lemma ParseUnsignedDecimal(d: string)
    requires |d| >= 1 && forall i :: 0 <= i < |d| ==> '0' <= d[i] <= '9'
    requires |d| > 1 ==> d[0] != '0'
    requires forall i :: 0 <= i < |d| ==> DigitOf(d[i], 10).Some?
    ensures ParseUnsigned(d) == Some(DigitsValue(d, 10))
  {
    DigitPrefixAll(d, 10);
  }

  lemma {:induction false} DigitPrefixAll(s: string, radix: nat)
    requires forall i :: 0 <= i < |s| ==> DigitOf(s[i], radix).Some?
    ensures DigitPrefix(s, radix) == s
  {
    if |s| > 0 {
      DigitPrefixAll(s[1..], radix);
      assert s == [s[0]] + s[1..];
    }
  }

  /** `String(value)` (and `${value}`) for a value read from a document; `None` is `undefined`. */
  function JsString(v: Option<Json>): (s: string)
    ensures v.Some? && v.value.Str? ==> s == v.value.s
    ensures v.None? ==> s == "undefined"
    ensures v == Some(Null) ==> s == "null"
  {
    match v
    case None => "undefined"
    case Some(j) => ValueString(j)
  }

  /** A value that may be `undefined`, as `String(value)` prints it when it is
      truthy, and `None` when it is falsy.  This is what `new Error(v)` and
      `localStorage.setItem(key, v)` keep of a truthy `v`. */
  function TruthyText(v: Option<Json>): (s: Option<string>)
    ensures s.Some? <==> Present(v)
    ensures s.Some? ==> s.value == ValueString(v.value)
    ensures v.Some? && v.value.Str? && v.value.s != "" ==> s == Some(v.value.s)
  {
    if Present(v) then Some(ValueString(v.value)) else None
  }

  /** `String(v || fallback)` for a string fallback. */
  function TextOr(v: Option<Json>, fallback: string): (s: string)
    ensures Present(v) ==> s == ValueString(v.value)
    ensures !Present(v) ==> s == fallback
    ensures v.Some? && v.value.Str? && v.value.s != "" ==> s == v.value.s
  {
    if Present(v) then ValueString(v.value) else fallback
  }

  /** `String` prints every truthy value other than an array as a non-empty
      string; an array can print as "" (`String([])`, `String([""])`). */
  lemma TruthyTextNonEmpty(j: Json)
    requires JsonTruthy(j) && !j.Arr?
    ensures ValueString(j) != ""
  {
  }

  /** `String(value)` of a value read from a document (no `undefined` inside). */
  function ValueString(j: Json): string
    decreases j, 0
  {
    match j
    case Null => "null"
    case Bool(b) => if b then "true" else "false"
    case Num(n) => IntToString(n)
    case Str(s) => s
    case Arr(items) => JoinValues(items)
    case Obj(_) => "[object Object]"
  }

  /** `Array.prototype.join(",")`: `null` elements become empty strings. */
  function JoinValues(items: seq<Json>): string
    decreases items, 1
  {
    if |items| == 0 then ""
    else
      var first := if items[0].Null? then "" else ValueString(items[0]);
      if |items| == 1 then first else first + "," + JoinValues(items[1..])
  }
}
