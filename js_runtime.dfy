/**
 * The few JavaScript built-ins the API's code relies on, stated over Dafny values:
 * `String.prototype.trim`, `toLowerCase` on the characters that matter here,
 * `includes`, `replace` with a string pattern, `parseInt`, `parseFloat`,
 * `Number.prototype.toFixed`, `Math.round`, division producing NaN or an
 * infinity, and the `YYYY-MM-DD` prefix of `Date.prototype.toISOString`.
 * Numbers are mathematical: `int` for integers and `real` for the rest.
 */
module JsRuntime {
  import opened Wrappers

  // ---------------------------------------------------------------------------
  // Characters
  // ---------------------------------------------------------------------------

  /** WhiteSpace and LineTerminator code points (ECMA-262, sections 12.2 and 12.3). */
  predicate IsWhitespace(c: char) {
    c == '\t' || c == '\n' || c == '\U{B}' || c == '\U{C}' || c == '\r' || c == ' '
    || c == '\U{A0}' || c == '\U{1680}' || ('\U{2000}' <= c <= '\U{200A}')
    || c == '\U{2028}' || c == '\U{2029}' || c == '\U{202F}' || c == '\U{205F}'
    || c == '\U{3000}' || c == '\U{FEFF}'
  }

  predicate IsDigit(c: char) { '0' <= c <= '9' }

  predicate IsAsciiLetter(c: char) { 'A' <= c <= 'Z' || 'a' <= c <= 'z' }

  function DigitValue(c: char): (d: nat)
    requires IsDigit(c)
    ensures d < 10
  {
    (c as int) - ('0' as int)
  }

  predicate AllDigits(s: string) {
    forall i :: 0 <= i < |s| ==> IsDigit(s[i])
  }

  // ---------------------------------------------------------------------------
  // Strings
  // ---------------------------------------------------------------------------

  /** `s` without its leading whitespace. */
  function TrimStart(s: string): (r: string)
    ensures |r| <= |s| && r == s[|s| - |r|..]
    ensures forall i :: 0 <= i < |s| - |r| ==> IsWhitespace(s[i])
    ensures r == [] || !IsWhitespace(r[0])
  {
    if s != [] && IsWhitespace(s[0]) then TrimStart(s[1..]) else s
  }

  /** `s` without its trailing whitespace. */
  function TrimEnd(s: string): (r: string)
    ensures |r| <= |s| && r == s[..|r|]
    ensures forall i :: |r| <= i < |s| ==> IsWhitespace(s[i])
    ensures r == [] || !IsWhitespace(r[|r| - 1])
  {
    if s != [] && IsWhitespace(s[|s| - 1]) then TrimEnd(s[..|s| - 1]) else s
  }

  /** `s.trim()`. */
  function Trim(s: string): string {
    TrimEnd(TrimStart(s))
  }

  function LowerChar(c: char): char {
    if 'A' <= c <= 'Z' then ((c as int) + 32) as char else c
  }

  /**
   * `s.toLowerCase()` on ASCII letters. Every other character is kept; the
   * only non-ASCII characters whose lower case is ASCII are U+0130 and U+212A,
   * which cannot complete any of the markers compared against here.
   */
  function ToLower(s: string): (r: string)
    ensures |r| == |s|
    ensures forall i :: 0 <= i < |s| ==> r[i] == LowerChar(s[i])
  {
    seq(|s|, i requires 0 <= i < |s| => LowerChar(s[i]))
  }

  /** `s.includes(sub)`. */
  predicate Contains(s: string, sub: string) {
    exists i :: 0 <= i <= |s| - |sub| && OccursAt(s, sub, i)
  }

  /** `sub` occurs in `s` starting at index `i`. */
  predicate OccursAt(s: string, sub: string, i: int) {
    0 <= i <= |s| - |sub| && s[i..i + |sub|] == sub
  }

  /** The characters of `s` that satisfy `keep`, in order: `s.replace(/[^…]/g, "")`. */
  function Keep(s: string, keep: char -> bool): (r: string)
    ensures |r| <= |s|
    ensures forall i :: 0 <= i < |r| ==> keep(r[i])
  {
    if s == [] then []
    else if keep(s[0]) then [s[0]] + Keep(s[1..], keep)
    else Keep(s[1..], keep)
  }

  /** Index of the first `c` in `s`. */
  function FirstIndex(s: string, c: char): (k: nat)
    requires c in s
    ensures k < |s| && s[k] == c && c !in s[..k]
  {
    if s[0] == c then 0 else FirstIndex(s[1..], c) + 1
  }

  /** `s.replace(from, to)` with a one-character string pattern: only the first occurrence is replaced. */
  function ReplaceFirst(s: string, from: char, to: string): string {
    if s == [] then []
    else if s[0] == from then to + s[1..]
    else [s[0]] + ReplaceFirst(s[1..], from, to)
  }

  /** The replacement leaves a string without `from` as it is, and otherwise splices `to` in at the first `from` only. */
  lemma ReplaceFirstSpec(s: string, from: char, to: string)
    ensures from !in s ==> ReplaceFirst(s, from, to) == s
    ensures from in s ==> ReplaceFirst(s, from, to) == s[..FirstIndex(s, from)] + to + s[FirstIndex(s, from) + 1..]
  {
    if from in s {
      ReplaceFirstSplice(s, from, to);
    } else {
      ReplaceFirstAbsent(s, from, to);
    }
  }

  lemma {:induction false} ReplaceFirstAbsent(s: string, from: char, to: string)
    requires from !in s
    ensures ReplaceFirst(s, from, to) == s
  {
    if s != [] {
      assert s[0] != from && from !in s[1..];
      ReplaceFirstAbsent(s[1..], from, to);
      assert s == [s[0]] + s[1..];
    }
  }

  lemma {:induction false} ReplaceFirstSplice(s: string, from: char, to: string)
    requires from in s
    ensures ReplaceFirst(s, from, to) == s[..FirstIndex(s, from)] + to + s[FirstIndex(s, from) + 1..]
  {
    if s[0] == from {
      assert s[..0] + to + s[1..] == to + s[1..];
    } else {
      var t := s[1..];
      assert from in t;
      ReplaceFirstSplice(t, from, to);
      var k := FirstIndex(t, from);
      assert FirstIndex(s, from) == k + 1;
      assert s[..k + 1] == [s[0]] + t[..k];
      assert s[k + 2..] == t[k + 1..];
      calc {
        ReplaceFirst(s, from, to);
        [s[0]] + ReplaceFirst(t, from, to);
        [s[0]] + (t[..k] + to + t[k + 1..]);
        ([s[0]] + t[..k]) + to + t[k + 1..];
        s[..k + 1] + to + s[k + 2..];
      }
    }
  }

  /** Every character of the result satisfies `p` when every character of `s` and of `to` does. */
  lemma {:induction false} ReplaceFirstPreserves(s: string, from: char, to: string, p: char -> bool)
    requires forall i :: 0 <= i < |s| ==> p(s[i])
    requires forall i :: 0 <= i < |to| ==> p(to[i])
    ensures forall i :: 0 <= i < |ReplaceFirst(s, from, to)| ==> p(ReplaceFirst(s, from, to)[i])
  {
    if s != [] && s[0] != from {
      ReplaceFirstPreserves(s[1..], from, to, p);
      var r := ReplaceFirst(s[1..], from, to);
      assert forall i :: 1 <= i < |r| + 1 ==> ([s[0]] + r)[i] == r[i - 1];
    } else if s != [] {
      assert forall i :: |to| <= i < |to| + |s| - 1 ==> (to + s[1..])[i] == s[i - |to| + 1];
    }
  }

  // ---------------------------------------------------------------------------
  // Numbers
  // ---------------------------------------------------------------------------

  /** Length of the longest prefix of `s` made of decimal digits. */
  function DigitRun(s: string): (n: nat)
    ensures n <= |s| && AllDigits(s[..n])
    ensures n < |s| ==> !IsDigit(s[n])
  {
    if s != [] && IsDigit(s[0]) then 1 + DigitRun(s[1..]) else 0
  }

  /** The number a string of decimal digits denotes. */
  function DigitsValue(d: string): nat
    requires AllDigits(d)
  {
    if d == [] then 0 else DigitsValue(d[..|d| - 1]) * 10 + DigitValue(d[|d| - 1])
  }

  function Pow10(n: nat): (p: nat)
    ensures p >= 1
  {
    if n == 0 then 1 else 10 * Pow10(n - 1)
  }

  function Pow2(n: nat): (p: nat)
    ensures p >= 1
  {
    if n == 0 then 1 else 2 * Pow2(n - 1)
  }

  /** The value of the fraction digits `d` after a decimal point. */
  function FractionValue(d: string): (v: real)
    requires AllDigits(d)
    ensures 0.0 <= v
  {
    DigitsValue(d) as real / Pow10(|d|) as real
  }

  predicate IsHexDigit(c: char) {
    IsDigit(c) || 'a' <= c <= 'f' || 'A' <= c <= 'F'
  }

  function HexDigitValue(c: char): (d: nat)
    requires IsHexDigit(c)
    ensures d < 16
  {
    if IsDigit(c) then DigitValue(c)
    else if 'a' <= c <= 'f' then (c as int) - ('a' as int) + 10
    else (c as int) - ('A' as int) + 10
  }

  function HexRun(s: string): (n: nat)
    ensures n <= |s|
    ensures forall i :: 0 <= i < n ==> IsHexDigit(s[i])
  {
    if s != [] && IsHexDigit(s[0]) then 1 + HexRun(s[1..]) else 0
  }

  function HexValue(d: string): nat
    requires forall i :: 0 <= i < |d| ==> IsHexDigit(d[i])
  {
    if d == [] then 0 else HexValue(d[..|d| - 1]) * 16 + HexDigitValue(d[|d| - 1])
  }

  /** Leading whitespace skipped, then an optional sign: (negative?, rest). */
  function SplitSign(s: string): (string, bool) {
    var t := TrimStart(s);
    if t != [] && (t[0] == '-' || t[0] == '+') then (t[1..], t[0] == '-') else (t, false)
  }

  /** A string that starts with neither whitespace nor a sign is its own unsigned part. */
  lemma UnsignedSplit(u: string)
    requires u == [] || (!IsWhitespace(u[0]) && u[0] != '-' && u[0] != '+')
    ensures SplitSign(u) == (u, false)
  {
    assert TrimStart(u) == u;
  }

  /** `parseInt(s, 10)`: None stands for NaN. */
  function ParseInt(s: string): (r: Option<int>)
    ensures r.None? <==> DigitRun(SplitSign(s).0) == 0
  {
    var (u, negative) := SplitSign(s);
    var n := DigitRun(u);
    if n == 0 then None
    else Some(if negative then -(DigitsValue(u[..n]) as int) else DigitsValue(u[..n]))
  }

  /** `parseInt` of a string that starts with neither whitespace nor a sign reads its leading digits. */
  lemma ParseIntOfUnsigned(u: string)
    requires SplitSign(u) == (u, false) && DigitRun(u) > 0
    ensures ParseInt(u) == Some(DigitsValue(u[..DigitRun(u)]) as int)
  {
  }

  /** `parseInt(s)` without a radix: a `0x` or `0X` prefix selects base 16, otherwise base 10. */
  function ParseIntAutoRadix(s: string): Option<int> {
    var (u, negative) := SplitSign(s);
    if |u| >= 2 && u[0] == '0' && (u[1] == 'x' || u[1] == 'X') then
      var h := HexRun(u[2..]);
      if h == 0 then None
      else Some(if negative then -(HexValue(u[2..][..h]) as int) else HexValue(u[2..][..h]))
    else ParseInt(s)
  }

  /** Length of the longest prefix `e[+-]digits` (zero when there is none). */
  function ExponentRun(s: string): (n: nat)
    ensures n <= |s|
  {
    if |s| >= 2 && (s[0] == 'e' || s[0] == 'E') then
      var signed := if s[1] == '+' || s[1] == '-' then 1 else 0;
      var k := DigitRun(s[1 + signed..]);
      if k == 0 then 0 else 1 + signed + k
    else 0
  }

  /** The value of an exponent part recognised by ExponentRun. */
  function ExponentValue(s: string): int
    requires ExponentRun(s) > 0
  {
    var signed := if s[1] == '+' || s[1] == '-' then 1 else 0;
    var k := DigitRun(s[1 + signed..]);
    var e := DigitsValue(s[1 + signed..][..k]);
    if s[1] == '-' then -(e as int) else e
  }

  function ScaleByPowerOfTen(v: real, e: int): real {
    if e >= 0 then v * Pow10(e) as real else v / Pow10(-e) as real
  }

  /**
   * `parseFloat(s)`: leading whitespace, an optional sign, then the longest
   * prefix of the form `digits[.digits][e[+-]digits]` or `.digits[e[+-]digits]`.
   * None stands for NaN.
   */
  function ParseFloat(s: string): (r: Option<real>)
    ensures r.None? <==> DigitRun(SplitSign(s).0) == 0 && !(|SplitSign(s).0| > 1 && SplitSign(s).0[0] == '.' && IsDigit(SplitSign(s).0[1]))
  {
    var (u, negative) := SplitSign(s);
    var n := DigitRun(u);
    var dotted := n < |u| && u[n] == '.';
    var m := if dotted then DigitRun(u[n + 1..]) else 0;
    if n == 0 && m == 0 then None
    else
      var mantissa := DigitsValue(u[..n]) as real + (if dotted then FractionValue(u[n + 1..][..m]) else 0.0);
      var rest := if dotted then u[n + 1 + m..] else u[n..];
      var v := if ExponentRun(rest) > 0 then ScaleByPowerOfTen(mantissa, ExponentValue(rest)) else mantissa;
      Some(if negative then -v else v)
  }

  /** `Number(x.toFixed(digits))`: rounds the magnitude half up, so ties move away from zero. */
  function ToFixed(x: real, digits: nat): real {
    RoundTo(x, Pow10(digits) as real)
  }

  /** `x` rounded to the nearest multiple of `1 / p`, magnitude half up. */
  function RoundTo(x: real, p: real): real
    requires p > 0.0
  {
    if x >= 0.0 then Scaled(x, p) as real / p
    else -(Scaled(-x, p) as real / p)
  }

  /** `m * p` rounded half up. */
  function Scaled(m: real, p: real): (n: int)
    ensures n as real - 0.5 <= m * p < n as real + 0.5
  {
    (m * p + 0.5).Floor
  }

  /** Rounding to `digits` decimals moves a value by at most half a unit in the last place. */
  lemma ToFixedClose(x: real, digits: nat)
    ensures -0.5 <= (ToFixed(x, digits) - x) * Pow10(digits) as real <= 0.5
  {
    RoundToClose(x, Pow10(digits) as real);
  }

  /** A value already on the grid of `digits` decimals is left as it is. */
  lemma ToFixedOnGrid(x: real, digits: nat, k: int)
    requires x * Pow10(digits) as real == k as real
    ensures ToFixed(x, digits) == x
  {
    RoundToOnGrid(x, Pow10(digits) as real, k);
  }

  /** Rounding preserves order. */
  lemma ToFixedMonotone(x: real, y: real, digits: nat)
    requires x <= y
    ensures ToFixed(x, digits) <= ToFixed(y, digits)
  {
    RoundToMonotone(x, y, Pow10(digits) as real);
  }

  lemma RoundToClose(x: real, p: real)
    requires p > 0.0
    ensures -0.5 <= (RoundTo(x, p) - x) * p <= 0.5
  {
    var t := RoundTo(x, p);
    if x >= 0.0 {
      var f := Scaled(x, p) as real;
      Unscale(f, p);
      Distribute(t, x, p);
    } else {
      var f := Scaled(-x, p) as real;
      Unscale(f, p);
      assert t * p == -f;
      Distribute(t, x, p);
      assert -x * p == -(x * p);
    }
  }

  lemma RoundToOnGrid(x: real, p: real, k: int)
    requires p > 0.0 && x * p == k as real
    ensures RoundTo(x, p) == x
  {
    assert k as real / p == x by { Scale(x, p); }
    if x >= 0.0 {
      IntegerGap(Scaled(x, p), k);
      IntegerGap(k, Scaled(x, p));
    } else {
      assert -x * p == (-k) as real;
      IntegerGap(Scaled(-x, p), -k);
      IntegerGap(-k, Scaled(-x, p));
      assert (-k) as real / p == -(k as real / p);
    }
  }

  lemma RoundToMonotone(x: real, y: real, p: real)
    requires x <= y && p > 0.0
    ensures RoundTo(x, p) <= RoundTo(y, p)
  {
    if 0.0 <= x {
      ScaledMonotone(x, y, p);
      DivideMonotone(Scaled(x, p) as real, Scaled(y, p) as real, p);
    } else if 0.0 <= y {
      NonNegativeQuotient(Scaled(-x, p) as real, p);
      NonNegativeQuotient(Scaled(y, p) as real, p);
    } else {
      ScaledMonotone(-y, -x, p);
      DivideMonotone(Scaled(-y, p) as real, Scaled(-x, p) as real, p);
    }
  }

  lemma ScaledMonotone(x: real, y: real, p: real)
    requires x <= y && p > 0.0
    ensures Scaled(x, p) <= Scaled(y, p)
  {
    ScaleMonotone(x, y, p);
    IntegerGap(Scaled(x, p), Scaled(y, p));
  }

  lemma IntegerGap(a: int, b: int)
    requires a as real < b as real + 1.0
    ensures a <= b
  {
  }

  lemma FloorMonotone(a: real, b: real)
    requires a <= b
    ensures a.Floor <= b.Floor
  {
  }

  lemma HalfAboveFloor(k: int)
    ensures (k as real + 0.5).Floor == k
  {
  }

  lemma Unscale(x: real, p: real)
    requires p > 0.0
    ensures x / p * p == x
  {
  }

  lemma Scale(x: real, p: real)
    requires p > 0.0
    ensures x * p / p == x
  {
  }

  lemma Distribute(a: real, b: real, p: real)
    ensures (a - b) * p == a * p - b * p
  {
  }

  lemma ScaleMonotone(x: real, y: real, p: real)
    requires x <= y && p > 0.0
    ensures x * p <= y * p
  {
  }

  lemma DivideMonotone(a: real, b: real, p: real)
    requires a <= b && p > 0.0
    ensures a / p <= b / p
  {
  }

  lemma NonNegativeQuotient(a: real, p: real)
    requires a >= 0.0 && p > 0.0
    ensures a / p >= 0.0
  {
  }

  /** `Math.round(x)`: the nearest integer, ties towards +Infinity. */
  function MathRound(x: real): (n: int)
    ensures n as real - 0.5 <= x < n as real + 0.5
  {
    (x + 0.5).Floor
  }

  /** A JavaScript number that may also be NaN or an infinity. */
  datatype JsNumber = Num(value: real) | NaN | PosInfinity | NegInfinity

  /** `a / b` in JavaScript: dividing by zero yields an infinity or NaN instead of failing. */
  function Divide(a: real, b: real): (r: JsNumber)
    ensures b != 0.0 ==> r == Num(a / b)
    ensures b == 0.0 ==> (r.PosInfinity? <==> a > 0.0) && (r.NegInfinity? <==> a < 0.0) && (r.NaN? <==> a == 0.0)
  {
    if b != 0.0 then Num(a / b)
    else if a > 0.0 then PosInfinity
    else if a < 0.0 then NegInfinity
    else NaN
  }

  /** `x * k` for a positive finite `k`. */
  function Times(x: JsNumber, k: real): JsNumber
    requires k > 0.0
  {
    match x
    case Num(v) => Num(v * k)
    case _ => x
  }

  /** `x > c`; every comparison with NaN is false. */
  predicate Above(x: JsNumber, c: real) {
    match x
    case Num(v) => v > c
    case PosInfinity => true
    case _ => false
  }

  /** `x < c`; every comparison with NaN is false. */
  predicate Below(x: JsNumber, c: real) {
    match x
    case Num(v) => v < c
    case NegInfinity => true
    case _ => false
  }

  /** `Number(x.toFixed(digits))` on a value that may be NaN or infinite (those pass through). */
  function ToFixedNumber(x: JsNumber, digits: nat): JsNumber {
    match x
    case Num(v) => Num(ToFixed(v, digits))
    case _ => x
  }

  /** Decimal rendering of a natural number, as in a template literal. */
  function NatToString(n: nat): (s: string)
    ensures s != [] && AllDigits(s)
  {
    if n < 10 then [('0' as int + n) as char]
    else NatToString(n / 10) + [('0' as int + n % 10) as char]
  }

  /** Decimal rendering of an integer, as in a template literal. */
  function IntToString(n: int): (s: string)
    ensures s != []
    ensures n >= 0 ==> AllDigits(s)
    ensures n < 0 ==> s[0] == '-' && AllDigits(s[1..])
  {
    if n >= 0 then NatToString(n) else "-" + NatToString(-n)
  }

  // ---------------------------------------------------------------------------
  // Calendar dates
  // ---------------------------------------------------------------------------

  datatype CalendarDate = CalendarDate(year: int, month: int, day: int)

  /** A date that `toISOString` renders with a four-digit year. */
  type Date = d: CalendarDate | 0 <= d.year <= 9999 && 1 <= d.month <= 12 && 1 <= d.day <= 31
    witness CalendarDate(1970, 1, 1)

  /** The shape `\d{4}-\d{2}-\d{2}`. */
  predicate IsIsoDateShape(s: string) {
    |s| == 10 && s[4] == '-' && s[7] == '-'
    && IsDigit(s[0]) && IsDigit(s[1]) && IsDigit(s[2]) && IsDigit(s[3])
    && IsDigit(s[5]) && IsDigit(s[6]) && IsDigit(s[8]) && IsDigit(s[9])
  }

  /** `n` as exactly `width` decimal digits, zero-padded on the left. */
  function Padded(n: nat, width: nat): (s: string)
    requires n < Pow10(width)
    ensures |s| == width && AllDigits(s)
  {
    if width == 0 then [] else Padded(n / 10, width - 1) + [('0' as int + n % 10) as char]
  }

  /** `date.toISOString().split("T")[0]`. */
  function IsoDate(d: Date): (s: string)
    ensures IsIsoDateShape(s)
  {
    Padded(d.year, 4) + "-" + Padded(d.month, 2) + "-" + Padded(d.day, 2)
  }
}
