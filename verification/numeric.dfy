/**
 * JavaScript number behaviour the formatter and calculators depend on:
 * IEEE-754 division by zero (infinities and NaN) with the comparisons the
 * source applies to its results, and `Number.prototype.toFixed`.
 *
 * Exchange values are modelled as exact reals; a finite result is `Finite(v)`.
 */
module Numeric {
  import opened Text

  /** A JavaScript number that may have come out of a division by zero. */
  datatype Ext = Finite(v: real) | PosInf | NegInf | NaN

  /** `a / b` under IEEE-754: a zero divisor yields an infinity or NaN. */
  function Div(a: real, b: real): (r: Ext)
    ensures b != 0.0 ==> r == Finite(a / b)
    ensures b == 0.0 ==> (r == PosInf <==> a > 0.0) && (r == NegInf <==> a < 0.0) && (r == NaN <==> a == 0.0)
  {
    if b != 0.0 then Finite(a / b)
    else if a > 0.0 then PosInf
    else if a < 0.0 then NegInf
    else NaN
  }

  /** `e * c` for a finite factor `c`. */
  function Times(e: Ext, c: real): Ext {
    match e
    case Finite(v) => Finite(v * c)
    case PosInf => if c > 0.0 then PosInf else if c < 0.0 then NegInf else NaN
    case NegInf => if c > 0.0 then NegInf else if c < 0.0 then PosInf else NaN
    case NaN => NaN
  }

  /** The sign of a non-NaN number: -1, 0 or 1. */
  function Sign(e: Ext): int {
    match e
    case Finite(v) => if v > 0.0 then 1 else if v < 0.0 then -1 else 0
    case PosInf => 1
    case NegInf => -1
    case NaN => 0
  }

  /** An infinity of the given sign. */
  function Infinity(sign: int): Ext {
    if sign > 0 then PosInf else NegInf
  }

  /** `-e`. */
  function Neg(e: Ext): Ext {
    match e
    case Finite(v) => Finite(-v)
    case PosInf => NegInf
    case NegInf => PosInf
    case NaN => NaN
  }

  /** `a + b`: opposite infinities give NaN. */
  function Add(a: Ext, b: Ext): (r: Ext)
    ensures a.Finite? && b.Finite? ==> r == Finite(a.v + b.v)
  {
    if a.NaN? || b.NaN? then NaN
    else if a.Finite? && b.Finite? then Finite(a.v + b.v)
    else if a.Finite? then b
    else if b.Finite? then a
    else if a == b then a
    else NaN
  }

  /** `a - b`. */
  function Sub(a: Ext, b: Ext): (r: Ext)
    ensures a.Finite? && b.Finite? ==> r == Finite(a.v - b.v)
  {
    Add(a, Neg(b))
  }

  /** `a * b`: an infinity times zero gives NaN. */
  function Mul(a: Ext, b: Ext): (r: Ext)
    ensures a.Finite? && b.Finite? ==> r == Finite(a.v * b.v)
    ensures b.Finite? ==> r == Times(a, b.v)
  {
    if a.NaN? || b.NaN? then NaN
    else if a.Finite? && b.Finite? then
      assert Times(a, b.v) == Finite(a.v * b.v);
      Finite(a.v * b.v)
    else if Sign(a) == 0 || Sign(b) == 0 then NaN
    else Infinity(Sign(a) * Sign(b))
  }

  /**
   * `a / b`: division by a finite number as in `Div`, a finite number over an
   * infinity is zero, an infinity over an infinity is NaN. The sign of zero
   * is not modelled, so an infinity over zero keeps the numerator's sign.
   */
  function Quot(a: Ext, b: Ext): (r: Ext)
    ensures a.Finite? && b.Finite? ==> r == Div(a.v, b.v)
  {
    if a.NaN? || b.NaN? then NaN
    else if a.Finite? && b.Finite? then Div(a.v, b.v)
    else if a.Finite? then Finite(0.0)
    else if !b.Finite? then NaN
    else if b.v == 0.0 then a
    else Infinity(Sign(a) * Sign(b))
  }

  /** `Math.floor`: the greatest whole number not above a finite value. */
  function Floor(e: Ext): (r: Ext)
    ensures e.Finite? ==> r.Finite? && r.v == r.v.Floor as real && r.v <= e.v < r.v + 1.0
    ensures !e.Finite? ==> r == e
  {
    match e
    case Finite(v) => Finite(v.Floor as real)
    case _ => e
  }

  /** `e1 < e2` for numbers that are not NaN. */
  predicate Below(a: Ext, b: Ext)
    requires !a.NaN? && !b.NaN?
  {
    match a
    case NegInf => !b.NegInf?
    case PosInf => false
    case Finite(x) => b.PosInf? || (b.Finite? && x < b.v)
  }

  /** `Math.max(a, b)`: NaN when either is NaN. */
  function Max(a: Ext, b: Ext): (r: Ext)
    ensures a.Finite? && b.Finite? ==> r.Finite? && r.v >= a.v && r.v >= b.v && (r.v == a.v || r.v == b.v)
  {
    if a.NaN? || b.NaN? then NaN
    else if Below(a, b) then b
    else a
  }

  function AbsReal(x: real): (r: real)
    ensures r >= 0.0 && (r == x || r == -x)
  {
    if x < 0.0 then -x else x
  }

  /** `Math.abs`. */
  function Abs(e: Ext): Ext {
    match e
    case Finite(v) => Finite(AbsReal(v))
    case PosInf => PosInf
    case NegInf => PosInf
    case NaN => NaN
  }

  /** `e > c`; every comparison with NaN is false. */
  predicate Gt(e: Ext, c: real) {
    match e
    case Finite(v) => v > c
    case PosInf => true
    case NegInf => false
    case NaN => false
  }

  /** `e < c`. */
  predicate Lt(e: Ext, c: real) {
    match e
    case Finite(v) => v < c
    case PosInf => false
    case NegInf => true
    case NaN => false
  }

  /** `e >= c`. */
  predicate Ge(e: Ext, c: real) {
    match e
    case Finite(v) => v >= c
    case PosInf => true
    case NegInf => false
    case NaN => false
  }

  /** NaN fails every comparison, so a chain of `>` bands ends in its last branch. */
  lemma NaNComparesFalse(c: real)
    ensures !Gt(NaN, c) && !Lt(NaN, c) && !Ge(NaN, c)
  {
  }

  function Pow10(d: nat): (p: nat)
    ensures p >= 1
  {
    if d == 0 then 1 else 10 * Pow10(d - 1)
  }

  /** Round half up of `a * 10^d`, the integer `toFixed` renders. */
  function RoundScaled(a: real, d: nat): (n: nat)
    requires a >= 0.0
  {
    Round(a * (Pow10(d) as real))
  }

  /** Round half up of a non-negative real. */
  function Round(y: real): (n: nat)
    requires y >= 0.0
    ensures (n as real) <= y + 0.5 < (n as real) + 1.0
  {
    (y + 0.5).Floor
  }

  /**
   * `x.toFixed(d)`: a '-' for negative x (even when the rounded value is zero),
   * the integer digits, and for d > 0 a '.' and exactly d fraction digits.
   */
  function ToFixed(x: real, d: nat): string {
    (if x < 0.0 then "-" else "") + ScaledDigits(RoundScaled(AbsReal(x), d), d)
  }

  /**
   * The digits of `n` left-padded with '0' to more than d characters, with a '.'
   * inserted before the last d of them when d > 0: `n / 10^d` in fixed notation.
   */
  function ScaledDigits(n: nat, d: nat): string {
    var m := PadZeros(NatToString(n), d + 1);
    if d == 0 then m else m[..|m| - d] + "." + m[|m| - d..]
  }

  /** `toFixed` of a possibly non-finite number: non-finite values render as `String(x)`. */
  function ExtToFixed(e: Ext, d: nat): string {
    match e
    case Finite(v) => ToFixed(v, d)
    case PosInf => "Infinity"
    case NegInf => "-Infinity"
    case NaN => "NaN"
  }

  /** Rounding `a * 10^d` to the nearest integer n puts n / 10^d within half of 1 / 10^d of a. */
  lemma HalfUnit(a: real, d: nat, q: real)
    requires a >= 0.0 && q == (RoundScaled(a, d) as real) / (Pow10(d) as real)
    ensures -0.5 / (Pow10(d) as real) < q - a <= 0.5 / (Pow10(d) as real)
  {
    var n, pr := RoundScaled(a, d) as real, Pow10(d) as real;
    ScaledError(a, pr, n, n - a * pr);
  }

  /** An error e of the scaled value becomes e / p once scaled back. */
  lemma ScaledError(a: real, pr: real, n: real, e: real)
    requires pr >= 1.0 && n <= a * pr + 0.5 < n + 1.0 && e == n - a * pr
    ensures -0.5 / pr < n / pr - a <= 0.5 / pr
  {
    assert n / pr - a == e / pr;
    DivideBounds(e, pr);
  }

  /** Dividing by a positive p keeps the bounds of a half-open interval around zero. */
  lemma DivideBounds(e: real, pr: real)
    requires pr > 0.0 && -0.5 < e <= 0.5
    ensures -0.5 / pr < e / pr <= 0.5 / pr
  {
    assert e / pr - (-0.5 / pr) == (e + 0.5) / pr;
    assert 0.5 / pr - e / pr == (0.5 - e) / pr;
  }

  /** Value of fixed-notation digits: integer digits `a` and d fraction digits `b`. */
  function FixedValue(a: string, b: string): real
    requires AllDigits(a) && AllDigits(b)
  {
    (ParseNat(a) as real) + (ParseNat(b) as real) / (Pow10(|b|) as real)
  }

  /**
   * `s` reads as `x` rounded to d fraction digits: a '-' exactly for negative x,
   * then digits '.' d digits whose value is within half a unit in the last
   * place of |x|.
   */
  predicate ReadsAsFixed(s: string, x: real, d: nat, a: string, b: string) {
    && s == (if x < 0.0 then "-" else "") + a + "." + b
    && AllDigits(a) && AllDigits(b) && |a| > 0 && |b| == d
    && -0.5 / (Pow10(d) as real) < FixedValue(a, b) - AbsReal(x) <= 0.5 / (Pow10(d) as real)
  }

  /** What `toFixed` text denotes. */
  lemma ToFixedDenotes(x: real, d: nat)
    requires d > 0
    ensures exists a: string, b: string :: ReadsAsFixed(ToFixed(x, d), x, d, a, b)
  {
    var a, b := ToFixedParts(x, d);
    HalfUnit(AbsReal(x), d, FixedValue(a, b));
    assert ReadsAsFixed(ToFixed(x, d), x, d, a, b);
  }

  /** `toFixed` text is a sign, the digits before the '.', and d digits after it. */
  lemma ToFixedParts(x: real, d: nat) returns (a: string, b: string)
    requires d > 0
    ensures ToFixed(x, d) == (if x < 0.0 then "-" else "") + a + "." + b
    ensures AllDigits(a) && AllDigits(b) && |a| > 0 && |b| == d
    ensures FixedValue(a, b) == (RoundScaled(AbsReal(x), d) as real) / (Pow10(d) as real)
  {
    var n := RoundScaled(AbsReal(x), d);
    a, b := ScaledDigitsParts(n, d);
    var sign := if x < 0.0 then "-" else "";
    assert sign + (a + "." + b) == sign + a + "." + b;
  }

  lemma ScaledDigitsParts(n: nat, d: nat) returns (a: string, b: string)
    requires d > 0
    ensures ScaledDigits(n, d) == a + "." + b
    ensures AllDigits(a) && AllDigits(b) && |a| > 0 && |b| == d
    ensures (ParseNat(a) as real) + (ParseNat(b) as real) / (Pow10(d) as real) == (n as real) / (Pow10(d) as real)
  {
    a, b := ScaledDigitsSplit(n, d);
    ShiftReal(ParseNat(a), ParseNat(b), Pow10(d));
  }

  /** The two sides of the '.' read back as the quotient and remainder of `n` by 10^d. */
  lemma ScaledDigitsSplit(n: nat, d: nat) returns (a: string, b: string)
    requires d > 0
    ensures ScaledDigits(n, d) == a + "." + b
    ensures AllDigits(a) && AllDigits(b) && |a| > 0 && |b| == d
    ensures n == ParseNat(a) * Pow10(d) + ParseNat(b)
  {
    var m := PadZeros(NatToString(n), d + 1);
    assert ScaledDigits(n, d) == m[..|m| - d] + "." + m[|m| - d..];
    PaddedValue(n, d + 1);
    a := m[..|m| - d];
    b := m[|m| - d..];
    DigitsParts(m, |m| - d);
    ParseSplit(m, d);
  }

  lemma PaddedValue(n: nat, width: nat)
    ensures AllDigits(PadZeros(NatToString(n), width)) && ParseNat(PadZeros(NatToString(n), width)) == n
  {
    ParseNatToString(n);
    ParsePadZeros(NatToString(n), width);
  }

  lemma DigitsParts(m: string, k: nat)
    requires AllDigits(m) && k <= |m|
    ensures AllDigits(m[..k]) && AllDigits(m[k..])
  {
    assert forall i :: 0 <= i < |m[k..]| ==> m[k..][i] == m[k + i];
  }

  lemma ShiftReal(hi: nat, lo: nat, p: nat)
    requires p >= 1
    ensures (hi as real) + (lo as real) / (p as real) == ((hi * p + lo) as real) / (p as real)
  {
    var pr := p as real;
    assert ((hi * p + lo) as real) == (hi as real) * pr + (lo as real);
    assert ((hi as real) * pr + (lo as real)) / pr == (hi as real) + (lo as real) / pr;
  }

  /** The value of a digit string is its head's value shifted by k digits plus its last k digits' value. */
  lemma {:induction false} ParseSplit(s: string, k: nat)
    requires AllDigits(s) && k <= |s|
    ensures ParseNat(s) == ParseNat(s[..|s| - k]) * Pow10(k) + ParseNat(s[|s| - k..])
    decreases k
  {
    if k == 0 {
      assert s[..|s|] == s;
      assert s[|s|..] == [];
    } else {
      var t := s[..|s| - 1];
      ParseSplit(t, k - 1);
      assert t[..|t| - (k - 1)] == s[..|s| - k];
      var tail := s[|s| - k..];
      assert tail[..|tail| - 1] == s[|s| - k..|s| - 1];
      assert t[|t| - (k - 1)..] == s[|s| - k..|s| - 1];
      assert tail[|tail| - 1] == s[|s| - 1];
      var hi := ParseNat(s[..|s| - k]);
      var lo := ParseNat(t[|t| - (k - 1)..]);
      var d := DigitValue(s[|s| - 1]);
      assert ParseNat(tail) == 10 * lo + d;
      assert ParseNat(s) == 10 * ParseNat(t) + d;
      ShiftDigit(hi, Pow10(k - 1), lo, d);
    }
  }

  lemma ShiftDigit(hi: nat, p: nat, lo: nat, d: nat)
    ensures 10 * (hi * p + lo) + d == hi * (10 * p) + (10 * lo + d)
  {
  }

  /** The first character of `toFixed` text: '-' for negatives, a digit otherwise. */
  lemma ToFixedFirstChar(x: real, d: nat)
    ensures |ToFixed(x, d)| > 0
    ensures x < 0.0 ==> ToFixed(x, d)[0] == '-'
    ensures x >= 0.0 ==> IsDigit(ToFixed(x, d)[0])
  {
  }

  /**
   * `/\.?0+$/` removed once: trailing zeros, and the '.' before them when they
   * were the whole fraction.
   */
  function StripZeros(s: string): (r: string)
    ensures |r| <= |s| && StartsWith(s, r)
    ensures |r| < |s| ==> s[|s| - 1] == '0' && (s[|r|] == '0' || s[|r|] == '.')
    ensures forall i :: |r| < i < |s| ==> s[i] == '0'
  {
    var t := DropTrailingZeros(s);
    if |t| < |s| && |t| > 0 && t[|t| - 1] == '.' then t[..|t| - 1] else t
  }

  function DropTrailingZeros(s: string): (r: string)
    ensures |r| <= |s| && StartsWith(s, r)
    ensures |r| > 0 ==> r[|r| - 1] != '0'
    ensures forall i :: |r| <= i < |s| ==> s[i] == '0'
    decreases |s|
  {
    if |s| > 0 && s[|s| - 1] == '0' then DropTrailingZeros(s[..|s| - 1]) else s
  }

  /**
   * `String(x)` for the numbers quoted in validation messages: the exact decimal
   * expansion to at most 20 fraction digits, without trailing zeros.
   */
  function ShowNumber(x: real): string {
    StripZeros(ToFixed(x, 20))
  }
}
