/**
 * Number display of `ResultFormatter` (src/utils/formatter.ts): `formatNumber`,
 * `formatPrice`, `formatQuantity` and `formatPercentage`, over exact reals.
 */
module Formatting {
  import opened Text
  import opened Numeric

  /** Inserts ',' between groups of three digits counted from the right (en-US grouping). */
  function Group(digits: string): string
    decreases |digits|
  {
    if |digits| <= 3 then digits else Group(digits[..|digits| - 3]) + "," + digits[|digits| - 3..]
  }

  /** The text with every ',' removed. */
  function RemoveCommas(s: string): (r: string)
    ensures ',' !in r
    decreases |s|
  {
    if |s| == 0 then ""
    else RemoveCommas(s[..|s| - 1]) + (if s[|s| - 1] == ',' then "" else [s[|s| - 1]])
  }

  lemma {:induction false} RemoveCommasAppend(a: string, b: string)
    ensures RemoveCommas(a + b) == RemoveCommas(a) + RemoveCommas(b)
    decreases |b|
  {
    if |b| == 0 {
      assert a + b == a;
    } else {
      assert (a + b)[..|a + b| - 1] == a + b[..|b| - 1];
      RemoveCommasAppend(a, b[..|b| - 1]);
    }
  }

  lemma {:induction false} RemoveCommasNone(s: string)
    requires ',' !in s
    ensures RemoveCommas(s) == s
    decreases |s|
  {
    if |s| > 0 {
      var t, c := s[..|s| - 1], s[|s| - 1];
      assert s == t + [c];
      assert ',' !in t;
      RemoveCommasNone(t);
      assert RemoveCommas(s) == RemoveCommas(t) + [c];
    }
  }

  /** Dropping the grouping separators gives back the digits. */
  lemma {:induction false} GroupRoundTrip(digits: string)
    requires ',' !in digits
    ensures RemoveCommas(Group(digits)) == digits
    decreases |digits|
  {
    if |digits| <= 3 {
      RemoveCommasNone(digits);
    } else {
      var hi := digits[..|digits| - 3];
      var lo := digits[|digits| - 3..];
      assert forall c | c in hi :: c in digits;
      assert forall c | c in lo :: c in digits;
      GroupRoundTrip(hi);
      RemoveCommasNone(lo);
      CommaRemoved(Group(hi), lo);
      assert hi + lo == digits;
    }
  }

  lemma CommaRemoved(a: string, b: string)
    ensures RemoveCommas(a + "," + b) == RemoveCommas(a) + RemoveCommas(b)
  {
    RemoveCommasAppend(a + ",", b);
    RemoveCommasAppend(a, ",");
    RemoveCommasComma();
  }

  lemma RemoveCommasComma()
    ensures RemoveCommas(",") == ""
  {
    assert ","[..0] == "";
  }

  /**
   * `x.toLocaleString('en-US', { minimumFractionDigits: 0, maximumFractionDigits: 2 })`:
   * rounded half away from zero to cents, grouped integer digits, and the cents
   * without trailing zeros (none when they are zero).
   */
  function LocaleString(x: real): string {
    var n := Round(AbsReal(x) * 100.0);
    var cents := n % 100;
    (if x < 0.0 then "-" else "")
    + Group(NatToString(n / 100))
    + (if cents == 0 then "" else "." + DropTrailingZeros(PadZeros(NatToString(cents), 2)))
  }

  /**
   * `formatNumber(num, decimals)`: zero renders as "0"; below 1 in magnitude,
   * `toFixed(decimals)` without trailing zeros; from 1000 up, en-US grouping
   * with at most two decimals; otherwise `toFixed(2)` without trailing zeros.
   */
  function FormatNumber(x: real, decimals: nat): (s: string)
    ensures x == 0.0 ==> s == "0"
  {
    if x == 0.0 then "0"
    else if AbsReal(x) < 1.0 then StripZeros(ToFixed(x, decimals))
    else if AbsReal(x) >= 1000.0 then LocaleString(x)
    else StripZeros(ToFixed(x, 2))
  }

  /** `formatNumber` of a value that may be NaN or infinite: NaN renders as "0". */
  function FormatNumberExt(e: Ext, decimals: nat): (s: string)
    ensures e == NaN || e == Finite(0.0) ==> s == "0"
  {
    match e
    case Finite(x) => FormatNumber(x, decimals)
    case NaN => "0"
    case PosInf => "∞"
    case NegInf => "-∞"
  }

  /** `formatPrice(price, symbol)`: two decimals, and " USDT" when the symbol mentions USDT. */
  function FormatPrice(price: real, symbol: string): (s: string)
    ensures Contains(symbol, "USDT") ==> s == FormatNumber(price, 2) + " USDT"
    ensures !Contains(symbol, "USDT") ==> s == FormatNumber(price, 2)
  {
    var formatted := FormatNumber(price, 2);
    if Contains(symbol, "USDT") then formatted + " USDT" else formatted
  }

  /** `formatQuantity(quantity, asset)`: eight decimals, and the asset when one is given. */
  function FormatQuantity(quantity: real, asset: string): (s: string)
    ensures asset != "" ==> s == FormatNumber(quantity, 8) + " " + asset
    ensures asset == "" ==> s == FormatNumber(quantity, 8)
  {
    var formatted := FormatNumber(quantity, 8);
    if asset != "" then formatted + " " + asset else formatted
  }

  /** `formatPercentage(percent)`: a '+' for non-negative values, `toFixed(2)`, then '%'. */
  function FormatPercentage(percent: Ext): string {
    (if Ge(percent, 0.0) then "+" else "") + ExtToFixed(percent, 2) + "%"
  }

  /**
   * The percentage text starts with '+' exactly when the value is >= 0 (so not
   * for NaN), and always ends with '%'.
   */
  lemma FormatPercentageSign(percent: Ext)
    ensures StartsWith(FormatPercentage(percent), "+") <==> Ge(percent, 0.0)
    ensures EndsWith(FormatPercentage(percent), "%")
  {
    var body := ExtToFixed(percent, 2);
    if percent.Finite? {
      ToFixedFirstChar(percent.v, 2);
    }
    assert |body| > 0 && body[0] != '+';
    SignedText(Ge(percent, 0.0), body);
  }

  /** An optional '+', a body that does not start with '+', then '%'. */
  lemma SignedText(plus: bool, body: string)
    requires |body| > 0 && body[0] != '+'
    ensures var s := (if plus then "+" else "") + body + "%";
      (StartsWith(s, "+") <==> plus) && EndsWith(s, "%")
  {
    var s := (if plus then "+" else "") + body + "%";
    assert s[|s| - 1..] == "%";
    if !plus {
      assert s[0] == body[0];
    }
  }

  /** Past the sign, a finite percentage reads as the value rounded to two decimals. */
  lemma FormatPercentageDenotes(x: real)
    ensures exists a: string, b: string ::
      FormatPercentage(Finite(x)) == (if x >= 0.0 then "+" else "") + ToFixed(x, 2) + "%"
      && ReadsAsFixed(ToFixed(x, 2), x, 2, a, b)
  {
    ToFixedDenotes(x, 2);
    var a, b :| ReadsAsFixed(ToFixed(x, 2), x, 2, a, b);
  }
}
