/**
 * `ParameterValidator` (src/utils/validation.ts): per-kind checks of tool
 * arguments, the rule-driven `validateParameters` that combines them, and the
 * rendering of its errors and warnings.
 */
module Validation {
  import opened Wrappers
  import opened Text
  import opened Values

  /**
   * A `ValidationResult`. An absent `warnings`/`suggestions` list is the empty
   * list. `Crashed` is the TypeError `toUpperCase` throws when a string
   * validator is handed a truthy non-string; it propagates to the caller.
   */
  datatype Outcome<D> =
    | Valid(data: D, warnings: seq<string>)
    | Invalid(error: string, suggestions: seq<string>, warnings: seq<string>)
    | Crashed(message: string)

  const UppercasedWarning := "已自动转换为大写格式"

  // ---------------------------------------------------------------- symbol

  const SymbolRequired := "交易对参数为必填项，请提供如\"BTCUSDT\"、\"ETHUSDT\"等有效交易对。"
  const SymbolRequiredHints := [
    "主流交易对：BTCUSDT, ETHUSDT, BNBBUSD",
    "山寨币交易对：ADAUSDT, DOTUSDT, LINKUSDT",
    "请确保交易对格式正确，如：基础币种+计价币种"
  ]
  const SymbolFormatHints := [
    "标准格式：基础币种 + 计价币种",
    "常用计价币：USDT, BTC, ETH, BNB",
    "示例：BTCUSDT（比特币兑USDT）, ETHBTC（以太坊兑比特币）"
  ]

  function SymbolFormatError(symbol: string): string {
    "交易对格式不正确: \"" + symbol + "\"。请使用标准格式，如BTCUSDT。"
  }

  predicate UpperLetters(s: string) {
    forall i :: 0 <= i < |s| ==> IsUpperAscii(s[i])
  }

  /** The quote currencies the symbol pattern accepts (`USDT?`, BTC, ETH, BNB). */
  predicate IsQuote(q: string) {
    q == "USD" || q == "USDT" || q == "BTC" || q == "ETH" || q == "BNB"
  }

  /**
   * The language of the symbol pattern: 2 to 10 capital letters followed by a
   * quote currency.
   */
  predicate SymbolPattern(u: string) {
    exists k :: 2 <= k <= 10 && k <= |u| && UpperLetters(u[..k]) && IsQuote(u[k..])
  }

  /** A direct test of the symbol pattern on the upper-cased symbol. */
  predicate IsSymbol(u: string) {
    && UpperLetters(u)
    && ((6 <= |u| <= 14 && EndsWith(u, "USDT"))
        || (5 <= |u| <= 13 && (EndsWith(u, "USD") || EndsWith(u, "BTC") || EndsWith(u, "ETH") || EndsWith(u, "BNB"))))
  }

  /** The direct test accepts exactly the pattern's language. */
  lemma IsSymbolMatchesPattern(u: string)
    ensures IsSymbol(u) <==> SymbolPattern(u)
  {
    if IsSymbol(u) {
      IsSymbolHasSplit(u);
    }
    if SymbolPattern(u) {
      var k :| 2 <= k <= 10 && k <= |u| && UpperLetters(u[..k]) && IsQuote(u[k..]);
      SplitIsSymbol(u, k);
    }
  }

  lemma IsSymbolHasSplit(u: string)
    requires IsSymbol(u)
    ensures SymbolPattern(u)
  {
    var k := if 6 <= |u| <= 14 && EndsWith(u, "USDT") then |u| - 4 else |u| - 3;
    assert u[k..] == u[|u| - (|u| - k)..];
    assert IsQuote(u[k..]);
    forall i | 0 <= i < k ensures IsUpperAscii(u[..k][i]) {
      assert u[..k][i] == u[i];
    }
  }

  lemma SplitIsSymbol(u: string, k: int)
    requires 2 <= k <= 10 && k <= |u| && UpperLetters(u[..k]) && IsQuote(u[k..])
    ensures IsSymbol(u)
  {
    var q := u[k..];
    assert u == u[..k] + q;
    forall i | 0 <= i < |u| ensures IsUpperAscii(u[i]) {
      if i < k {
        assert u[i] == u[..k][i];
      } else {
        assert u[i] == q[i - k];
        assert IsUpperAscii(q[i - k]);
      }
    }
    assert EndsWith(u, q);
  }

  /** `validateSymbol(symbol, required)`. */
  function ValidateSymbol(v: Value, required: bool): (r: Outcome<Value>)
    ensures r.Valid? <==> (!Truthy(v) && !required) || (v.Str? && v.s != "" && SymbolPattern(ToUpper(v.s)))
    ensures r.Crashed? <==> Truthy(v) && !v.Str?
    ensures r.Valid? && Truthy(v) ==>
      r.data == Str(ToUpper(v.s)) && (r.warnings == [UppercasedWarning] <==> HasLowerAscii(v.s))
      && (r.warnings == [] <==> !HasLowerAscii(v.s))
    ensures r.Valid? && !Truthy(v) ==> r == Valid(Null, [])
    ensures r.Invalid? && !Truthy(v) ==> r == Invalid(SymbolRequired, SymbolRequiredHints, [])
    ensures r.Invalid? && Truthy(v) ==> r == Invalid(SymbolFormatError(v.s), SymbolFormatHints, [])
  {
    if !Truthy(v) then
      if required then Invalid(SymbolRequired, SymbolRequiredHints, []) else Valid(Null, [])
    else if !v.Str? then
      Crashed("symbol.toUpperCase is not a function")
    else
      var u := ToUpper(v.s);
      IsSymbolMatchesPattern(u);
      ToUpperChanges(v.s);
      if !IsSymbol(u) then Invalid(SymbolFormatError(v.s), SymbolFormatHints, [])
      else Valid(Str(u), if v.s != u then [UppercasedWarning] else [])
  }

  // ---------------------------------------------------------- price, quantity

  const PriceRequired := "价格参数为必填项，请提供有效的价格数值。"
  const PriceRequiredHints := ["价格必须为正数，如：43250.50", "支持小数点，精度根据交易对而定", "建议参考当前市价设置合理价格"]
  const PricePositiveHints := ["价格必须大于0", "请检查数值格式，确保为有效数字", "避免使用负数或零作为价格"]
  const PriceHighWarning := "价格异常高，请确认是否正确"
  const MaxPrice: real := 10000000.0

  /** `validatePrice(price, required)`. */
  function ValidatePrice(v: Value, required: bool): (r: Outcome<Value>)
    ensures !r.Crashed?
    ensures r.Valid? <==> (Nullish(v) && !required) || (v.Num? && 0.0 < v.x <= MaxPrice)
    ensures r.Valid? ==> r.warnings == [] && r.data == (if Nullish(v) then Null else v)
    ensures r.Invalid? && !Nullish(v) && v.Num? && v.x > MaxPrice ==>
      r.suggestions == [] && r.warnings == [PriceHighWarning]
    ensures r.Invalid? && !Nullish(v) && (!v.Num? || v.x <= 0.0) ==>
      r.error == "价格必须为正数，当前值: " + Show(v) && r.suggestions == PricePositiveHints
  {
    if Nullish(v) then
      if required then Invalid(PriceRequired, PriceRequiredHints, []) else Valid(Null, [])
    else if !v.Num? || v.x <= 0.0 then
      Invalid("价格必须为正数，当前值: " + Show(v), PricePositiveHints, [])
    else if v.x > MaxPrice then
      Invalid("价格过高: " + Show(v) + "，请检查是否输入正确。", [], [PriceHighWarning])
    else
      Valid(v, [])
  }

  const QuantityRequired := "数量参数为必填项，请提供有效的交易数量。"
  const QuantityRequiredHints := ["数量必须为正数，如：0.1, 1.5, 100", "注意各交易对的最小下单量限制", "建议查看交易对规则确定合适数量"]
  const QuantityPositiveHints := ["数量必须大于0", "请检查数值格式，确保为有效数字", "避免使用负数或零作为数量"]
  const QuantitySmallHints := ["检查交易对的最小下单量要求", "建议使用binance_check_order_precision工具验证"]
  const MinQuantity: real := 0.000001

  /** `validateQuantity(quantity, required)`. */
  function ValidateQuantity(v: Value, required: bool): (r: Outcome<Value>)
    ensures !r.Crashed?
    ensures r.Valid? <==> (Nullish(v) && !required) || (v.Num? && v.x >= MinQuantity)
    ensures r.Valid? ==> r.warnings == [] && r.data == (if Nullish(v) then Null else v)
    ensures r.Invalid? && v.Num? && 0.0 < v.x < MinQuantity ==>
      r.error == "数量过小: " + Show(v) + "，可能低于最小交易限制。" && r.suggestions == QuantitySmallHints
  {
    if Nullish(v) then
      if required then Invalid(QuantityRequired, QuantityRequiredHints, []) else Valid(Null, [])
    else if !v.Num? || v.x <= 0.0 then
      Invalid("数量必须为正数，当前值: " + Show(v), QuantityPositiveHints, [])
    else if v.x < MinQuantity then
      Invalid("数量过小: " + Show(v) + "，可能低于最小交易限制。", QuantitySmallHints, [])
    else
      Valid(v, [])
  }

  // ---------------------------------------------------------------- leverage

  const LeverageDefaultWarning := "未指定杠杆倍数，默认使用1倍（无杠杆）"
  const LeverageHints := ["新手建议使用1-5倍杠杆", "专业交易者可使用10-20倍", "高风险操作可使用更高杠杆，但需严格风控"]
  const LeverageHighWarning := "⚠️ 高杠杆风险：超过20倍杠杆风险极高，请谨慎使用"
  const LeverageMediumWarning := "⚠️ 中高风险：超过10倍杠杆，建议加强风险管理"

  /** `validateLeverage(leverage)`: absent means 1x; at most one risk warning. */
  function ValidateLeverage(v: Value): (r: Outcome<Value>)
    ensures !r.Crashed?
    ensures r.Valid? <==> Nullish(v) || (v.Num? && 1.0 <= v.x <= 125.0)
    ensures Nullish(v) ==> r == Valid(Num(1.0), [LeverageDefaultWarning])
    ensures r.Valid? && !Nullish(v) ==>
      && r.data == v
      && (r.warnings == [LeverageHighWarning] <==> v.x > 20.0)
      && (r.warnings == [LeverageMediumWarning] <==> 10.0 < v.x <= 20.0)
      && (r.warnings == [] <==> v.x <= 10.0)
    ensures r.Invalid? ==> r.error == "杠杆倍数必须在1-125之间，当前值: " + Show(v) && r.suggestions == LeverageHints
  {
    if Nullish(v) then
      Valid(Num(1.0), [LeverageDefaultWarning])
    else if !v.Num? || v.x < 1.0 || v.x > 125.0 then
      Invalid("杠杆倍数必须在1-125之间，当前值: " + Show(v), LeverageHints, [])
    else
      Valid(v, if v.x > 20.0 then [LeverageHighWarning] else if v.x > 10.0 then [LeverageMediumWarning] else [])
  }

  // -------------------------------------------------------------- order type

  const OrderTypes := ["MARKET", "LIMIT", "STOP_LOSS", "STOP_LOSS_LIMIT", "TAKE_PROFIT", "TAKE_PROFIT_LIMIT"]
  const OrderTypeDefaultWarning := "未指定订单类型，默认使用市价单(MARKET)"
  const OrderTypeHints := [
    "MARKET: 市价单（立即成交）",
    "LIMIT: 限价单（指定价格）",
    "STOP_LOSS: 止损单",
    "STOP_LOSS_LIMIT: 限价止损单",
    "TAKE_PROFIT: 止盈单",
    "TAKE_PROFIT_LIMIT: 限价止盈单"
  ]

  /** `validateOrderType(type)`: absent means MARKET; matching is case-insensitive. */
  function ValidateOrderType(v: Value): (r: Outcome<Value>)
    ensures r.Crashed? <==> Truthy(v) && !v.Str?
    ensures !Truthy(v) ==> r == Valid(Str("MARKET"), [OrderTypeDefaultWarning])
    ensures r.Valid? && Truthy(v) <==> v.Str? && v.s != "" && ToUpper(v.s) in OrderTypes
    ensures r.Valid? ==> r.data.Str? && r.data.s in OrderTypes
    ensures r.Valid? && Truthy(v) ==> r.data == Str(ToUpper(v.s)) && (r.warnings == [] <==> !HasLowerAscii(v.s))
    ensures r.Invalid? ==> r.error == "无效的订单类型: " + v.s && r.suggestions == OrderTypeHints
  {
    if !Truthy(v) then
      Valid(Str("MARKET"), [OrderTypeDefaultWarning])
    else if !v.Str? then
      Crashed("type.toUpperCase is not a function")
    else
      var u := ToUpper(v.s);
      ToUpperChanges(v.s);
      if u !in OrderTypes then Invalid("无效的订单类型: " + v.s, OrderTypeHints, [])
      else Valid(Str(u), if v.s != u then [UppercasedWarning] else [])
  }

  // -------------------------------------------------------------------- side

  const SideRequired := "交易方向为必填项，请指定BUY或SELL。"
  const SideRequiredHints := ["BUY: 买入/做多", "SELL: 卖出/做空", "现货交易：BUY买入，SELL卖出", "合约交易：BUY做多，SELL做空"]
  const SideHints := ["BUY: 买入/做多", "SELL: 卖出/做空", "请确保拼写正确"]

  /** `validateSide(side, required)`: BUY or SELL, case-insensitive. */
  function ValidateSide(v: Value, required: bool): (r: Outcome<Value>)
    ensures r.Crashed? <==> Truthy(v) && !v.Str?
    ensures r.Valid? <==> (!Truthy(v) && !required) || (v.Str? && (ToUpper(v.s) == "BUY" || ToUpper(v.s) == "SELL"))
    ensures r.Valid? && !Truthy(v) ==> r == Valid(Null, [])
    ensures r.Invalid? && !Truthy(v) ==> r == Invalid(SideRequired, SideRequiredHints, [])
    ensures r.Valid? && Truthy(v) ==> r.data == Str(ToUpper(v.s)) && (r.warnings == [] <==> !HasLowerAscii(v.s))
    ensures r.Invalid? && Truthy(v) ==> r.error == "无效的交易方向: " + v.s && r.suggestions == SideHints
  {
    if !Truthy(v) then
      if required then Invalid(SideRequired, SideRequiredHints, []) else Valid(Null, [])
    else if !v.Str? then
      Crashed("side.toUpperCase is not a function")
    else
      var u := ToUpper(v.s);
      ToUpperChanges(v.s);
      if u != "BUY" && u != "SELL" then Invalid("无效的交易方向: " + v.s, SideHints, [])
      else Valid(Str(u), if v.s != u then [UppercasedWarning] else [])
  }

  // ---------------------------------------------------------------- interval

  const Intervals := ["1m", "3m", "5m", "15m", "30m", "1h", "2h", "4h", "6h", "8h", "12h", "1d", "3d", "1w", "1M"]
  const IntervalDefaultWarning := "未指定时间间隔，默认使用1小时(1h)"
  const IntervalHints := ["分钟级：1m, 3m, 5m, 15m, 30m", "小时级：1h, 2h, 4h, 6h, 8h, 12h", "天级：1d, 3d", "周月级：1w, 1M"]

  /** `validateInterval(interval)`: absent means 1h; matching is exact (case-sensitive). */
  function ValidateInterval(v: Value): (r: Outcome<Value>)
    ensures !r.Crashed?
    ensures !Truthy(v) ==> r == Valid(Str("1h"), [IntervalDefaultWarning])
    ensures Truthy(v) ==> (r.Valid? <==> v.Str? && v.s in Intervals)
    ensures r.Valid? ==> r.data.Str? && r.data.s in Intervals
    ensures r.Valid? && Truthy(v) ==> r == Valid(v, [])
    ensures r.Invalid? ==> r.error == "无效的时间间隔: " + Show(v) && r.suggestions == IntervalHints
  {
    if !Truthy(v) then
      Valid(Str("1h"), [IntervalDefaultWarning])
    else if !(v.Str? && v.s in Intervals) then
      Invalid("无效的时间间隔: " + Show(v), IntervalHints, [])
    else
      Valid(v, [])
  }

  // -------------------------------------------------------- validateParameters

  /** The `type` of a rule; any other or missing type passes the value through. */
  datatype Kind = SymbolKind | PriceKind | QuantityKind | LeverageKind | OrderTypeKind | SideKind | IntervalKind | OtherKind

  /** A rule `{ required?, type? }`; a missing `required` means required. */
  datatype Rule = Rule(required: Option<bool>, kind: Kind) {
    predicate IsRequired() {
      required.GetOr(true)
    }
  }

  /** The rules object: its entries in insertion order. */
  type Rules = seq<(string, Rule)>

  /** One field checked against its rule (the `switch` on `rule.type`). */
  function ValidateField(v: Value, rule: Rule): (r: Outcome<Value>)
    ensures rule.kind == OtherKind ==> r == Valid(v, [])
    ensures v == Undefined ==> !r.Crashed?
    ensures v == Undefined ==>
      (r.Valid? <==> !rule.IsRequired() || rule.kind.LeverageKind? || rule.kind.OrderTypeKind? || rule.kind.IntervalKind? || rule.kind.OtherKind?)
  {
    match rule.kind
    case SymbolKind => ValidateSymbol(v, rule.IsRequired())
    case PriceKind => ValidatePrice(v, rule.IsRequired())
    case QuantityKind => ValidateQuantity(v, rule.IsRequired())
    case LeverageKind => ValidateLeverage(v)
    case OrderTypeKind => ValidateOrderType(v)
    case SideKind => ValidateSide(v, rule.IsRequired())
    case IntervalKind => ValidateInterval(v)
    case OtherKind => Valid(v, [])
  }

  /** The outcome for one entry of the rules, read from the parameters. */
  function Field(params: Args, entry: (string, Rule)): Outcome<Value> {
    ValidateField(Get(params, entry.0), entry.1)
  }

  /** What the loop has gathered so far. */
  datatype Tally = Tally(errors: seq<string>, suggestions: seq<string>, warnings: seq<string>, data: map<string, Value>)

  /** The loop's state: running, or stopped by a thrown TypeError. */
  datatype Scan = Scanned(tally: Tally) | Halted(message: string)

  /** The `for … of Object.entries(rules)` loop over a prefix of the rules. */
  function Collect(params: Args, rules: Rules): Scan
    decreases |rules|
  {
    if |rules| == 0 then Scanned(Tally([], [], [], map[]))
    else
      match Collect(params, rules[..|rules| - 1])
      case Halted(m) => Halted(m)
      case Scanned(t) =>
        var (key, rule) := rules[|rules| - 1];
        match Field(params, rules[|rules| - 1])
        case Crashed(m) => Halted(m)
        case Invalid(e, s, _) => Scanned(t.(errors := t.errors + [key + ": " + e], suggestions := t.suggestions + s))
        case Valid(d, w) => Scanned(t.(data := t.data[key := d], warnings := t.warnings + w))
  }

  /** `validateParameters(params, rules)`. */
  function ValidateParameters(params: Args, rules: Rules): (r: Outcome<map<string, Value>>)
    ensures r.Invalid? ==> r.warnings == []
  {
    match Collect(params, rules)
    case Halted(m) => Crashed(m)
    case Scanned(t) =>
      if |t.errors| > 0 then Invalid(Join(t.errors, "\n"), t.suggestions, [])
      else Valid(t.data, t.warnings)
  }

  // The declarative reading of the loop: per-field contributions, in rule order.

  function ErrorPart(params: Args, entry: (string, Rule)): seq<string> {
    var r := Field(params, entry);
    if r.Invalid? then [entry.0 + ": " + r.error] else []
  }

  function SuggestionPart(params: Args, entry: (string, Rule)): seq<string> {
    var r := Field(params, entry);
    if r.Invalid? then r.suggestions else []
  }

  function WarningPart(params: Args, entry: (string, Rule)): seq<string> {
    var r := Field(params, entry);
    if r.Valid? then r.warnings else []
  }

  /** One line `key: error` per invalid field, in rule order. */
  function ErrorLines(params: Args, rules: Rules): seq<string> {
    Flatten(seq(|rules|, i requires 0 <= i < |rules| => ErrorPart(params, rules[i])))
  }

  /** The suggestions of the invalid fields, in rule order. */
  function Suggestions(params: Args, rules: Rules): seq<string> {
    Flatten(seq(|rules|, i requires 0 <= i < |rules| => SuggestionPart(params, rules[i])))
  }

  /** The warnings of the valid fields, in rule order. */
  function Warnings(params: Args, rules: Rules): seq<string> {
    Flatten(seq(|rules|, i requires 0 <= i < |rules| => WarningPart(params, rules[i])))
  }

  predicate SomeCrash(params: Args, rules: Rules) {
    exists i :: 0 <= i < |rules| && Field(params, rules[i]).Crashed?
  }

  /** Field i is the first whose validator threw. */
  predicate FirstCrashAt(params: Args, rules: Rules, i: int) {
    && 0 <= i < |rules| && Field(params, rules[i]).Crashed?
    && forall j :: 0 <= j < i ==> !Field(params, rules[j]).Crashed?
  }

  /** Rule keys are distinct, as the keys of an object are. */
  predicate DistinctKeys(rules: Rules) {
    forall i, j :: 0 <= i < j < |rules| ==> rules[i].0 != rules[j].0
  }

  /** Every valid field's data is recorded under its key, and nothing else is. */
  ghost predicate RecordsValidData(params: Args, rules: Rules, data: map<string, Value>) {
    && (forall k :: k in data <==> exists i :: 0 <= i < |rules| && rules[i].0 == k && Field(params, rules[i]).Valid?)
    && (forall i :: 0 <= i < |rules| && Field(params, rules[i]).Valid? ==> rules[i].0 in data && data[rules[i].0] == Field(params, rules[i]).data)
  }

  /** The loop stops exactly when some validator throws, with the first such field's message. */
  lemma {:induction false} CollectHalts(params: Args, rules: Rules)
    ensures Collect(params, rules).Halted? <==> SomeCrash(params, rules)
    ensures Collect(params, rules).Halted? ==>
      exists i :: FirstCrashAt(params, rules, i) && Field(params, rules[i]).message == Collect(params, rules).message
    decreases |rules|
  {
    if |rules| > 0 {
      var n := |rules|;
      var init := rules[..n - 1];
      CollectHalts(params, init);
      forall i | 0 <= i < n - 1 ensures init[i] == rules[i] {}
      if Collect(params, init).Halted? {
        var i :| FirstCrashAt(params, init, i) && Field(params, init[i]).message == Collect(params, init).message;
        assert FirstCrashAt(params, rules, i);
      } else if Field(params, rules[n - 1]).Crashed? {
        assert FirstCrashAt(params, rules, n - 1);
      } else {
        forall i | 0 <= i < n ensures !Field(params, rules[i]).Crashed? {
          if i < n - 1 {
            assert Field(params, init[i]) == Field(params, rules[i]);
          }
        }
      }
    }
  }

  lemma ErrorLinesSnoc(params: Args, rules: Rules)
    requires |rules| > 0
    ensures ErrorLines(params, rules) == ErrorLines(params, rules[..|rules| - 1]) + ErrorPart(params, rules[|rules| - 1])
  {
    var n := |rules|;
    var init := rules[..n - 1];
    var parts := seq(n - 1, i requires 0 <= i < n - 1 => ErrorPart(params, init[i]));
    var whole := seq(n, i requires 0 <= i < n => ErrorPart(params, rules[i]));
    assert whole[..n - 1] == parts by {
      forall i | 0 <= i < n - 1 ensures whole[..n - 1][i] == parts[i] {
        assert init[i] == rules[i];
      }
    }
    assert Flatten(whole) == Flatten(whole[..n - 1]) + whole[n - 1];
  }

  lemma SuggestionsSnoc(params: Args, rules: Rules)
    requires |rules| > 0
    ensures Suggestions(params, rules) == Suggestions(params, rules[..|rules| - 1]) + SuggestionPart(params, rules[|rules| - 1])
  {
    var n := |rules|;
    var init := rules[..n - 1];
    var parts := seq(n - 1, i requires 0 <= i < n - 1 => SuggestionPart(params, init[i]));
    var whole := seq(n, i requires 0 <= i < n => SuggestionPart(params, rules[i]));
    assert whole[..n - 1] == parts by {
      forall i | 0 <= i < n - 1 ensures whole[..n - 1][i] == parts[i] {
        assert init[i] == rules[i];
      }
    }
    assert Flatten(whole) == Flatten(whole[..n - 1]) + whole[n - 1];
  }

  lemma WarningsSnoc(params: Args, rules: Rules)
    requires |rules| > 0
    ensures Warnings(params, rules) == Warnings(params, rules[..|rules| - 1]) + WarningPart(params, rules[|rules| - 1])
  {
    var n := |rules|;
    var init := rules[..n - 1];
    var parts := seq(n - 1, i requires 0 <= i < n - 1 => WarningPart(params, init[i]));
    var whole := seq(n, i requires 0 <= i < n => WarningPart(params, rules[i]));
    assert whole[..n - 1] == parts by {
      forall i | 0 <= i < n - 1 ensures whole[..n - 1][i] == parts[i] {
        assert init[i] == rules[i];
      }
    }
    assert Flatten(whole) == Flatten(whole[..n - 1]) + whole[n - 1];
  }

  /**
   * When no validator throws, the loop holds the error lines, suggestions and
   * warnings of all fields in rule order.
   */
  lemma {:induction false} CollectTally(params: Args, rules: Rules)
    requires Collect(params, rules).Scanned?
    ensures Collect(params, rules).tally.errors == ErrorLines(params, rules)
    ensures Collect(params, rules).tally.suggestions == Suggestions(params, rules)
    ensures Collect(params, rules).tally.warnings == Warnings(params, rules)
    decreases |rules|
  {
    if |rules| == 0 {
      assert ErrorLines(params, rules) == [];
      assert Suggestions(params, rules) == [];
      assert Warnings(params, rules) == [];
    } else {
      CollectTally(params, rules[..|rules| - 1]);
      ErrorLinesSnoc(params, rules);
      SuggestionsSnoc(params, rules);
      WarningsSnoc(params, rules);
    }
  }

  /** When no validator throws, the loop records exactly the valid fields' data under their keys. */
  lemma {:induction false} CollectData(params: Args, rules: Rules)
    requires DistinctKeys(rules) && Collect(params, rules).Scanned?
    ensures RecordsValidData(params, rules, Collect(params, rules).tally.data)
    decreases |rules|
  {
    if |rules| > 0 {
      var n := |rules|;
      var init := rules[..n - 1];
      assert DistinctKeys(init);
      CollectData(params, init);
      DataStep(params, rules, Collect(params, init).tally.data, Collect(params, rules).tally.data);
    }
  }

  lemma DataStep(params: Args, rules: Rules, before: map<string, Value>, after: map<string, Value>)
    requires |rules| > 0 && DistinctKeys(rules)
    requires RecordsValidData(params, rules[..|rules| - 1], before)
    requires var last := rules[|rules| - 1];
      after == if Field(params, last).Valid? then before[last.0 := Field(params, last).data] else before
    ensures RecordsValidData(params, rules, after)
  {
    var n := |rules|;
    var init, last := rules[..n - 1], rules[n - 1];
    forall i | 0 <= i < n && Field(params, rules[i]).Valid?
      ensures rules[i].0 in after && after[rules[i].0] == Field(params, rules[i]).data
    {
      if i < n - 1 {
        assert init[i] == rules[i];
        assert rules[i].0 != last.0;
      }
    }
    forall k
      ensures k in after <==> exists i :: 0 <= i < n && rules[i].0 == k && Field(params, rules[i]).Valid?
    {
      if k in after && !(Field(params, last).Valid? && k == last.0) {
        var i :| 0 <= i < n - 1 && init[i].0 == k && Field(params, init[i]).Valid?;
        assert init[i] == rules[i];
      }
      if exists i :: 0 <= i < n && rules[i].0 == k && Field(params, rules[i]).Valid? {
        var i :| 0 <= i < n && rules[i].0 == k && Field(params, rules[i]).Valid?;
        if i < n - 1 {
          assert init[i] == rules[i];
        }
      }
    }
  }

  /**
   * `validateParameters` succeeds exactly when every field passes its rule; it
   * then returns each field's data under its key and the fields' warnings.
   */
  lemma ValidateParametersValid(params: Args, rules: Rules)
    requires DistinctKeys(rules)
    ensures ValidateParameters(params, rules).Valid? <==>
      forall i :: 0 <= i < |rules| ==> Field(params, rules[i]).Valid?
    ensures ValidateParameters(params, rules).Valid? ==>
      && RecordsValidData(params, rules, ValidateParameters(params, rules).data)
      && ValidateParameters(params, rules).warnings == Warnings(params, rules)
  {
    CollectHalts(params, rules);
    if Collect(params, rules).Scanned? {
      CollectTally(params, rules);
      CollectData(params, rules);
      ErrorLinesEmpty(params, rules);
    }
  }

  /**
   * `validateParameters` fails without throwing exactly when no field throws and
   * some field fails; the error is the `key: error` lines joined by newlines
   * and the suggestions are the failing fields' suggestions.
   */
  lemma ValidateParametersInvalid(params: Args, rules: Rules)
    ensures ValidateParameters(params, rules).Invalid? <==>
      !SomeCrash(params, rules) && exists i :: 0 <= i < |rules| && Field(params, rules[i]).Invalid?
    ensures ValidateParameters(params, rules).Invalid? ==>
      && ValidateParameters(params, rules).error == Join(ErrorLines(params, rules), "\n")
      && ValidateParameters(params, rules).suggestions == Suggestions(params, rules)
  {
    CollectHalts(params, rules);
    if Collect(params, rules).Scanned? {
      CollectTally(params, rules);
      ErrorLinesEmpty(params, rules);
    }
  }

  /** A throwing validator aborts `validateParameters` with the first such field's message. */
  lemma ValidateParametersCrashed(params: Args, rules: Rules)
    ensures ValidateParameters(params, rules).Crashed? <==> SomeCrash(params, rules)
    ensures ValidateParameters(params, rules).Crashed? ==>
      exists i :: FirstCrashAt(params, rules, i) && Field(params, rules[i]).message == ValidateParameters(params, rules).message
  {
    CollectHalts(params, rules);
  }

  /** No error line exactly when no field fails its rule. */
  lemma ErrorLinesEmpty(params: Args, rules: Rules)
    ensures ErrorLines(params, rules) == [] <==> forall i :: 0 <= i < |rules| ==> !Field(params, rules[i]).Invalid?
  {
    var parts := seq(|rules|, i requires 0 <= i < |rules| => ErrorPart(params, rules[i]));
    if forall i :: 0 <= i < |rules| ==> !Field(params, rules[i]).Invalid? {
      FlattenEmpties(parts);
    } else {
      var i :| 0 <= i < |rules| && Field(params, rules[i]).Invalid?;
      FlattenContains(parts, i, parts[i][0]);
    }
  }

  /** Every failing field is reported with its key in the error lines. */
  lemma ErrorLinesReportEachKey(params: Args, rules: Rules, i: nat)
    requires i < |rules| && Field(params, rules[i]).Invalid?
    ensures rules[i].0 + ": " + Field(params, rules[i]).error in ErrorLines(params, rules)
  {
    var parts := seq(|rules|, j requires 0 <= j < |rules| => ErrorPart(params, rules[j]));
    FlattenContains(parts, i, parts[i][0]);
  }

  // -------------------------------------------------------------- rendering

  /** One `• item\n` line per item. */
  function Bullets(items: seq<string>): string {
    Flatten(seq(|items|, i requires 0 <= i < |items| => "• " + items[i] + "\n"))
  }

  /** Bullet lists concatenate. */
  lemma BulletsAppend(xs: seq<string>, ys: seq<string>)
    ensures Bullets(xs + ys) == Bullets(xs) + Bullets(ys)
  {
    var f := seq(|xs + ys|, i requires 0 <= i < |xs + ys| => "• " + (xs + ys)[i] + "\n");
    var fx := seq(|xs|, i requires 0 <= i < |xs| => "• " + xs[i] + "\n");
    var fy := seq(|ys|, i requires 0 <= i < |ys| => "• " + ys[i] + "\n");
    assert f == fx + fy;
    FlattenAppend(fx, fy);
  }

  /** Every item shows up as its own bullet line. */
  lemma BulletsShowEach(items: seq<string>, i: nat)
    requires i < |items|
    ensures Contains(Bullets(items), "• " + items[i] + "\n")
  {
    var parts := seq(|items|, j requires 0 <= j < |items| => "• " + items[j] + "\n");
    var line := "• " + items[i] + "\n";
    FlattenInfix(parts, i);
    var pre :| |pre| + |line| <= |Flatten(parts)| && Flatten(parts) == pre + line + Flatten(parts)[|pre| + |line|..];
    assert OccursAt(Flatten(parts), line, |pre|);
    ContainsAt(Flatten(parts), line, |pre|);
  }

  lemma {:induction false} FlattenInfix(parts: seq<string>, i: nat)
    requires i < |parts|
    ensures exists pre :: |pre| + |parts[i]| <= |Flatten(parts)| && Flatten(parts) == pre + parts[i] + Flatten(parts)[|pre| + |parts[i]|..]
    decreases |parts|
  {
    var n := |parts|;
    var init := parts[..n - 1];
    assert Flatten(parts) == Flatten(init) + parts[n - 1];
    if i == n - 1 {
      var pre := Flatten(init);
      assert Flatten(parts) == pre + parts[i] + Flatten(parts)[|pre| + |parts[i]|..];
    } else {
      FlattenInfix(init, i);
      assert init[i] == parts[i];
      var pre :| |pre| + |parts[i]| <= |Flatten(init)| && Flatten(init) == pre + parts[i] + Flatten(init)[|pre| + |parts[i]|..];
      assert Flatten(parts) == pre + parts[i] + Flatten(parts)[|pre| + |parts[i]|..];
    }
  }

  const ErrorHeading := "❌ 参数验证失败:\n\n"
  const SuggestionHeading := "\n\n💡 参数建议:\n"
  const WarningHeading := "⚠️ 参数提醒:\n"

  /** `formatValidationError(result)`: a result without an error renders it as `undefined`. */
  function FormatValidationError<D>(r: Outcome<D>): (msg: string)
    ensures StartsWith(msg, ErrorHeading)
    ensures r.Invalid? ==> StartsWith(msg, ErrorHeading + r.error)
    ensures r.Invalid? && r.suggestions == [] ==> msg == ErrorHeading + r.error
    ensures !r.Invalid? ==> msg == ErrorHeading + "undefined"
  {
    var error := if r.Invalid? then r.error else "undefined";
    var suggestions := if r.Invalid? then r.suggestions else [];
    ErrorHeading + error + (if |suggestions| > 0 then SuggestionHeading + Bullets(suggestions) else "")
  }

  /** The rendered error carries the error text and one bullet line per suggestion. */
  lemma FormatValidationErrorShows<D>(r: Outcome<D>, i: nat)
    requires r.Invalid? && i < |r.suggestions|
    ensures StartsWith(FormatValidationError(r), ErrorHeading + r.error + SuggestionHeading)
    ensures Contains(FormatValidationError(r), "• " + r.suggestions[i] + "\n")
  {
    var msg := FormatValidationError(r);
    var head := ErrorHeading + r.error + SuggestionHeading;
    assert msg == head + Bullets(r.suggestions);
    BulletsShowEach(r.suggestions, i);
    ContainsOccurs(Bullets(r.suggestions), "• " + r.suggestions[i] + "\n");
    var k :| OccursAt(Bullets(r.suggestions), "• " + r.suggestions[i] + "\n", k);
    OccursShift(head, Bullets(r.suggestions), "• " + r.suggestions[i] + "\n", k);
    ContainsAt(msg, "• " + r.suggestions[i] + "\n", |head| + k);
  }

  /**
   * The suggestions are rendered one line at a time, in order: the first
   * follows the suggestion heading, and each further one appends its own line.
   */
  lemma FormatValidationErrorSnoc<D>(error: string, suggestions: seq<string>, warnings: seq<string>, s: string)
    ensures suggestions == [] ==>
      FormatValidationError(Outcome<D>.Invalid(error, [s], warnings)) == ErrorHeading + error + SuggestionHeading + "• " + s + "\n"
    ensures suggestions != [] ==>
      FormatValidationError(Outcome<D>.Invalid(error, suggestions + [s], warnings))
      == FormatValidationError(Outcome<D>.Invalid(error, suggestions, warnings)) + "• " + s + "\n"
  {
    BulletsSnoc(suggestions, s);
    assert [] + [s] == [s];
  }

  /** `formatValidationWarnings(warnings)`: empty for no warnings. */
  function FormatValidationWarnings(warnings: seq<string>): (msg: string)
    ensures msg == "" <==> warnings == []
    ensures warnings != [] ==> StartsWith(msg, WarningHeading)
  {
    if |warnings| == 0 then "" else WarningHeading + Bullets(warnings)
  }

  /** The bullet list of one more item ends with that item's line. */
  lemma BulletsSnoc(items: seq<string>, item: string)
    ensures Bullets(items + [item]) == Bullets(items) + "• " + item + "\n"
  {
    var all := items + [item];
    var n := |all|;
    var parts := seq(n - 1, i requires 0 <= i < n - 1 => "• " + items[i] + "\n");
    var whole := seq(n, i requires 0 <= i < n => "• " + all[i] + "\n");
    assert whole[..n - 1] == parts by {
      forall i | 0 <= i < n - 1 ensures whole[..n - 1][i] == parts[i] {
        assert all[i] == items[i];
      }
    }
    assert Flatten(whole) == Flatten(whole[..n - 1]) + whole[n - 1];
  }

  /**
   * The warnings block is built one line at a time, in order: a single
   * warning gives the heading and its bullet line, and each further warning
   * appends its own line at the end.
   */
  lemma FormatValidationWarningsSnoc(warnings: seq<string>, w: string)
    ensures warnings == [] ==> FormatValidationWarnings([w]) == WarningHeading + "• " + w + "\n"
    ensures warnings != [] ==>
      FormatValidationWarnings(warnings + [w]) == FormatValidationWarnings(warnings) + "• " + w + "\n"
  {
    BulletsSnoc(warnings, w);
    if warnings == [] {
      assert warnings + [w] == [w];
      assert Bullets([]) == "";
    } else {
      var block := Bullets(warnings);
      assert FormatValidationWarnings(warnings) == WarningHeading + block;
      assert FormatValidationWarnings(warnings + [w]) == WarningHeading + (block + "• " + w + "\n");
    }
  }

  /** Every warning shows up in the block as its own bullet line. */
  lemma FormatValidationWarningsShows(warnings: seq<string>, i: nat)
    requires i < |warnings|
    ensures Contains(FormatValidationWarnings(warnings), "• " + warnings[i] + "\n")
  {
    var line := "• " + warnings[i] + "\n";
    BulletsShowEach(warnings, i);
    ContainsOccurs(Bullets(warnings), line);
    var k :| OccursAt(Bullets(warnings), line, k);
    OccursShift(WarningHeading, Bullets(warnings), line, k);
    ContainsAt(FormatValidationWarnings(warnings), line, |WarningHeading| + k);
  }
}
