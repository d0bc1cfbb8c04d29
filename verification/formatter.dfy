/**
 * The decision logic of `ResultFormatter` (src/utils/formatter.ts): the
 * status/emoji/name lookups, the risk bands and advice, and the reports for
 * spot balances, futures positions and a placed spot order.
 */
module Formatter {
  import opened Wrappers
  import opened Text
  import opened Numeric
  import opened Values
  import opened Envelope
  import opened Formatting

  // ---------------------------------------------------------------- lookups

  const StatusLabels: map<string, string> := map[
    "NEW" := "⏳ 新建订单（等待成交）",
    "PARTIALLY_FILLED" := "🔄 部分成交",
    "FILLED" := "✅ 完全成交",
    "CANCELED" := "❌ 已取消",
    "PENDING_CANCEL" := "⏳ 取消中",
    "REJECTED" := "❌ 被拒绝",
    "EXPIRED" := "⏰ 已过期"
  ]

  /** `getOrderStatus`: the label of a known status code, any other code verbatim. */
  function OrderStatus(status: string): string {
    if status in StatusLabels then StatusLabels[status] else status
  }

  /**
   * Exactly the seven exchange status codes have a label, and a code is
   * shown verbatim exactly when it has none.
   */
  lemma OrderStatusVerbatim(status: string)
    ensures StatusLabels.Keys == {"NEW", "PARTIALLY_FILLED", "FILLED", "CANCELED", "PENDING_CANCEL", "REJECTED", "EXPIRED"}
    ensures OrderStatus(status) == status <==> status !in StatusLabels
    ensures status in StatusLabels ==> OrderStatus(status) == StatusLabels[status]
  {
  }

  const DefaultEmoji := "💰"

  const EmojiMap: map<string, string> := map[
    "BTC" := "₿", "ETH" := "🔷", "BNB" := "🟠", "USDT" := "🟡", "BUSD" := "🔵",
    "ADA" := "🔵", "DOT" := "⚪", "LINK" := "🔗", "LTC" := "🥈", "XRP" := "💧"
  ]

  /** `getCurrencyEmoji`. */
  function CurrencyEmoji(asset: string): string {
    if asset in EmojiMap then EmojiMap[asset] else DefaultEmoji
  }

  /** The generic coin is shown exactly for the assets without an emoji of their own. */
  lemma CurrencyEmojiFallback(asset: string)
    ensures CurrencyEmoji(asset) == DefaultEmoji <==> asset !in EmojiMap
    ensures asset in EmojiMap ==> CurrencyEmoji(asset) == EmojiMap[asset]
  {
  }

  const NameMap: map<string, string> := map[
    "BTC" := "比特币", "ETH" := "以太坊", "BNB" := "币安币", "USDT" := "泰达币", "BUSD" := "币安美元",
    "ADA" := "艾达币", "DOT" := "波卡", "LINK" := "链接币", "LTC" := "莱特币", "XRP" := "瑞波币"
  ]

  /** `getCurrencyName`. */
  function CurrencyName(asset: string): string {
    if asset in NameMap then NameMap[asset] else asset
  }

  /** An asset is named by its own code exactly when it has no Chinese name; both maps know the same ten assets. */
  lemma CurrencyNameFallback(asset: string)
    ensures CurrencyName(asset) == asset <==> asset !in NameMap
    ensures asset in NameMap ==> CurrencyName(asset) == NameMap[asset]
    ensures NameMap.Keys == EmojiMap.Keys
  {
  }

  // ------------------------------------------------------------ risk bands

  datatype RiskBand = LowRisk | MediumRisk | HighRisk | ExtremeRisk

  function RiskBandLabel(b: RiskBand): string {
    match b
    case LowRisk => "🟢 低风险"
    case MediumRisk => "🟡 中等风险"
    case HighRisk => "🟠 高风险"
    case ExtremeRisk => "🔴 极高风险"
  }

  /** `getRiskLevel`'s band of `pnl / notional * 100`; NaN falls through every test. */
  function PortfolioBand(pnl: real, notional: real): RiskBand {
    var pnlPercent := Times(Div(pnl, notional), 100.0);
    if Gt(pnlPercent, 5.0) then LowRisk
    else if Gt(pnlPercent, -5.0) then MediumRisk
    else if Gt(pnlPercent, -15.0) then HighRisk
    else ExtremeRisk
  }

  /** `getRiskLevel(pnl, notional)`. */
  function RiskLevel(pnl: real, notional: real): string {
    RiskBandLabel(PortfolioBand(pnl, notional))
  }

  /** With a non-zero notional the bands are > 5 %, > -5 %, > -15 % and the rest. */
  lemma PortfolioBandBounds(pnl: real, notional: real)
    requires notional != 0.0
    ensures var pct := pnl / notional * 100.0;
      && (PortfolioBand(pnl, notional) == LowRisk <==> pct > 5.0)
      && (PortfolioBand(pnl, notional) == MediumRisk <==> -5.0 < pct <= 5.0)
      && (PortfolioBand(pnl, notional) == HighRisk <==> -15.0 < pct <= -5.0)
      && (PortfolioBand(pnl, notional) == ExtremeRisk <==> pct <= -15.0)
  {
  }

  /**
   * With zero notional the ratio is an infinity or NaN: a profit reads as low
   * risk, a loss or a zero result as extreme risk.
   */
  lemma PortfolioBandZeroNotional(pnl: real)
    ensures PortfolioBand(pnl, 0.0) == (if pnl > 0.0 then LowRisk else ExtremeRisk)
  {
  }

  datatype PositionBand = Safe | Watch | Danger | Critical

  function PositionBandLabel(b: PositionBand): string {
    match b
    case Safe => "相对安全"
    case Watch => "需关注"
    case Danger => "高风险"
    case Critical => "极危险"
  }

  /** `|(mark - liquidation) / mark| * 100`, the distance to liquidation in percent. */
  function LiquidationDistance(liquidationPrice: real, markPrice: real): Ext {
    Times(Abs(Div(markPrice - liquidationPrice, markPrice)), 100.0)
  }

  /** `getPositionRiskLevel`: bands > 20 %, > 10 %, > 5 % and the rest; the direction is not consulted. */
  function PositionRisk(liquidationPrice: real, markPrice: real, isLong: bool): PositionBand {
    var distance := LiquidationDistance(liquidationPrice, markPrice);
    if Gt(distance, 20.0) then Safe
    else if Gt(distance, 10.0) then Watch
    else if Gt(distance, 5.0) then Danger
    else Critical
  }

  /** For a non-zero mark price the band depends on the distance alone, whatever the direction. */
  lemma PositionRiskBounds(liquidationPrice: real, markPrice: real, isLong: bool)
    requires markPrice != 0.0
    ensures var d := AbsReal((markPrice - liquidationPrice) / markPrice) * 100.0;
      && (PositionRisk(liquidationPrice, markPrice, isLong) == Safe <==> d > 20.0)
      && (PositionRisk(liquidationPrice, markPrice, isLong) == Watch <==> 10.0 < d <= 20.0)
      && (PositionRisk(liquidationPrice, markPrice, isLong) == Danger <==> 5.0 < d <= 10.0)
      && (PositionRisk(liquidationPrice, markPrice, isLong) == Critical <==> d <= 5.0)
  {
  }

  // -------------------------------------------------------------- balances

  /** A balance as `binance_spot_balances` hands it to the formatter. */
  datatype Balance = Balance(asset: string, free: real, locked: real, total: real)

  /** `balances.some(b => b.locked > 0)`. */
  function AnyLocked(bs: seq<Balance>): (b: bool)
    ensures b <==> exists i :: 0 <= i < |bs| && bs[i].locked > 0.0
    decreases |bs|
  {
    if |bs| == 0 then false
    else
      var rest := AnyLocked(bs[..|bs| - 1]);
      assert forall i :: 0 <= i < |bs| - 1 ==> bs[..|bs| - 1][i] == bs[i];
      rest || bs[|bs| - 1].locked > 0.0
  }

  const MaxShownBalances := 10

  /** The choices `formatSpotBalances` makes before rendering. */
  datatype BalancesSummary =
    | EmptyAccount
    | Holdings(count: nat, shown: seq<Balance>, hidden: nat, diversified: bool, lockedFunds: bool)

  /**
   * An empty list is an empty account; otherwise the first ten balances are
   * detailed, the number of the rest is reported, the mix is "diversified"
   * above three assets, and the locked-funds wording appears when some balance
   * is partly locked.
   */
  function SummarizeBalances(bs: seq<Balance>): (r: BalancesSummary)
    ensures r.EmptyAccount? <==> |bs| == 0
    ensures r.Holdings? ==>
      && r.count == |bs|
      && r.shown == bs[..if |bs| < MaxShownBalances then |bs| else MaxShownBalances]
      && |r.shown| + r.hidden == |bs|
      && (r.hidden > 0 <==> |bs| > MaxShownBalances)
      && (r.diversified <==> |bs| > 3)
      && (r.lockedFunds <==> exists i :: 0 <= i < |bs| && bs[i].locked > 0.0)
  {
    if |bs| == 0 then EmptyAccount
    else
      var n := if |bs| < MaxShownBalances then |bs| else MaxShownBalances;
      Holdings(|bs|, bs[..n], |bs| - n, |bs| > 3, AnyLocked(bs))
  }

  const EmptyBalancesTitle := "💰 现货账户余额\n"

  const EmptyBalancesBody :=
    "\n📊 账户状态：空账户\n当前持有币种：0种\n总资产价值：需要充值后显示\n\n"
    + "💡 使用建议：\n请先充值USDT或其他币种开始交易\n建议保留部分USDT作为交易准备金\n可使用binance_spot_balances定期检查余额"

  const EmptyBalancesText := EmptyBalancesTitle + EmptyBalancesBody

  /** One holding's detail block. */
  function BalanceBlock(b: Balance): string {
    CurrencyEmoji(b.asset) + " " + b.asset + "（" + CurrencyName(b.asset) + "）\n"
    + "可用余额：" + FormatQuantity(b.free, b.asset) + "\n"
    + "冻结余额：" + FormatQuantity(b.locked, b.asset) + (if b.locked > 0.0 then "（待成交订单）" else "") + "\n"
    + "总余额：" + FormatQuantity(b.total, b.asset) + "\n"
    + "资金状态：" + (if b.locked > 0.0 then "部分冻结" else "全部可用") + "\n\n"
  }

  const HoldingsTitle := "💰 现货账户余额统计"

  /** Everything after the title of a non-empty balances report. */
  function HoldingsBody(count: nat, shown: seq<Balance>, hidden: nat, diversified: bool, lockedFunds: bool, clock: Clock): string {
    "\n\n📊 资产概况：\n持有币种：" + NatToString(count) + "种\n"
    + "更新时间：" + clock.show(clock.now) + "\n\n💎 持仓明细：\n\n"
    + Flatten(seq(|shown|, i requires 0 <= i < |shown| => BalanceBlock(shown[i])))
    + (if hidden > 0 then "... 还有 " + NatToString(hidden) + " 种币种未显示\n\n" else "")
    + "💡 资产建议：\n当前资产配置" + (if diversified then "较为多样化" else "相对集中") + "，"
    + (if lockedFunds then "部分资金被订单占用属正常情况" else "资金流动性良好") + "。\n"
    + "建议关注各币种价格走势，适时调整配置比例。\n可使用价格查询工具计算总资产USD估值。"
  }

  function BalancesText(s: BalancesSummary, clock: Clock): string {
    match s
    case EmptyAccount => EmptyBalancesText
    case Holdings(count, shown, hidden, diversified, lockedFunds) =>
      HoldingsTitle + HoldingsBody(count, shown, hidden, diversified, lockedFunds, clock)
  }

  /** `formatSpotBalances(balances)`; the update time is the clock's current time. */
  function FormatSpotBalances(bs: seq<Balance>, clock: Clock): string {
    BalancesText(SummarizeBalances(bs), clock)
  }

  /** The fixed empty-account text appears exactly for an empty list. */
  lemma FormatSpotBalancesEmpty(bs: seq<Balance>, clock: Clock)
    ensures FormatSpotBalances(bs, clock) == EmptyBalancesText <==> |bs| == 0
  {
    if |bs| > 0 {
      var s := SummarizeBalances(bs);
      var body := HoldingsBody(s.count, s.shown, s.hidden, s.diversified, s.lockedFunds, clock);
      TitleDiffers(HoldingsTitle, body, EmptyBalancesTitle, EmptyBalancesBody, 8);
    }
  }

  /** Two texts differ when their titles disagree at some index k. */
  lemma TitleDiffers(title: string, body: string, otherTitle: string, otherBody: string, k: nat)
    requires k < |title| && k < |otherTitle| && title[k] != otherTitle[k]
    ensures title + body != otherTitle + otherBody
  {
    assert (title + body)[k] == title[k];
    assert (otherTitle + otherBody)[k] == otherTitle[k];
  }

  // ------------------------------------------------------------- positions

  /** A futures position as `binance_futures_positions` hands it to the formatter. */
  datatype Position = Position(
    symbol: string, positionAmt: real, entryPrice: real, markPrice: real,
    unRealizedProfit: real, liquidationPrice: real, leverage: real,
    marginType: string, positionSide: string, notional: real)

  /** `Math.abs(pos.positionAmt) > 0`. */
  predicate IsActive(p: Position) {
    p.positionAmt != 0.0
  }

  /** `positions.filter(pos => Math.abs(pos.positionAmt) > 0)`. */
  function ActivePositions(ps: seq<Position>): (r: seq<Position>)
    ensures |r| <= |ps|
    ensures forall p :: p in r <==> p in ps && p.positionAmt != 0.0
    ensures IsFilter(ps, r, IsActive)
  {
    FilterSelects(ps, IsActive);
    Filter(ps, IsActive)
  }

  predicate AllActive(ps: seq<Position>) {
    forall i :: 0 <= i < |ps| ==> ps[i].positionAmt != 0.0
  }

  /** The sum of `|notional|`. */
  function TotalNotional(ps: seq<Position>): real
    decreases |ps|
  {
    if |ps| == 0 then 0.0 else TotalNotional(ps[..|ps| - 1]) + AbsReal(ps[|ps| - 1].notional)
  }

  /** The sum of `unRealizedProfit`. */
  function TotalPnl(ps: seq<Position>): real
    decreases |ps|
  {
    if |ps| == 0 then 0.0 else TotalPnl(ps[..|ps| - 1]) + ps[|ps| - 1].unRealizedProfit
  }

  /** The sum of `|notional|` over the positions with the given direction. */
  function Exposure(ps: seq<Position>, long: bool): real
    decreases |ps|
  {
    if |ps| == 0 then 0.0
    else
      var p := ps[|ps| - 1];
      Exposure(ps[..|ps| - 1], long) + (if (if long then p.positionAmt > 0.0 else p.positionAmt < 0.0) then AbsReal(p.notional) else 0.0)
  }

  /** The number of positions with `positionAmt > 0`. */
  function LongCount(ps: seq<Position>): nat
    decreases |ps|
  {
    if |ps| == 0 then 0 else LongCount(ps[..|ps| - 1]) + (if ps[|ps| - 1].positionAmt > 0.0 then 1 else 0)
  }

  /** Every active position is long or short, so the two exposures add up to the total notional. */
  lemma {:induction false} ExposureSplit(ps: seq<Position>)
    requires AllActive(ps)
    ensures Exposure(ps, true) + Exposure(ps, false) == TotalNotional(ps)
    decreases |ps|
  {
    if |ps| > 0 {
      var init := ps[..|ps| - 1];
      assert AllActive(init) by {
        forall i | 0 <= i < |init| ensures init[i].positionAmt != 0.0 {
          assert init[i] == ps[i];
        }
      }
      ExposureSplit(init);
    }
  }

  lemma {:induction false} LongCountBound(ps: seq<Position>)
    ensures LongCount(ps) <= |ps|
    ensures LongCount(ps) == |ps| <==> forall i :: 0 <= i < |ps| ==> ps[i].positionAmt > 0.0
    decreases |ps|
  {
    if |ps| > 0 {
      var init := ps[..|ps| - 1];
      LongCountBound(init);
      assert forall i :: 0 <= i < |init| ==> init[i] == ps[i];
    }
  }

  datatype NetDirection = NetLong | NetShort | Balanced

  /** The net-direction label compares the long count with the count of the rest. */
  function Net(longPositions: nat, shortPositions: nat): NetDirection {
    if longPositions > shortPositions then NetLong
    else if shortPositions > longPositions then NetShort
    else Balanced
  }

  function NetLabel(n: NetDirection): string {
    match n
    case NetLong => "偏多头"
    case NetShort => "偏空头"
    case Balanced => "平衡"
  }

  /** Whether a position is within 10 % of liquidation, the advice's high-risk test. */
  predicate NearLiquidation(p: Position) {
    Lt(LiquidationDistance(p.liquidationPrice, p.markPrice), 10.0)
  }

  /** `positions.filter(p => distance < 10).length`. */
  function NearCount(ps: seq<Position>): (n: nat)
    ensures n <= |ps|
    ensures n > 0 <==> exists i :: 0 <= i < |ps| && NearLiquidation(ps[i])
    decreases |ps|
  {
    if |ps| == 0 then 0
    else
      var rest := NearCount(ps[..|ps| - 1]);
      assert forall i :: 0 <= i < |ps| - 1 ==> ps[..|ps| - 1][i] == ps[i];
      rest + (if NearLiquidation(ps[|ps| - 1]) then 1 else 0)
  }

  datatype Advice = TakeProfit | ReduceRisk | StayAlert

  /** `getPositionAdvice(totalPnl, positions)`. */
  function PositionAdvice(totalPnl: real, ps: seq<Position>): (a: Advice)
    ensures a == TakeProfit <==> totalPnl > 0.0
    ensures a == ReduceRisk <==> totalPnl <= 0.0 && exists i :: 0 <= i < |ps| && NearLiquidation(ps[i])
  {
    if totalPnl > 0.0 then TakeProfit
    else if NearCount(ps) > 0 then ReduceRisk
    else StayAlert
  }

  function AdviceText(a: Advice): string {
    match a
    case TakeProfit => "目前持仓整体盈利，建议适当止盈保护利润。\n密切关注市场动态，及时调整止盈止损点位。"
    case ReduceRisk => "存在高风险持仓，建议立即调整或减仓。\n建议增加保证金或设置止损降低风险。"
    case StayAlert => "持仓风险可控，但需要关注市场变化。\n建议制定明确的止损止盈策略。"
  }

  const MaxShownPositions := 5

  /** The choices `formatFuturesPositions` makes before rendering. */
  datatype PositionsSummary =
    | NoPositions
    | Holding(
        count: nat, totalNotional: real, totalPnl: real, net: NetDirection, risk: RiskBand,
        shown: seq<Position>, longExposure: real, shortExposure: real, advice: Advice)

  /**
   * Only positions with a non-zero amount count; with none the account is flat.
   * Otherwise at most five are detailed, the net direction compares the long
   * count with the rest, the exposures split the total notional, and the
   * advice looks at every active position.
   */
  function SummarizePositions(ps: seq<Position>): (r: PositionsSummary)
    ensures r.NoPositions? <==> forall i :: 0 <= i < |ps| ==> ps[i].positionAmt == 0.0
    ensures r.Holding? ==>
      var active := ActivePositions(ps);
      && r.count == |active| > 0
      && r.shown == active[..if |active| < MaxShownPositions then |active| else MaxShownPositions]
      && (r.net == Balanced <==> 2 * LongCount(active) == |active|)
      && (r.net == NetLong <==> 2 * LongCount(active) > |active|)
      && r.totalPnl == TotalPnl(active) && r.totalNotional == TotalNotional(active)
      && r.longExposure == Exposure(active, true) && r.shortExposure == Exposure(active, false)
      && r.longExposure + r.shortExposure == r.totalNotional
      && r.risk == PortfolioBand(r.totalPnl, r.totalNotional)
      && (r.advice == TakeProfit <==> r.totalPnl > 0.0)
      && (r.advice == ReduceRisk <==> r.totalPnl <= 0.0 && exists p :: p in active && NearLiquidation(p))
  {
    var active := ActivePositions(ps);
    FlatWithoutActive(ps);
    if |active| == 0 then NoPositions else HoldingOf(active)
  }

  /** No active position is left exactly when every amount is zero. */
  lemma FlatWithoutActive(ps: seq<Position>)
    ensures ActivePositions(ps) == [] <==> forall i :: 0 <= i < |ps| ==> ps[i].positionAmt == 0.0
  {
    var active := ActivePositions(ps);
    if active == [] {
      forall i | 0 <= i < |ps| ensures ps[i].positionAmt == 0.0 {
        assert ps[i] !in active;
      }
    } else {
      assert active[0] in ps;
    }
  }

  /** The summary of a non-empty list of active positions. */
  function HoldingOf(active: seq<Position>): (r: PositionsSummary)
    requires |active| > 0 && forall p :: p in active ==> p.positionAmt != 0.0
    ensures r.Holding?
    ensures && r.count == |active|
      && r.shown == active[..if |active| < MaxShownPositions then |active| else MaxShownPositions]
      && (r.net == Balanced <==> 2 * LongCount(active) == |active|)
      && (r.net == NetLong <==> 2 * LongCount(active) > |active|)
      && r.totalPnl == TotalPnl(active) && r.totalNotional == TotalNotional(active)
      && r.longExposure == Exposure(active, true) && r.shortExposure == Exposure(active, false)
      && r.longExposure + r.shortExposure == r.totalNotional
      && r.risk == PortfolioBand(r.totalPnl, r.totalNotional)
      && (r.advice == TakeProfit <==> r.totalPnl > 0.0)
      && (r.advice == ReduceRisk <==> r.totalPnl <= 0.0 && exists p :: p in active && NearLiquidation(p))
  {
    var totalNotional := TotalNotional(active);
    var totalPnl := TotalPnl(active);
    var longs := LongCount(active);
    LongCountBound(active);
    assert AllActive(active) by {
      forall i | 0 <= i < |active| ensures active[i].positionAmt != 0.0 {
        assert active[i] in active;
      }
    }
    ExposureSplit(active);
    var n := if |active| < MaxShownPositions then |active| else MaxShownPositions;
    var advice := PositionAdvice(totalPnl, active);
    assert (exists p :: p in active && NearLiquidation(p)) <==> exists i :: 0 <= i < |active| && NearLiquidation(active[i]);
    Holding(|active|, totalNotional, totalPnl, Net(longs, |active| - longs), PortfolioBand(totalPnl, totalNotional),
      active[..n], Exposure(active, true), Exposure(active, false), advice)
  }

  const FlatPositionsTitle := "🚀 合约持仓查询"

  const FlatPositionsBody :=
    "\n\n📊 持仓状态：空仓\n当前持仓：0个合约\n净敞口：0 USDT\n\n"
    + "💡 交易建议：\n当前无持仓，可根据市场分析开建新仓位\n建议先进行市场分析，制定交易计划\n注意合约交易风险，合理控制仓位大小"

  const FlatPositionsText := FlatPositionsTitle + FlatPositionsBody

  function SignPlus(x: real): string {
    if x >= 0.0 then "+" else ""
  }

  function LeverageLabel(leverage: real): string {
    if leverage > 10.0 then "高风险" else if leverage > 5.0 then "中风险" else "低风险"
  }

  /** The detail block of the position numbered `index + 1`. */
  function PositionBlock(index: nat, p: Position): string {
    var base := ReplaceFirst(p.symbol, "USDT", "");
    var long := p.positionAmt > 0.0;
    "【" + NatToString(index + 1) + "】" + CurrencyEmoji(base) + " " + p.symbol + " 永续合约\n"
    + "持仓方向：" + (if long then "多头 (LONG)" else "空头 (SHORT)") + "\n"
    + "持仓数量：" + (if long then "+" else "") + FormatQuantity(AbsReal(p.positionAmt), base) + "\n"
    + "入场均价：" + FormatPrice(p.entryPrice, "") + " USDT\n"
    + "标记价格：" + FormatPrice(p.markPrice, "") + " USDT\n"
    + "当前价值：" + FormatPrice(AbsReal(p.notional), "") + " USDT\n\n"
    + "💸 盈亏情况：\n"
    + "未实现盈亏：" + SignPlus(p.unRealizedProfit) + FormatPrice(p.unRealizedProfit, "") + " USDT ("
    + FormatPercentage(Times(Div(p.unRealizedProfit, AbsReal(p.notional)), 100.0)) + ")\n"
    + "盈亏状态：" + (if p.unRealizedProfit >= 0.0 then "✅ 盈利中" else "❌ 亏损中") + "\n\n"
    + "⚖️ 风险数据：\n"
    + "杠杆倍数：" + Show(Num(p.leverage)) + "x（" + LeverageLabel(p.leverage) + "）\n"
    + "保证金类型：" + (if p.marginType == "isolated" then "逐仓" else "全仓") + "\n"
    + "强平价格：" + FormatPrice(p.liquidationPrice, "") + " USDT\n"
    + "距强平：" + FormatPercentage(Times(Times(Div(p.markPrice - p.liquidationPrice, p.markPrice), 100.0), if long then 1.0 else -1.0))
    + "（" + PositionBandLabel(PositionRisk(p.liquidationPrice, p.markPrice, long)) + "）\n\n"
  }

  const PositionsTitle := "🚀 合约持仓详情"

  /** Everything after the title of a report on active positions. */
  function PositionsBody(count: nat, totalNotional: real, totalPnl: real, net: NetDirection, risk: RiskBand,
    shown: seq<Position>, longExposure: real, shortExposure: real, advice: Advice): string
  {
    "\n\n📈 持仓概况：\n持仓合约数：" + NatToString(count) + "个\n"
    + "总名义价值：" + FormatPrice(totalNotional, "") + " USDT\n"
    + "净敞口方向：" + NetLabel(net) + "\n"
    + "风险等级：" + RiskBandLabel(risk) + "\n\n💰 详细持仓信息：\n\n"
    + Flatten(seq(|shown|, i requires 0 <= i < |shown| => PositionBlock(i, shown[i])))
    + "📊 总体分析：\n"
    + "总盈亏：" + SignPlus(totalPnl) + FormatPrice(totalPnl, "") + " USDT ("
    + FormatPercentage(Times(Div(totalPnl, totalNotional), 100.0)) + ")\n"
    + "多头敞口：" + FormatPrice(longExposure, "") + " USDT\n"
    + "空头敞口：" + FormatPrice(shortExposure, "") + " USDT\n\n"
    + "💡 操作建议：\n" + AdviceText(advice)
  }

  function PositionsText(s: PositionsSummary): string {
    match s
    case NoPositions => FlatPositionsText
    case Holding(count, totalNotional, totalPnl, net, risk, shown, longExposure, shortExposure, advice) =>
      PositionsTitle + PositionsBody(count, totalNotional, totalPnl, net, risk, shown, longExposure, shortExposure, advice)
  }

  /** `formatFuturesPositions(positions)`. */
  function FormatFuturesPositions(ps: seq<Position>): string {
    PositionsText(SummarizePositions(ps))
  }

  /** The fixed flat text appears exactly when no position has a non-zero amount. */
  lemma FormatFuturesPositionsFlat(ps: seq<Position>)
    ensures FormatFuturesPositions(ps) == FlatPositionsText <==> forall i :: 0 <= i < |ps| ==> ps[i].positionAmt == 0.0
  {
    var s := SummarizePositions(ps);
    if s.Holding? {
      var body := PositionsBody(s.count, s.totalNotional, s.totalPnl, s.net, s.risk, s.shown, s.longExposure, s.shortExposure, s.advice);
      TitleDiffers(PositionsTitle, body, FlatPositionsTitle, FlatPositionsBody, 6);
      assert PositionsText(s) != FlatPositionsText;
    } else {
      assert PositionsText(s) == FlatPositionsText;
    }
  }

  // ------------------------------------------------------ spot order placed

  /**
   * The fields of a placed spot order the confirmation reads. Exchange
   * quantities that the template tests for truthiness are `None` when the
   * exchange string is absent or empty.
   */
  datatype SpotOrderData = SpotOrderData(
    orderId: Value, symbol: string, side: string, orderType: string, price: real,
    origQty: real, executedQty: Option<real>, cummulativeQuoteQty: Option<real>,
    status: string, transactTime: int)

  const QuoteSuffixes: seq<string> := ["USDT", "BUSD", "BTC"]

  /**
   * The base currency as the confirmation computes it: the first "USDT", then
   * the first "BUSD", then the first "BTC" are deleted wherever they occur.
   */
  function BaseCurrencyAsWritten(symbol: string): string {
    ReplaceFirst(ReplaceFirst(ReplaceFirst(symbol, "USDT", ""), "BUSD", ""), "BTC", "")
  }

  /** For Bitcoin quoted in USDT both deletions apply and nothing is left. */
  lemma BaseCurrencyAsWrittenLosesBitcoin()
    ensures BaseCurrencyAsWritten("BTCUSDT") == ""
  {
    var s := "BTCUSDT";
    assert OccursAt(s, "USDT", 3);
    forall j | 0 <= j < 3 ensures !OccursAt(s, "USDT", j) {
      assert s[j..j + 4][0] == s[j];
    }
    assert ReplaceFirst(s, "USDT", "") == "BTC";
    forall k ensures !OccursAt("BTC", "BUSD", k) {
    }
    assert OccursAt("BTC", "BTC", 0);
    assert ReplaceFirst("BTC", "BTC", "") == "";
  }

  /** The base currency: the symbol without one trailing quote currency. */
  function BaseCurrency(symbol: string): string {
    if EndsWith(symbol, "USDT") then symbol[..|symbol| - 4]
    else if EndsWith(symbol, "BUSD") then symbol[..|symbol| - 4]
    else if EndsWith(symbol, "BTC") then symbol[..|symbol| - 3]
    else symbol
  }

  /** A pair quoted in USDT, BUSD or BTC gives back exactly its base asset. */
  lemma BaseCurrencyOfPair(base: string, quote: string)
    requires quote in QuoteSuffixes
    ensures BaseCurrency(base + quote) == base
  {
    var s := base + quote;
    assert s[|s| - |quote|..] == quote;
    if quote == "BTC" {
      assert s[|s| - 1] == 'C';
      assert !EndsWith(s, "USDT") && !EndsWith(s, "BUSD");
    } else if quote == "BUSD" {
      assert s[|s| - 1] == 'D';
      assert !EndsWith(s, "USDT");
    }
    assert s[..|s| - |quote|] == base;
  }

  /** The lines under "📋 订单详情": id, pair with base and quote, direction and type. */
  function OrderDetailLines(d: SpotOrderData, base: string): seq<string> {
    [ "订单编号：#" + Show(Or(d.orderId, Str("N/A"))),
      "交易对：" + d.symbol + " (" + base + "/" + (if Contains(d.symbol, "USDT") then "USDT" else "其他") + "现货)",
      "交易方向：" + (if d.side == "BUY" then "买入" else "卖出") + " (" + (if d.side == "BUY" then "开多仓" else "平多仓") + ")",
      "订单类型：" + (if d.orderType == "MARKET" then "市价单" else "限价单") ]
  }

  /** The lines under "💰 交易信息"; the fill lines are empty when the exchange left them out. */
  function TradeLines(d: SpotOrderData, base: string): seq<string> {
    [ if d.orderType == "LIMIT" then "委托价格：" + FormatPrice(d.price, d.symbol) else "市价成交",
      "委托数量：" + FormatQuantity(d.origQty, base),
      match d.executedQty case Some(q) => "成交数量：" + FormatQuantity(q, base) case None => "",
      match d.cummulativeQuoteQty case Some(q) => "成交金额：" + FormatPrice(q, d.symbol) case None => "" ]
  }

  function StatusLines(d: SpotOrderData, clock: Clock): seq<string> {
    [ "订单状态：" + OrderStatus(d.status),
      "创建时间：" + clock.show(d.transactTime),
      if d.orderType == "LIMIT" then "有效期：直到取消 (GTC)" else "立即成交" ]
  }

  function ReminderLines(d: SpotOrderData): seq<string> {
    [ if d.status == "FILLED" then "✅ 订单已完全成交" else "⏳ 订单等待成交中",
      if d.orderType == "LIMIT" then "可通过订单管理查看进度或取消订单" else "",
      "建议关注市场价格变动，及时调整策略" ]
  }

  const OrderTitleLines: seq<string> := ["✅ 现货下单成功", "", "📋 订单详情"]
  const TradeHeading: seq<string> := ["", "💰 交易信息"]
  const StatusHeading: seq<string> := ["", "📊 订单状态"]
  const ReminderHeading: seq<string> := ["", "💡 操作提醒"]

  /** The confirmation, one entry per line of the template, for a given base currency. */
  function SpotOrderLinesWith(d: SpotOrderData, clock: Clock, base: string): seq<string> {
    OrderTitleLines + OrderDetailLines(d, base) + TradeHeading + TradeLines(d, base)
    + StatusHeading + StatusLines(d, clock) + ReminderHeading + ReminderLines(d)
  }

  /** The confirmation as the template writes it, with the base currency of `BaseCurrencyAsWritten`. */
  function SpotOrderLines(d: SpotOrderData, clock: Clock): seq<string> {
    SpotOrderLinesWith(d, clock, BaseCurrencyAsWritten(d.symbol))
  }

  /** The confirmation with the base currency corrected to strip one trailing quote currency. */
  function SpotOrderLinesFixed(d: SpotOrderData, clock: Clock): seq<string> {
    SpotOrderLinesWith(d, clock, BaseCurrency(d.symbol))
  }

  /**
   * The confirmation has the template's 23 lines: the price line (index 9)
   * quotes the limit price only for type `LIMIT` and reads "市价成交" for any
   * other type, the quantity line names the base currency it is given, and
   * the status line uses the status label.
   */
  lemma SpotOrderLinesShow(d: SpotOrderData, clock: Clock, base: string)
    ensures var lines := SpotOrderLinesWith(d, clock, base);
      && |lines| == 23
      && lines[9] == (if d.orderType == "LIMIT" then "委托价格：" + FormatPrice(d.price, d.symbol) else "市价成交")
      && lines[10] == "委托数量：" + FormatQuantity(d.origQty, base)
      && lines[15] == "订单状态：" + OrderStatus(d.status)
  {
    var upper := OrderTitleLines + OrderDetailLines(d, base) + TradeHeading;
    var trade := TradeLines(d, base);
    var status := StatusLines(d, clock);
    var lower := StatusHeading + status + ReminderHeading + ReminderLines(d);
    assert |upper| == 9 && |trade| == 4 && |status| == 3;
    var lines := upper + trade + lower;
    assert SpotOrderLinesWith(d, clock, base) == lines;
    assert lines[9] == trade[0];
    assert lines[10] == trade[1];
    assert lines[15] == status[0];
  }

  /** As written, a BTCUSDT confirmation states its quantity as a bare number, naming no asset. */
  lemma SpotOrderBitcoinAsWritten(d: SpotOrderData, clock: Clock)
    requires d.symbol == "BTCUSDT"
    ensures SpotOrderLines(d, clock)[10] == "委托数量：" + FormatNumber(d.origQty, 8)
  {
    BaseCurrencyAsWrittenLosesBitcoin();
    var base := BaseCurrencyAsWritten(d.symbol);
    assert base == "";
    SpotOrderLinesShow(d, clock, base);
  }

  /** Corrected, the same confirmation names BTC after the quantity. */
  lemma SpotOrderBitcoinFixed(d: SpotOrderData, clock: Clock)
    requires d.symbol == "BTCUSDT"
    ensures SpotOrderLinesFixed(d, clock)[10] == "委托数量：" + FormatNumber(d.origQty, 8) + " BTC"
  {
    BaseCurrencyOfPair("BTC", "USDT");
    var base := BaseCurrency(d.symbol);
    assert base == "BTC";
    SpotOrderLinesShow(d, clock, base);
  }

  /** `formatSpotOrderSuccess(data)`: the template's lines joined by newlines. */
  function FormatSpotOrderSuccess(d: SpotOrderData, clock: Clock): string {
    Join(SpotOrderLines(d, clock), "\n")
  }

  /** The same confirmation with the corrected base currency. */
  function FormatSpotOrderSuccessFixed(d: SpotOrderData, clock: Clock): string {
    Join(SpotOrderLinesFixed(d, clock), "\n")
  }
}
