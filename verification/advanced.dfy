/**
 * `handleAdvancedTool` (build/tools/advanced.js): position sizing against the
 * exchange's lot size, the portfolio risk summary, and the spot/futures price
 * comparison, all in IEEE-754 arithmetic over the JavaScript arguments.
 */
module Advanced {
  import opened Wrappers
  import opened Numeric
  import opened Values
  import opened Envelope
  import opened Gateway
  import opened Bulk

  const PositionSizeTool := "binance_" + "calculate_" + "position_size"
  const PortfolioRiskTool := "binance_" + "analyze_" + "portfolio_risk"
  const CompareTool := "binance_" + "compare_" + "spot_futures_" + "price"
  const FundingCostTool := "binance_" + "calculate_" + "funding_cost"
  const OrderPrecisionTool := "binance_" + "check_" + "order_precision"
  const OptimalTradeSizeTool := "binance_" + "get_" + "optimal_trade_size"

  /** The tools the module declares, in declaration order. */
  const AdvancedTools := [PositionSizeTool, PortfolioRiskTool, CompareTool, FundingCostTool, OrderPrecisionTool, OptimalTradeSizeTool]

  /** The tools the handler has a case for. */
  const HandledTools := [PositionSizeTool, PortfolioRiskTool, CompareTool]

  // -------------------------------------------------------- position size

  /** The lot size assumed when the symbol or its LOT_SIZE filter is not listed. */
  const DefaultMinQty := 0.001

  /** `symbols.find(s => s.symbol === symbol)`, as an index; `|infos|` when there is none. */
  function FindSymbol(infos: seq<SymbolInfo>, symbol: Value): (i: nat)
    ensures i <= |infos|
    ensures i < |infos| ==> Str(infos[i].symbol) == symbol
    ensures forall j :: 0 <= j < i ==> Str(infos[j].symbol) != symbol
    decreases |infos|
  {
    if |infos| == 0 then 0
    else if Str(infos[0].symbol) == symbol then 0
    else 1 + FindSymbol(infos[1..], symbol)
  }

  /** `filters.find(f => f.filterType === 'LOT_SIZE')`, as an index; `|filters|` when there is none. */
  function FindLotSize(filters: seq<SymbolFilter>): (i: nat)
    ensures i <= |filters|
    ensures i < |filters| ==> filters[i].filterType == "LOT_SIZE"
    ensures forall j :: 0 <= j < i ==> filters[j].filterType != "LOT_SIZE"
    decreases |filters|
  {
    if |filters| == 0 then 0
    else if filters[0].filterType == "LOT_SIZE" then 0
    else 1 + FindLotSize(filters[1..])
  }

  /** The minimum quantity: the first LOT_SIZE filter of the first listing of the symbol, else the default. */
  function MinQty(infos: seq<SymbolInfo>, symbol: Value): (q: real)
    ensures (forall j :: 0 <= j < |infos| ==> Str(infos[j].symbol) != symbol) ==> q == DefaultMinQty
  {
    var i := FindSymbol(infos, symbol);
    if i == |infos| then DefaultMinQty
    else
      var k := FindLotSize(infos[i].filters);
      if k == |infos[i].filters| then DefaultMinQty else infos[i].filters[k].minQty
  }

  /** `infos[i]` is the first listing of `symbol`. */
  predicate FirstListing(infos: seq<SymbolInfo>, symbol: Value, i: nat) {
    && i < |infos| && Str(infos[i].symbol) == symbol
    && forall j :: 0 <= j < i ==> Str(infos[j].symbol) != symbol
  }

  /** `filters[k]` is the first LOT_SIZE filter. */
  predicate FirstLotSize(filters: seq<SymbolFilter>, k: nat) {
    && k < |filters| && filters[k].filterType == "LOT_SIZE"
    && forall l :: 0 <= l < k ==> filters[l].filterType != "LOT_SIZE"
  }

  /** The lot size of a listed symbol is the minimum quantity of its first LOT_SIZE filter. */
  lemma MinQtyListed(infos: seq<SymbolInfo>, symbol: Value, i: nat, k: nat)
    requires FirstListing(infos, symbol, i) && FirstLotSize(infos[i].filters, k)
    ensures MinQty(infos, symbol) == infos[i].filters[k].minQty
  {
    var fi := FindSymbol(infos, symbol);
    assert fi == i;
    var fk := FindLotSize(infos[i].filters);
    assert fk == k;
  }

  /** A listed symbol without a LOT_SIZE filter gets the default lot size. */
  lemma MinQtyWithoutLotSize(infos: seq<SymbolInfo>, symbol: Value, i: nat)
    requires FirstListing(infos, symbol, i)
    requires forall k :: 0 <= k < |infos[i].filters| ==> infos[i].filters[k].filterType != "LOT_SIZE"
    ensures MinQty(infos, symbol) == DefaultMinQty
  {
    var fi := FindSymbol(infos, symbol);
    assert fi == i;
  }

  /** The figures of a sizing, before they are written out. */
  datatype Sizing = Sizing(
    priceRisk: Ext, riskPerContract: Ext, maxContracts: Ext, recommendedSize: Ext,
    actualRisk: Ext, requiredMargin: Ext, riskRatio: Ext)

  /**
   * The sizing arithmetic: the stop distance per unit of leverage is the risk
   * of one contract; the risk budget buys a whole number of them, and the
   * recommendation is that many lots of the minimum quantity, never less than
   * one lot.
   */
  function Size(entry: Ext, stop: Ext, leverage: Ext, risk: Ext, minQty: real): Sizing {
    var priceRisk := Abs(Sub(entry, stop));
    var perContract := Quot(priceRisk, leverage);
    var maxContracts := Floor(Quot(risk, perContract));
    var recommended := Max(Times(maxContracts, minQty), Finite(minQty));
    var actual := Mul(recommended, perContract);
    Sizing(
      priceRisk, perContract, maxContracts, recommended, actual,
      Quot(Mul(recommended, entry), leverage), Times(Quot(actual, risk), 100.0))
  }

  /**
   * With finite inputs, a stop apart from the entry and a non-zero leverage,
   * every figure is finite and the recommendation is the larger of one lot
   * and the whole number of affordable contracts times the lot.
   */
  lemma SizeAtLeastOneLot(entry: real, stop: real, leverage: real, risk: real, minQty: real)
    requires entry != stop && leverage != 0.0
    ensures var s := Size(Finite(entry), Finite(stop), Finite(leverage), Finite(risk), minQty);
      && s.priceRisk == Finite(AbsReal(entry - stop))
      && s.riskPerContract == Finite(AbsReal(entry - stop) / leverage)
      && s.maxContracts == Finite((risk / s.riskPerContract.v).Floor as real)
      && s.maxContracts.v <= risk / s.riskPerContract.v < s.maxContracts.v + 1.0
      && s.recommendedSize.Finite? && s.recommendedSize.v >= minQty
      && s.recommendedSize.v >= s.maxContracts.v * minQty
      && (s.recommendedSize.v == minQty || s.recommendedSize.v == s.maxContracts.v * minQty)
      && s.actualRisk == Finite(s.recommendedSize.v * s.riskPerContract.v)
  {
    var priceRisk := Abs(Sub(Finite(entry), Finite(stop)));
    assert priceRisk == Finite(AbsReal(entry - stop));
    var perContract := Quot(priceRisk, Finite(leverage));
    assert AbsReal(entry - stop) != 0.0;
    assert perContract == Finite(AbsReal(entry - stop) / leverage);
    assert perContract.v != 0.0;
  }

  /**
   * Under the same conditions the margin is the recommended notional over the
   * leverage, and a non-zero budget gives the share of it the actual risk uses.
   */
  lemma SizeMarginAndRatio(entry: real, stop: real, leverage: real, risk: real, minQty: real)
    requires entry != stop && leverage != 0.0
    ensures var s := Size(Finite(entry), Finite(stop), Finite(leverage), Finite(risk), minQty);
      && s.recommendedSize.Finite? && s.actualRisk.Finite?
      && s.requiredMargin == Finite(s.recommendedSize.v * entry / leverage)
      && (risk != 0.0 ==> s.riskRatio == Finite(s.actualRisk.v / risk * 100.0))
  {
    SizeAtLeastOneLot(entry, stop, leverage, risk, minQty);
  }

  /**
   * A stop at the entry price makes the per-contract risk zero: a positive
   * budget then recommends an infinite size, which the JSON output writes as null.
   */
  lemma SizeZeroStopDistance(price: real, leverage: real, risk: real, minQty: real)
    requires leverage > 0.0 && risk > 0.0 && minQty > 0.0
    ensures var s := Size(Finite(price), Finite(price), Finite(leverage), Finite(risk), minQty);
      s.riskPerContract == Finite(0.0) && s.recommendedSize == PosInf && JExt(s.recommendedSize) == JNull
  {
    assert Quot(Finite(0.0), Finite(leverage)) == Finite(0.0);
  }

  function SizingJson(s: Sizing, args: Args): Json {
    JObject([
      ("recommendedSize", JExt(s.recommendedSize)), ("actualRisk", JExt(s.actualRisk)),
      ("requiredMargin", JExt(s.requiredMargin)), ("riskPerContract", JExt(s.riskPerContract)),
      ("priceRisk", JExt(s.priceRisk)), ("riskRatio", JStr(ExtToFixed(s.riskRatio, 2) + "%")),
      ("analysis", JObject([
        ("entryPrice", JValue(Get(args, "entryPrice"))), ("stopLossPrice", JValue(Get(args, "stopLossPrice"))),
        ("leverage", JValue(Get(args, "leverage"))), ("symbol", JValue(Get(args, "symbol")))]))])
  }

  /** The sizing of the arguments, each read as a number the way `-` and `/` read it. */
  function ArgsSizing(args: Args, minQty: real, parse: string -> Ext): Sizing {
    Size(
      ToNumber(Get(args, "entryPrice"), parse), ToNumber(Get(args, "stopLossPrice"), parse),
      ToNumber(Get(args, "leverage"), parse), ToNumber(Get(args, "riskAmount"), parse), minQty)
  }

  /**
   * `binance_calculate_position_size`: one exchange-information call, then the
   * sizing with the symbol's lot size. An absent argument reads as NaN and
   * spreads to every figure.
   */
  function PositionSize(args: Args, ex: Exchange, parse: string -> Ext): (r: Run)
    ensures r.calls == [GetExchangeInfo]
    ensures ex.exchangeInfo().Raised? ==> r.result == Caught(ex.exchangeInfo().exc, UnknownError)
    ensures ex.exchangeInfo().Returned? ==>
      var minQty := MinQty(ex.exchangeInfo().value, Get(args, "symbol"));
      r.result == Success(Data(SizingJson(ArgsSizing(args, minQty, parse), args)))
  {
    match ex.exchangeInfo()
    case Raised(e) => Run(Caught(e, UnknownError), [GetExchangeInfo])
    case Returned(infos) =>
      var minQty := MinQty(infos, Get(args, "symbol"));
      Run(Success(Data(SizingJson(ArgsSizing(args, minQty, parse), args))), [GetExchangeInfo])
  }

  /** Without an entry price every figure is NaN, so none is written as a number. */
  lemma PositionSizeWithoutEntry(args: Args, minQty: real, parse: string -> Ext)
    requires "entryPrice" !in args
    ensures var s := ArgsSizing(args, minQty, parse);
      s.priceRisk == NaN && s.recommendedSize == NaN && s.actualRisk == NaN && s.requiredMargin == NaN
  {
  }

  // ------------------------------------------------------- portfolio risk

  predicate Profitable(p: ExchangePosition) { p.unRealizedProfit > 0.0 }

  predicate Losing(p: ExchangePosition) { p.unRealizedProfit < 0.0 }

  /** A position is never both in profit and at a loss, so the two counts fit in the book. */
  lemma {:induction false} ProfitLossBound(ps: seq<ExchangePosition>)
    ensures Count(ps, Profitable) + Count(ps, Losing) <= |ps|
    decreases |ps|
  {
    if |ps| > 0 {
      ProfitLossBound(ps[..|ps| - 1]);
    }
  }

  /** `positions.reduce((sum, p) => sum + p.unRealizedProfit, 0)`. */
  function TotalUnrealized(ps: seq<ExchangePosition>): (t: real)
    ensures (forall i :: 0 <= i < |ps| ==> ps[i].unRealizedProfit >= 0.0) ==> t >= 0.0
    decreases |ps|
  {
    if |ps| == 0 then 0.0 else TotalUnrealized(ps[..|ps| - 1]) + ps[|ps| - 1].unRealizedProfit
  }

  /** The unrealised total of two books is the sum of theirs, so each position adds its own profit once. */
  lemma {:induction false} TotalUnrealizedAppend(a: seq<ExchangePosition>, b: seq<ExchangePosition>)
    ensures TotalUnrealized(a + b) == TotalUnrealized(a) + TotalUnrealized(b)
    decreases |b|
  {
    if |b| > 0 {
      var n := |b| - 1;
      assert (a + b)[..|a + b| - 1] == a + b[..n];
      TotalUnrealizedAppend(a, b[..n]);
    } else {
      assert a + b == a;
    }
  }

  /** A single position's unrealised total is its own profit. */
  lemma TotalUnrealizedSingle(p: ExchangePosition)
    ensures TotalUnrealized([p]) == p.unRealizedProfit
  {
    assert [p][..0] == [];
  }

  /** The spot value: the sum of the totals, an absent total counting as zero. */
  function SpotValue(bs: seq<SpotBalance>): (t: real)
    ensures (forall i :: 0 <= i < |bs| ==> bs[i].total.None?) ==> t == 0.0
    decreases |bs|
  {
    if |bs| == 0 then 0.0 else SpotValue(bs[..|bs| - 1]) + bs[|bs| - 1].total.GetOr(0.0)
  }

  /** The spot value of two lists of balances is the sum of theirs. */
  lemma {:induction false} SpotValueAppend(a: seq<SpotBalance>, b: seq<SpotBalance>)
    ensures SpotValue(a + b) == SpotValue(a) + SpotValue(b)
    decreases |b|
  {
    if |b| > 0 {
      var n := |b| - 1;
      assert (a + b)[..|a + b| - 1] == a + b[..n];
      SpotValueAppend(a, b[..n]);
    } else {
      assert a + b == a;
    }
  }

  /** A single balance adds its total, or nothing when it has none. */
  lemma SpotValueSingle(b: SpotBalance)
    ensures SpotValue([b]) == b.total.GetOr(0.0)
  {
    assert [b][..0] == [];
  }

  /** The share of the margin balance in use, in percent; a zero balance gives an infinity or NaN. */
  function MarginUsage(total: real, available: real): (u: Ext)
    ensures total != 0.0 ==> u == Finite((total - available) / total * 100.0)
    ensures total == 0.0 ==> (u == PosInf <==> available < 0.0) && (u == NaN <==> available == 0.0)
  {
    Times(Div(total - available, total), 100.0)
  }

  function MarginRiskLevel(usage: Ext): string {
    if Gt(usage, 80.0) then "HIGH" else if Gt(usage, 50.0) then "MEDIUM" else "LOW"
  }

  /**
   * The risk level moves with the finite margin use: HIGH above 80 percent,
   * MEDIUM above 50, LOW otherwise; an empty account with nothing available is LOW.
   */
  lemma MarginRiskLevelBands(total: real, available: real)
    ensures var level := MarginRiskLevel(MarginUsage(total, available));
      && (total > 0.0 ==>
            && (level == "HIGH" <==> total - available > 0.8 * total)
            && (level == "LOW" <==> total - available <= 0.5 * total))
      && (total == 0.0 && available == 0.0 ==> level == "LOW")
      && (total == 0.0 && available < 0.0 ==> level == "HIGH")
  {
    if total > 0.0 {
      DivAbove(total - available, total, 0.8);
      DivAbove(total - available, total, 0.5);
    }
  }

  const HighMarginAdvice := "保证金使用率较高，建议降低仓位或增加资金"
  const ManyLossesAdvice := "亏损仓位较多，建议检查止损策略"
  const DeepLossAdvice := "总浮亏较大，建议调整仓位管理"

  /** The place of an advice in the fixed order: margin use, then losing positions, then the total loss. */
  function AdviceRank(advice: string): nat {
    if advice == HighMarginAdvice then 0 else if advice == ManyLossesAdvice then 1 else 2
  }

  /**
   * The recommendations that apply, in their fixed order, the others left
   * out: together the clauses determine the list.
   */
  function Recommendations(usage: Ext, losing: nat, positions: nat, pnl: real, total: real): (rs: seq<string>)
    ensures |rs| <= 3
    ensures forall i :: 0 <= i < |rs| ==> rs[i] == HighMarginAdvice || rs[i] == ManyLossesAdvice || rs[i] == DeepLossAdvice
    ensures HighMarginAdvice in rs <==> Gt(usage, 70.0)
    ensures ManyLossesAdvice in rs <==> (losing as real) > (positions as real) * 0.6
    ensures DeepLossAdvice in rs <==> pnl < -total * 0.05
    ensures forall i, j :: 0 <= i < j < |rs| ==> AdviceRank(rs[i]) < AdviceRank(rs[j])
  {
    (if Gt(usage, 70.0) then [HighMarginAdvice] else [])
    + (if (losing as real) > (positions as real) * 0.6 then [ManyLossesAdvice] else [])
    + (if pnl < -total * 0.05 then [DeepLossAdvice] else [])
  }

  function RiskJson(account: PortfolioAccount, bs: seq<SpotBalance>, ps: seq<ExchangePosition>): Json {
    var total, available := account.totalMarginBalance, account.availableBalance;
    var usage := MarginUsage(total, available);
    var losing := Count(ps, Losing);
    var pnl := TotalUnrealized(ps);
    var recs := Recommendations(usage, losing, |ps|, pnl, total);
    JObject([
      ("overview", JObject([
        ("totalBalance", JNum(total)), ("availableBalance", JNum(available)), ("usedMargin", JNum(total - available)),
        ("marginUsageRatio", JStr(ExtToFixed(usage, 2) + "%")), ("riskLevel", JStr(MarginRiskLevel(usage)))])),
      ("positions", JObject([
        ("totalPositions", JInt(|ps|)), ("profitablePositions", JInt(Count(ps, Profitable))),
        ("lossPositions", JInt(losing)), ("totalUnrealizedPnl", JNum(pnl))])),
      ("spotAssets", JObject([("totalAssets", JInt(|bs|)), ("totalValue", JNum(SpotValue(bs)))])),
      ("recommendations", JArray(seq(|recs|, i requires 0 <= i < |recs| => JStr(recs[i]))))])
  }

  /**
   * The position block of the analysis counts the positions in profit and at
   * a loss, which together never exceed the number of positions.
   */
  lemma RiskPositionCounts(account: PortfolioAccount, bs: seq<SpotBalance>, ps: seq<ExchangePosition>)
    ensures var block := RiskJson(account, bs, ps).fields[1];
      && block.0 == "positions" && block.1.JObject? && |block.1.fields| == 4
      && block.1.fields[0] == ("totalPositions", JInt(|ps|))
      && block.1.fields[1] == ("profitablePositions", JInt(Count(ps, Profitable)))
      && block.1.fields[2] == ("lossPositions", JInt(Count(ps, Losing)))
      && block.1.fields[3] == ("totalUnrealizedPnl", JNum(TotalUnrealized(ps)))
      && Count(ps, Profitable) + Count(ps, Losing) <= |ps|
  {
    ProfitLossBound(ps);
  }

  /**
   * `binance_analyze_portfolio_risk`: the unified account, then the spot
   * balances, then every position, each call made only once the previous
   * one returned.
   */
  function PortfolioRisk(ex: Exchange): (r: Run)
    ensures 1 <= |r.calls| <= 3 && r.calls == [GetPortfolioAccount, ListBalances, ListPositions(Undefined)][..|r.calls|]
    ensures ex.portfolioAccount().Raised? ==> r == Run(Caught(ex.portfolioAccount().exc, UnknownError), [GetPortfolioAccount])
    ensures ex.portfolioAccount().Returned? && ex.balances().Raised? ==>
      r == Run(Caught(ex.balances().exc, UnknownError), [GetPortfolioAccount, ListBalances])
    ensures ex.portfolioAccount().Returned? && ex.balances().Returned? ==> |r.calls| == 3
    ensures r.result.Success? <==>
      ex.portfolioAccount().Returned? && ex.balances().Returned? && ex.positions(Undefined).Returned?
    ensures r.result.Success? ==>
      r.result == Success(Data(RiskJson(ex.portfolioAccount().value, ex.balances().value, ex.positions(Undefined).value)))
    ensures ex.portfolioAccount().Returned? && ex.balances().Returned? && ex.positions(Undefined).Raised? ==>
      r.result == Caught(ex.positions(Undefined).exc, UnknownError)
  {
    match ex.portfolioAccount()
    case Raised(e) => Run(Caught(e, UnknownError), [GetPortfolioAccount])
    case Returned(account) =>
      match ex.balances()
      case Raised(e) => Run(Caught(e, UnknownError), [GetPortfolioAccount, ListBalances])
      case Returned(bs) =>
        var calls := [GetPortfolioAccount, ListBalances, ListPositions(Undefined)];
        match ex.positions(Undefined)
        case Raised(e) => Run(Caught(e, UnknownError), calls)
        case Returned(ps) => Run(Success(Data(RiskJson(account, bs, ps))), calls)
  }

  // --------------------------------------------------- spot/futures prices

  /** The pair both prices are asked for: the argument as a template literal, then USDT. */
  function ComparedPair(args: Args): string {
    Show(Get(args, "symbol")) + "USDT"
  }

  /** The premium of the futures price over the spot price, in percent of the spot price. */
  function DiffPercent(spot: real, futures: real): (d: Ext)
    ensures spot != 0.0 ==> d == Finite((futures - spot) / spot * 100.0)
  {
    Times(Div(futures - spot, spot), 100.0)
  }

  function Arbitrage(d: Ext): string {
    if Gt(Abs(d), 0.5) then (if Gt(d, 0.0) then "SELL_FUTURES_BUY_SPOT" else "BUY_FUTURES_SELL_SPOT") else "NONE"
  }

  /**
   * For a positive spot price, the futures side is sold when it trades more
   * than half a percent above spot, bought when more than half a percent below,
   * and nothing is suggested in between; the gap is significant above one percent.
   */
  lemma ArbitrageBands(spot: real, futures: real)
    requires spot > 0.0
    ensures var d := DiffPercent(spot, futures);
      && (Arbitrage(d) == "SELL_FUTURES_BUY_SPOT" <==> futures - spot > spot / 200.0)
      && (Arbitrage(d) == "BUY_FUTURES_SELL_SPOT" <==> spot - futures > spot / 200.0)
      && (Arbitrage(d) == "NONE" <==> AbsReal(futures - spot) <= spot / 200.0)
      && (Gt(Abs(d), 1.0) <==> AbsReal(futures - spot) > spot / 100.0)
  {
    var q := (futures - spot) / spot;
    assert DiffPercent(spot, futures) == Finite(q * 100.0);
    ArbitrageOfRatio(q);
    DivAbove(futures - spot, spot, 0.005);
    DivBelow(futures - spot, spot, -0.005);
    DivAbove(futures - spot, spot, 0.01);
    DivBelow(futures - spot, spot, -0.01);
  }

  /** The bands in terms of the price ratio `q`, before it is scaled to a percentage. */
  lemma ArbitrageOfRatio(q: real)
    ensures Arbitrage(Finite(q * 100.0)) == "SELL_FUTURES_BUY_SPOT" <==> q > 0.005
    ensures Arbitrage(Finite(q * 100.0)) == "BUY_FUTURES_SELL_SPOT" <==> q < -0.005
    ensures Arbitrage(Finite(q * 100.0)) == "NONE" <==> -0.005 <= q <= 0.005
    ensures Gt(Abs(Finite(q * 100.0)), 1.0) <==> q > 0.01 || q < -0.01
  {
    assert Abs(Finite(q * 100.0)) == Finite(AbsReal(q * 100.0));
  }

  /** Dividing by a positive number keeps the comparison with a bound scaled by it. */
  lemma DivAbove(x: real, t: real, c: real)
    requires t > 0.0
    ensures x / t > c <==> x > c * t
  {
    var q := x / t;
    assert q * t == x;
    if q > c {
      assert (q - c) * t > 0.0;
    } else {
      assert (c - q) * t >= 0.0;
    }
  }

  lemma DivBelow(x: real, t: real, c: real)
    requires t > 0.0
    ensures x / t < c <==> x < c * t
  {
    var q := x / t;
    assert q * t == x;
    if q < c {
      assert (c - q) * t > 0.0;
    } else {
      assert (q - c) * t >= 0.0;
    }
  }

  /** A zero spot price with a zero futures price gives NaN, which suggests nothing. */
  lemma ArbitrageZeroPrices()
    ensures DiffPercent(0.0, 0.0) == NaN && Arbitrage(DiffPercent(0.0, 0.0)) == "NONE"
  {
  }

  function CompareJson(args: Args, spot: real, futures: real, clock: Clock): Json {
    var d := DiffPercent(spot, futures);
    JObject([
      ("symbol", JValue(Get(args, "symbol"))), ("spotPrice", JNum(spot)), ("futuresPrice", JNum(futures)),
      ("priceDifference", JNum(futures - spot)), ("diffPercent", JStr(ExtToFixed(d, 4) + "%")),
      ("arbitrageOpportunity", JStr(Arbitrage(d))),
      ("analysis", JObject([
        ("premium", JStr(if Gt(d, 0.0) then "合约溢价" else "合约贴水")),
        ("significance", JStr(if Gt(Abs(d), 1.0) then "SIGNIFICANT" else "NORMAL")),
        ("timestamp", JInt(clock.now))]))])
  }

  /**
   * `binance_compare_spot_futures_price`: both prices are asked for at once;
   * a failed spot call is reported before a failed futures call.
   */
  function Compare(args: Args, ex: Exchange, clock: Clock): (r: Run)
    ensures r.calls == [GetSpotPrice(ComparedPair(args)), GetFuturesPrice(ComparedPair(args))]
    ensures var s, f := ex.spotPrice(ComparedPair(args)), ex.futuresPrice(ComparedPair(args));
      && (s.Raised? ==> r.result == Caught(s.exc, UnknownError))
      && (s.Returned? && f.Raised? ==> r.result == Caught(f.exc, UnknownError))
      && (s.Returned? && f.Returned? ==> r.result == Success(Data(CompareJson(args, s.value, f.value, clock))))
  {
    var pair := ComparedPair(args);
    var calls := [GetSpotPrice(pair), GetFuturesPrice(pair)];
    match ex.spotPrice(pair)
    case Raised(e) => Run(Caught(e, UnknownError), calls)
    case Returned(spot) =>
      match ex.futuresPrice(pair)
      case Raised(e) => Run(Caught(e, UnknownError), calls)
      case Returned(futures) => Run(Success(Data(CompareJson(args, spot, futures, clock))), calls)
  }

  /** A missing symbol is not refused: the pair asked for is "undefinedUSDT". */
  lemma CompareWithoutSymbol(args: Args)
    requires "symbol" !in args
    ensures ComparedPair(args) == "undefinedUSDT"
  {
  }

  const UnknownAdvancedTool := "未知的高级工具: "

  /**
   * `handleAdvancedTool(name, args)`: the three declared tools without a case,
   * like any other name, fail with the unknown-tool error and make no call.
   */
  function Handle(name: string, args: Args, ex: Exchange, clock: Clock, parse: string -> Ext): (r: Run)
    ensures name !in HandledTools ==> r == Run(Failure(UnknownAdvancedTool + name), [])
    ensures name == PositionSizeTool ==> r == PositionSize(args, ex, parse)
    ensures name == PortfolioRiskTool ==> r == PortfolioRisk(ex)
    ensures name == CompareTool ==> r == Compare(args, ex, clock)
  {
    if name == PositionSizeTool then PositionSize(args, ex, parse)
    else if name == PortfolioRiskTool then PortfolioRisk(ex)
    else if name == CompareTool then Compare(args, ex, clock)
    else Run(Failure(UnknownAdvancedTool + name), [])
  }

  /** Half of the declared tools have no case in the handler. */
  lemma DeclaredWithoutCase(args: Args, ex: Exchange, clock: Clock, parse: string -> Ext)
    ensures forall i :: 3 <= i < |AdvancedTools| ==>
      Handle(AdvancedTools[i], args, ex, clock, parse).result == Failure(UnknownAdvancedTool + AdvancedTools[i])
  {
    assert FundingCostTool[18] != PositionSizeTool[18] && FundingCostTool[9] != CompareTool[9];
    assert OrderPrecisionTool[9] != PositionSizeTool[9] && OrderPrecisionTool[9] != CompareTool[9];
    assert OptimalTradeSizeTool[8] != PositionSizeTool[8] && OptimalTradeSizeTool[8] != CompareTool[8];
    assert FundingCostTool[8] != PortfolioRiskTool[8] && OrderPrecisionTool[8] != PortfolioRiskTool[8];
    assert OptimalTradeSizeTool[8] != PortfolioRiskTool[8];
  }
}
