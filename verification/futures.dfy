/**
 * `handleFuturesTool` (src/tools/futures.ts): place-order defaults, cancel-all,
 * close-position, margin type, the single-call cases, and the envelope.
 */
module Futures {
  import opened Values
  import opened Envelope
  import opened Gateway
  import opened Bulk

  const PlaceOrderTool := "binance_futures_" + "place_order"
  const CancelOrderTool := "binance_futures_" + "cancel_order"
  const OpenOrdersTool := "binance_futures_" + "open_orders"
  const OrderHistoryTool := "binance_futures_" + "order_history"
  const ChangeLeverageTool := "binance_futures_" + "change_leverage"
  const SetMarginTypeTool := "binance_futures_" + "set_margin_type"
  const TradeHistoryTool := "binance_futures_" + "trade_history"
  const CancelAllTool := "binance_futures_" + "cancel_all_orders"
  const ClosePositionTool := "binance_futures_" + "close_position"

  /** The tools the handler declares, in declaration order. */
  const FuturesTools := [
    PlaceOrderTool, CancelOrderTool, OpenOrdersTool, OrderHistoryTool, ChangeLeverageTool,
    SetMarginTypeTool, TradeHistoryTool, CancelAllTool, ClosePositionTool]

  /** The cases that make one exchange call and reshape its answer. */
  const ReshapedTools := [CancelOrderTool, OpenOrdersTool, OrderHistoryTool, ChangeLeverageTool, TradeHistoryTool]

  /**
   * The order `binance_futures_place_order` sends, without any validation:
   * `positionSide` defaults to BOTH, `timeInForce` to GTC, the rest is passed
   * on unchanged.
   */
  function OrderRequest(args: Args): (o: FuturesOrderRequest)
    ensures o.positionSide == (if Truthy(Get(args, "positionSide")) then Get(args, "positionSide") else Str("BOTH"))
    ensures o.timeInForce == (if Truthy(Get(args, "timeInForce")) then Get(args, "timeInForce") else Str("GTC"))
    ensures && o.symbol == Get(args, "symbol") && o.side == Get(args, "side") && o.orderType == Get(args, "type")
            && o.quantity == Get(args, "quantity") && o.price == Get(args, "price")
            && o.reduceOnly == Get(args, "reduceOnly") && o.stopPrice == Get(args, "stopPrice")
            && o.closePosition == Get(args, "closePosition")
  {
    FuturesOrderRequest(
      Get(args, "symbol"), Get(args, "side"), Or(Get(args, "positionSide"), Str("BOTH")), Get(args, "type"),
      Get(args, "quantity"), Get(args, "price"), Or(Get(args, "timeInForce"), Str("GTC")),
      Get(args, "reduceOnly"), Get(args, "stopPrice"), Get(args, "closePosition"))
  }

  /** The success data of a placed order; absent or empty prices become `null`. */
  function OrderJson(o: FuturesOrder): (j: Json)
    ensures j.JObject? && |j.fields| == 16
    ensures j.fields[7] == ("price", if o.price.Some? then JNum(o.price.value) else JNull)
    ensures j.fields[8] == ("avgPrice", if o.avgPrice.Some? then JNum(o.avgPrice.value) else JNull)
    ensures j.fields[13] == ("stopPrice", if o.stopPrice.Some? then JNum(o.stopPrice.value) else JNull)
  {
    JObject([
      ("orderId", JValue(o.orderId)), ("clientOrderId", JValue(o.clientOrderId)), ("symbol", JValue(o.symbol)),
      ("side", JValue(o.side)), ("positionSide", JValue(o.positionSide)), ("type", JValue(o.orderType)),
      ("quantity", JNum(o.origQty)), ("price", JOption(o.price)), ("avgPrice", JOption(o.avgPrice)),
      ("executedQty", JNum(o.executedQty)), ("status", JValue(o.status)), ("timeInForce", JValue(o.timeInForce)),
      ("reduceOnly", JValue(o.reduceOnly)), ("stopPrice", JOption(o.stopPrice)), ("time", JValue(o.time)),
      ("updateTime", JValue(o.updateTime))])
  }

  /** `binance_futures_place_order`: exactly one order call. */
  function PlaceOrder(args: Args, ex: Exchange): (r: Run)
    ensures r.calls == [PlaceFuturesOrder(OrderRequest(args))]
    ensures ex.placeFuturesOrder(OrderRequest(args)).Returned? <==> r.result.Success?
    ensures var placed := ex.placeFuturesOrder(OrderRequest(args));
      && (placed.Returned? ==> r.result == Success(Data(OrderJson(placed.value))))
      && (placed.Raised? ==> r.result == Caught(placed.exc, UnknownError))
  {
    var request := OrderRequest(args);
    match ex.placeFuturesOrder(request)
    case Returned(order) => Run(Success(Data(OrderJson(order))), [PlaceFuturesOrder(request)])
    case Raised(e) => Run(Caught(e, UnknownError), [PlaceFuturesOrder(request)])
  }

  /** `binance_futures_cancel_all_orders`: the same fold as on the spot side. */
  function CancelAll(args: Args, ex: Exchange): (r: Run)
    ensures var symbol := Get(args, "symbol");
      && |r.calls| >= 1 && r.calls[0] == ListFuturesOpenOrders(symbol)
      && (ex.futuresOpenOrders(symbol).Raised? ==> r.result == Caught(ex.futuresOpenOrders(symbol).exc, UnknownError) && |r.calls| == 1)
      && (ex.futuresOpenOrders(symbol).Returned? ==>
            var ids := ex.futuresOpenOrders(symbol).value;
            && r.calls == [ListFuturesOpenOrders(symbol)] + CancelCalls(symbol, ids)
            && r.result == Success(Data(CancelReportJson(CancelAllReport(ids, CancelAttempts(symbol, ids, ex))))))
  {
    var symbol := Get(args, "symbol");
    match ex.futuresOpenOrders(symbol)
    case Raised(e) => Run(Caught(e, UnknownError), [ListFuturesOpenOrders(symbol)])
    case Returned(ids) =>
      var report := CancelAllReport(ids, CancelAttempts(symbol, ids, ex));
      Run(Success(Data(CancelReportJson(report))), [ListFuturesOpenOrders(symbol)] + CancelCalls(symbol, ids))
  }

  /** The gateway's answer to the cancel of each of `ids`, in order. */
  function CancelAttempts(symbol: Value, ids: seq<Value>, ex: Exchange): (a: seq<Call<Value>>)
    ensures |a| == |ids|
    ensures forall i :: 0 <= i < |ids| ==> a[i] == ex.cancelFuturesOrder(symbol, ids[i])
  {
    seq(|ids|, i requires 0 <= i < |ids| => ex.cancelFuturesOrder(symbol, ids[i]))
  }

  /**
   * What the tool reports once the open orders are listed: every open order
   * is counted once, cancelled or failed, and the cancelled count is the
   * number of cancel calls that returned.
   */
  lemma CancelAllReported(args: Args, ex: Exchange)
    requires ex.futuresOpenOrders(Get(args, "symbol")).Returned?
    ensures var symbol := Get(args, "symbol");
      var ids := ex.futuresOpenOrders(symbol).value;
      var report := CancelAllReport(ids, CancelAttempts(symbol, ids, ex));
      && CancelAll(args, ex).result == Success(Data(CancelReportJson(report)))
      && report.totalOrders == |ids| == |report.results|
      && report.cancelled + report.failed == |ids|
      && report.cancelled == Count(CancelAttempts(symbol, ids, ex), Succeeded)
  {
    var symbol := Get(args, "symbol");
    var ids := ex.futuresOpenOrders(symbol).value;
    CancelAllCounts(ids, CancelAttempts(symbol, ids, ex));
  }

  /** The cancel calls of `ids`, one per order and in order, as recorded in the trace. */
  function CancelCalls(symbol: Value, ids: seq<Value>): (cs: seq<ExchangeCall>)
    ensures |cs| == |ids|
    ensures forall i :: 0 <= i < |ids| ==> cs[i] == CancelFuturesOrder(symbol, ids[i])
  {
    seq(|ids|, i requires 0 <= i < |ids| => CancelFuturesOrder(symbol, ids[i]))
  }

  /**
   * `binance_futures_close_position`: list the positions of the symbol, then
   * send one reduce-only market order per position not skipped, in order.
   */
  function ClosePosition(args: Args, ex: Exchange): (r: Run)
    ensures var symbol := Get(args, "symbol");
      && |r.calls| >= 1 && r.calls[0] == ListPositions(symbol)
      && (ex.positions(symbol).Raised? ==> r.result == Caught(ex.positions(symbol).exc, UnknownError) && |r.calls| == 1)
      && (ex.positions(symbol).Returned? ==>
            var todo := ToClose(ex.positions(symbol).value, Get(args, "positionSide"));
            && r.calls == [ListPositions(symbol)] + CloseCalls(symbol, todo)
            && r.result == Success(Data(CloseReportJson(
                 ClosePositionsReport(ex.positions(symbol).value, Get(args, "positionSide"), CloseAttempts(symbol, todo, ex))))))
  {
    var symbol := Get(args, "symbol");
    match ex.positions(symbol)
    case Raised(e) => Run(Caught(e, UnknownError), [ListPositions(symbol)])
    case Returned(ps) =>
      var todo := ToClose(ps, Get(args, "positionSide"));
      var report := ClosePositionsReport(ps, Get(args, "positionSide"), CloseAttempts(symbol, todo, ex));
      Run(Success(Data(CloseReportJson(report))), [ListPositions(symbol)] + CloseCalls(symbol, todo))
  }

  /** The gateway's answer to the close order of each position of `todo`, in order. */
  function CloseAttempts(symbol: Value, todo: seq<ExchangePosition>, ex: Exchange): (a: seq<Call<FuturesOrder>>)
    ensures |a| == |todo|
    ensures forall i :: 0 <= i < |todo| ==> a[i] == ex.placeFuturesOrder(CloseOrder(symbol, todo[i]))
  {
    seq(|todo|, i requires 0 <= i < |todo| => ex.placeFuturesOrder(CloseOrder(symbol, todo[i])))
  }

  /**
   * What the tool reports once the positions are listed: the total counts
   * every fetched position, each position not skipped is closed or failed,
   * and the closed count is the number of close orders that returned.
   */
  lemma ClosePositionReported(args: Args, ex: Exchange)
    requires ex.positions(Get(args, "symbol")).Returned?
    ensures var symbol := Get(args, "symbol");
      var ps := ex.positions(symbol).value;
      var todo := ToClose(ps, Get(args, "positionSide"));
      var report := ClosePositionsReport(ps, Get(args, "positionSide"), CloseAttempts(symbol, todo, ex));
      && ClosePosition(args, ex).result == Success(Data(CloseReportJson(report)))
      && report.totalPositions == |ps|
      && report.closed + report.failed == |todo| == |report.results| <= |ps|
      && report.closed == Count(CloseAttempts(symbol, todo, ex), Succeeded)
  {
    var symbol := Get(args, "symbol");
    var ps := ex.positions(symbol).value;
    var todo := ToClose(ps, Get(args, "positionSide"));
    ClosePositionsCounts(ps, Get(args, "positionSide"), CloseAttempts(symbol, todo, ex));
  }

  /** The close orders of `todo`, as recorded in the trace. */
  function CloseCalls(symbol: Value, todo: seq<ExchangePosition>): (cs: seq<ExchangeCall>)
    ensures |cs| == |todo|
    ensures forall i :: 0 <= i < |todo| ==> cs[i] == PlaceFuturesOrder(CloseOrder(symbol, todo[i]))
  {
    seq(|todo|, i requires 0 <= i < |todo| => PlaceFuturesOrder(CloseOrder(symbol, todo[i])))
  }

  /** `binance_futures_set_margin_type`: the request's symbol and margin type are echoed once the call returns. */
  function SetMargin(args: Args, ex: Exchange): (r: Run)
    ensures var symbol, marginType := Get(args, "symbol"), Get(args, "marginType");
      && r.calls == [SetMarginType(symbol, marginType)]
      && (ex.setMarginType(symbol, marginType).Returned? ==>
            r.result == Success(Data(JObject([("symbol", JValue(symbol)), ("marginType", JValue(marginType))]))))
      && (ex.setMarginType(symbol, marginType).Raised? ==>
            r.result == Failure(MessageOr(ex.setMarginType(symbol, marginType).exc, UnknownError)))
  {
    var symbol, marginType := Get(args, "symbol"), Get(args, "marginType");
    match ex.setMarginType(symbol, marginType)
    case Returned(_) =>
      Run(Success(Data(JObject([("symbol", JValue(symbol)), ("marginType", JValue(marginType))]))), [SetMarginType(symbol, marginType)])
    case Raised(e) => Run(Caught(e, UnknownError), [SetMarginType(symbol, marginType)])
  }

  /** The answer of a successful margin change is ignored: any two returning exchanges give the same run. */
  lemma SetMarginIgnoresAnswer(args: Args, ex1: Exchange, ex2: Exchange)
    requires ex1.setMarginType(Get(args, "symbol"), Get(args, "marginType")).Returned?
    requires ex2.setMarginType(Get(args, "symbol"), Get(args, "marginType")).Returned?
    ensures SetMargin(args, ex1) == SetMargin(args, ex2)
  {
  }

  const UnknownFuturesTool := "未知的合约交易工具: "

  /** `handleFuturesTool(name, args)`: every outcome is an envelope. */
  function Handle(name: string, args: Args, ex: Exchange): (r: Run)
    ensures name !in FuturesTools ==> r == Run(Failure(UnknownFuturesTool + name), [])
    ensures name == PlaceOrderTool ==> r == PlaceOrder(args, ex)
    ensures name == CancelAllTool ==> r == CancelAll(args, ex)
    ensures name == ClosePositionTool ==> r == ClosePosition(args, ex)
    ensures name == SetMarginTypeTool ==> r == SetMargin(args, ex)
  {
    if name == PlaceOrderTool then PlaceOrder(args, ex)
    else if name == CancelAllTool then CancelAll(args, ex)
    else if name == ClosePositionTool then ClosePosition(args, ex)
    else if name == SetMarginTypeTool then SetMargin(args, ex)
    else if name in ReshapedTools then
      match ex.reshaped(name, args)
      case Returned(json) => Run(Success(Data(json)), [Reshaped(name)])
      case Raised(e) => Run(Caught(e, UnknownError), [Reshaped(name)])
    else Run(Failure(UnknownFuturesTool + name), [])
  }
}
