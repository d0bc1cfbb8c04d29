/**
 * `handleSpotTool` (src/tools/spot.ts): the validated place-order pipeline,
 * cancel-all, the single-call cases, and the envelope around them.
 */
module Spot {
  import opened Wrappers
  import opened Text
  import opened Values
  import opened Envelope
  import opened Validation
  import opened Formatter
  import opened Gateway
  import opened Bulk

  const PlaceOrderTool := "binance_spot_" + "place_order"
  const CancelOrderTool := "binance_spot_" + "cancel_order"
  const OpenOrdersTool := "binance_spot_" + "open_orders"
  const OrderHistoryTool := "binance_spot_" + "order_history"
  const TradeHistoryTool := "binance_spot_" + "trade_history"
  const CancelAllTool := "binance_spot_" + "cancel_all_orders"

  /** The tools the handler declares, in declaration order. */
  const SpotTools := [PlaceOrderTool, CancelOrderTool, OpenOrdersTool, OrderHistoryTool, TradeHistoryTool, CancelAllTool]

  /** The cases that make one exchange call and reshape its answer. */
  const ReshapedTools := [CancelOrderTool, OpenOrdersTool, OrderHistoryTool, TradeHistoryTool]

  /**
   * The place-order rules. The price is required unless the raw `type`
   * argument is exactly "MARKET", tested before any normalisation.
   */
  function PlaceOrderRules(args: Args): (rules: Rules)
    ensures DistinctKeys(rules)
  {
    [ ("symbol", Rule(Some(true), SymbolKind)),
      ("side", Rule(Some(true), SideKind)),
      ("type", Rule(Some(true), OrderTypeKind)),
      ("quantity", Rule(Some(true), QuantityKind)),
      ("price", Rule(Some(Get(args, "type") != Str("MARKET")), PriceKind)) ]
  }

  /** The order sent: the validated fields, `timeInForce` defaulting to GTC, `stopPrice` as given. */
  function OrderRequest(data: map<string, Value>, args: Args): (o: SpotOrderRequest)
    ensures o.timeInForce == (if Truthy(Get(args, "timeInForce")) then Get(args, "timeInForce") else Str("GTC"))
    ensures o.symbol == Get(data, "symbol") && o.quantity == Get(data, "quantity") && o.price == Get(data, "price")
    ensures o.side == Get(data, "side") && o.orderType == Get(data, "type") && o.stopPrice == Get(args, "stopPrice")
  {
    SpotOrderRequest(
      Get(data, "symbol"), Get(data, "side"), Get(data, "type"), Get(data, "quantity"), Get(data, "price"),
      Or(Get(args, "timeInForce"), Str("GTC")), Get(args, "stopPrice"))
  }

  /** What the confirmation reads from the placed order; the time falls back to the clock. */
  function ConfirmationData(order: PlacedSpotOrder, clock: Clock): SpotOrderData {
    SpotOrderData(
      order.orderId, order.symbol, order.side, order.orderType, order.price, order.origQty,
      order.executedQty, order.cummulativeQuoteQty, order.status,
      order.updateTime.GetOr(order.transactTime.GetOr(clock.now)))
  }

  const PlaceOrderFailurePrefix := "下单失败: "

  const PlaceOrderRemedies :=
    "\n\n💡 常见解决方案:\n• 检查账户余额是否充足\n• 验证价格和数量精度是否正确\n• 确认交易对是否存在且可交易\n• 检查网络连接和API权限"

  /** The error of a rejected order call: the prefix, the message, the remedies. */
  function PlaceOrderFailure(e: Exception): string {
    PlaceOrderFailurePrefix + MessageOr(e, UnknownError) + PlaceOrderRemedies
  }

  /** The confirmation with the validation warnings, when there are any, above it. */
  function WithWarnings(warnings: seq<string>, text: string): (r: string)
    ensures warnings == [] ==> r == text
    ensures warnings != [] ==> r == FormatValidationWarnings(warnings) + "\n\n" + text
  {
    if |warnings| > 0 then FormatValidationWarnings(warnings) + "\n\n" + text else text
  }

  /**
   * `binance_spot_place_order`: validate, and on success place the order and
   * confirm it. A rejected or crashed validation makes no exchange call; a
   * valid one makes exactly the order call, with the validated fields.
   */
  function PlaceOrder(args: Args, ex: Exchange, clock: Clock): (r: Run)
    ensures var v := ValidateParameters(args, PlaceOrderRules(args));
      && (!v.Valid? ==> r.calls == [] && r.result.Failure?)
      && (v.Invalid? ==> r.result == Failure(FormatValidationError(v)))
      && (v.Crashed? ==> r.result == Failure(v.message))
      && (v.Valid? ==> r.calls == [PlaceSpotOrder(OrderRequest(v.data, args))])
    ensures var v := ValidateParameters(args, PlaceOrderRules(args));
      v.Valid? ==> var placed := ex.placeSpotOrder(OrderRequest(v.data, args));
        && (placed.Returned? <==> r.result.Success?)
        && (placed.Raised? ==> r.result == Failure(PlaceOrderFailure(placed.exc)))
        && (placed.Returned? ==>
              r.result == Success(Text(WithWarnings(v.warnings, FormatSpotOrderSuccess(ConfirmationData(placed.value, clock), clock)))))
  {
    var v := ValidateParameters(args, PlaceOrderRules(args));
    match v
    case Crashed(m) => Run(Failure(m), [])
    case Invalid(_, _, _) => Run(Failure(FormatValidationError(v)), [])
    case Valid(data, warnings) =>
      var request := OrderRequest(data, args);
      match ex.placeSpotOrder(request)
      case Raised(e) => Run(Failure(PlaceOrderFailure(e)), [PlaceSpotOrder(request)])
      case Returned(order) =>
        var text := FormatSpotOrderSuccess(ConfirmationData(order, clock), clock);
        Run(Success(Text(WithWarnings(warnings, text))), [PlaceSpotOrder(request)])
  }

  /**
   * Without a price argument, the order is rejected unless the raw type is
   * exactly "MARKET": "market" in lower case still requires a price.
   */
  lemma PriceRequiredUnlessMarket(args: Args)
    requires "price" !in args
    ensures var rules := PlaceOrderRules(args);
      Field(args, rules[4]).Invalid? <==> Get(args, "type") != Str("MARKET")
  {
  }

  /**
   * A type the validator does not list, such as LIMIT_MAKER (which the tool's
   * schema offers), is refused before any exchange call.
   */
  lemma UnlistedTypeRefused(args: Args, ex: Exchange, clock: Clock)
    requires Get(args, "type").Str? && Get(args, "type").s != "" && ToUpper(Get(args, "type").s) !in OrderTypes
    ensures PlaceOrder(args, ex, clock).calls == [] && PlaceOrder(args, ex, clock).result.Failure?
  {
    var rules := PlaceOrderRules(args);
    assert !Field(args, rules[2]).Valid?;
    ValidateParametersValid(args, rules);
  }

  /** Accepted parameters with warnings put the warnings block, then a blank line, above the confirmation. */
  lemma PlaceOrderWarningsFirst(args: Args, ex: Exchange, clock: Clock)
    requires ValidateParameters(args, PlaceOrderRules(args)).Valid?
    requires ValidateParameters(args, PlaceOrderRules(args)).warnings != []
    requires ex.placeSpotOrder(OrderRequest(ValidateParameters(args, PlaceOrderRules(args)).data, args)).Returned?
    ensures PlaceOrder(args, ex, clock).result.Success?
    ensures PlaceOrder(args, ex, clock).result.data.Text?
    ensures StartsWith(PlaceOrder(args, ex, clock).result.data.text, WarningHeading)
  {
    var v := ValidateParameters(args, PlaceOrderRules(args));
    var order := ex.placeSpotOrder(OrderRequest(v.data, args)).value;
    WarningsFirst(v.warnings, FormatSpotOrderSuccess(ConfirmationData(order, clock), clock));
  }

  /**
   * Every validation warning of an accepted order, such as the note that the
   * symbol was upper-cased, reaches the confirmation as its own bullet line.
   */
  lemma PlaceOrderShowsWarnings(args: Args, ex: Exchange, clock: Clock, i: nat)
    requires ValidateParameters(args, PlaceOrderRules(args)).Valid?
    requires i < |ValidateParameters(args, PlaceOrderRules(args)).warnings|
    requires ex.placeSpotOrder(OrderRequest(ValidateParameters(args, PlaceOrderRules(args)).data, args)).Returned?
    ensures PlaceOrder(args, ex, clock).result.Success? && PlaceOrder(args, ex, clock).result.data.Text?
    ensures Contains(PlaceOrder(args, ex, clock).result.data.text,
      "• " + ValidateParameters(args, PlaceOrderRules(args)).warnings[i] + "\n")
  {
    var v := ValidateParameters(args, PlaceOrderRules(args));
    var order := ex.placeSpotOrder(OrderRequest(v.data, args)).value;
    WarningsShown(v.warnings, FormatSpotOrderSuccess(ConfirmationData(order, clock), clock), i);
  }

  /** Each warning's bullet line survives the text put under the block. */
  lemma WarningsShown(warnings: seq<string>, text: string, i: nat)
    requires i < |warnings|
    ensures Contains(WithWarnings(warnings, text), "• " + warnings[i] + "\n")
  {
    var line := "• " + warnings[i] + "\n";
    var w := FormatValidationWarnings(warnings);
    FormatValidationWarningsShows(warnings, i);
    ContainsOccurs(w, line);
    var k :| OccursAt(w, line, k);
    assert (w + "\n\n" + text)[k..k + |line|] == w[k..k + |line|];
    ContainsAt(WithWarnings(warnings, text), line, k);
  }

  /** Any text under a non-empty warnings block starts with the warnings heading. */
  lemma WarningsFirst(warnings: seq<string>, text: string)
    requires warnings != []
    ensures StartsWith(WithWarnings(warnings, text), WarningHeading)
  {
    var w := FormatValidationWarnings(warnings);
    assert (w + "\n\n" + text)[..|WarningHeading|] == w[..|WarningHeading|];
  }

  /** A failing order call is reported with the fixed prefix and remedies, after exactly that call. */
  lemma PlaceOrderCallFails(args: Args, ex: Exchange, clock: Clock)
    requires ValidateParameters(args, PlaceOrderRules(args)).Valid?
    requires ex.placeSpotOrder(OrderRequest(ValidateParameters(args, PlaceOrderRules(args)).data, args)).Raised?
    ensures var r := PlaceOrder(args, ex, clock);
      && r.result.Failure?
      && StartsWith(r.result.error, PlaceOrderFailurePrefix)
      && EndsWith(r.result.error, PlaceOrderRemedies)
  {
    var v := ValidateParameters(args, PlaceOrderRules(args));
    var e := ex.placeSpotOrder(OrderRequest(v.data, args)).exc;
    var msg := PlaceOrderFailure(e);
    assert msg[..|PlaceOrderFailurePrefix|] == PlaceOrderFailurePrefix;
    assert msg[|msg| - |PlaceOrderRemedies|..] == PlaceOrderRemedies;
  }

  /**
   * `binance_spot_cancel_all_orders`: list the open orders of the symbol, then
   * cancel each of them in turn, reporting every outcome.
   */
  function CancelAll(args: Args, ex: Exchange): (r: Run)
    ensures var symbol := Get(args, "symbol");
      && |r.calls| >= 1 && r.calls[0] == ListSpotOpenOrders(symbol)
      && (ex.spotOpenOrders(symbol).Raised? ==> r == Run(Caught(ex.spotOpenOrders(symbol).exc, UnknownError), r.calls[..1]) && |r.calls| == 1)
      && (ex.spotOpenOrders(symbol).Returned? ==>
            var ids := ex.spotOpenOrders(symbol).value;
            && r.calls == [ListSpotOpenOrders(symbol)] + CancelCalls(symbol, ids)
            && r.result == Success(Data(CancelReportJson(CancelAllReport(ids, CancelAttempts(symbol, ids, ex))))))
  {
    var symbol := Get(args, "symbol");
    match ex.spotOpenOrders(symbol)
    case Raised(e) => Run(Caught(e, UnknownError), [ListSpotOpenOrders(symbol)])
    case Returned(ids) =>
      var report := CancelAllReport(ids, CancelAttempts(symbol, ids, ex));
      Run(Success(Data(CancelReportJson(report))), [ListSpotOpenOrders(symbol)] + CancelCalls(symbol, ids))
  }

  /** The gateway's answer to the cancel of each of `ids`, in order. */
  function CancelAttempts(symbol: Value, ids: seq<Value>, ex: Exchange): (a: seq<Call<Value>>)
    ensures |a| == |ids|
    ensures forall i :: 0 <= i < |ids| ==> a[i] == ex.cancelSpotOrder(symbol, ids[i])
  {
    seq(|ids|, i requires 0 <= i < |ids| => ex.cancelSpotOrder(symbol, ids[i]))
  }

  /**
   * What the tool reports once the open orders are listed: every open order
   * is counted once, cancelled or failed, and the cancelled count is the
   * number of cancel calls that returned.
   */
  lemma CancelAllReported(args: Args, ex: Exchange)
    requires ex.spotOpenOrders(Get(args, "symbol")).Returned?
    ensures var symbol := Get(args, "symbol");
      var ids := ex.spotOpenOrders(symbol).value;
      var report := CancelAllReport(ids, CancelAttempts(symbol, ids, ex));
      && CancelAll(args, ex).result == Success(Data(CancelReportJson(report)))
      && report.totalOrders == |ids| == |report.results|
      && report.cancelled + report.failed == |ids|
      && report.cancelled == Count(CancelAttempts(symbol, ids, ex), Succeeded)
  {
    var symbol := Get(args, "symbol");
    var ids := ex.spotOpenOrders(symbol).value;
    CancelAllCounts(ids, CancelAttempts(symbol, ids, ex));
  }

  /** The cancel calls of `ids`, one per order and in order, as recorded in the trace. */
  function CancelCalls(symbol: Value, ids: seq<Value>): (cs: seq<ExchangeCall>)
    ensures |cs| == |ids|
    ensures forall i :: 0 <= i < |ids| ==> cs[i] == CancelSpotOrder(symbol, ids[i])
  {
    seq(|ids|, i requires 0 <= i < |ids| => CancelSpotOrder(symbol, ids[i]))
  }

  const UnknownSpotTool := "未知的现货交易工具: "

  /**
   * `handleSpotTool(name, args)`: every outcome, an unknown name included, is an
   * envelope; nothing is thrown.
   */
  function Handle(name: string, args: Args, ex: Exchange, clock: Clock): (r: Run)
    ensures name !in SpotTools ==> r == Run(Failure(UnknownSpotTool + name), [])
    ensures name == PlaceOrderTool ==> r == PlaceOrder(args, ex, clock)
    ensures name == CancelAllTool ==> r == CancelAll(args, ex)
  {
    if name == PlaceOrderTool then PlaceOrder(args, ex, clock)
    else if name == CancelAllTool then CancelAll(args, ex)
    else if name in ReshapedTools then
      match ex.reshaped(name, args)
      case Returned(json) => Run(Success(Data(json)), [Reshaped(name)])
      case Raised(e) => Run(Caught(e, UnknownError), [Reshaped(name)])
    else Run(Failure(UnknownSpotTool + name), [])
  }

  /** A rejected order reaches the handler's caller as the validator's text, with no exchange call. */
  lemma HandleRejectedOrder(args: Args, ex: Exchange, clock: Clock)
    requires ValidateParameters(args, PlaceOrderRules(args)).Invalid?
    ensures Handle(PlaceOrderTool, args, ex, clock) == Run(Failure(FormatValidationError(ValidateParameters(args, PlaceOrderRules(args)))), [])
  {
  }
}
