/**
 * The exchange as the tool handlers see it: the requests they send, the
 * already-parsed records they read back, and a gateway of oracles, one per
 * exchange call, each of which returns or throws. Handlers also report the
 * calls they made, in order.
 */
module Gateway {
  import opened Wrappers
  import opened Numeric
  import opened Values
  import opened Envelope

  /** The order `binance_spot_place_order` sends. */
  datatype SpotOrderRequest = SpotOrderRequest(
    symbol: Value, side: Value, orderType: Value, quantity: Value, price: Value,
    timeInForce: Value, stopPrice: Value)

  /**
   * A placed spot order. Quantities the handler tests for truthiness are
   * `None` when the exchange string is absent or empty; `updateTime` and
   * `transactTime` are `None` when absent or zero.
   */
  datatype PlacedSpotOrder = PlacedSpotOrder(
    orderId: Value, symbol: string, side: string, orderType: string, origQty: real,
    executedQty: Option<real>, cummulativeQuoteQty: Option<real>, price: real, status: string,
    updateTime: Option<int>, transactTime: Option<int>)

  /** The order `binance_futures_place_order` and `binance_futures_close_position` send. */
  datatype FuturesOrderRequest = FuturesOrderRequest(
    symbol: Value, side: Value, positionSide: Value, orderType: Value, quantity: Value,
    price: Value, timeInForce: Value, reduceOnly: Value, stopPrice: Value, closePosition: Value)

  /** A placed futures order; a price that is absent or empty is `None`. */
  datatype FuturesOrder = FuturesOrder(
    orderId: Value, clientOrderId: Value, symbol: Value, side: Value, positionSide: Value,
    orderType: Value, origQty: real, price: Option<real>, avgPrice: Option<real>, executedQty: real,
    status: Value, timeInForce: Value, reduceOnly: Value, stopPrice: Option<real>,
    time: Value, updateTime: Value)

  /** A spot balance with its amounts parsed; `total` is `None` when the record has none. */
  datatype SpotBalance = SpotBalance(asset: string, free: real, locked: real, total: Option<real>)

  /** A futures position with its amounts parsed. */
  datatype ExchangePosition = ExchangePosition(
    symbol: string, positionAmt: real, entryPrice: real, markPrice: real, unRealizedProfit: real,
    liquidationPrice: real, leverage: real, marginType: string, positionSide: string)

  /** One asset of the unified account, amounts parsed. */
  datatype PortfolioAsset = PortfolioAsset(
    asset: string, walletBalance: real, unrealizedProfit: real, marginBalance: real,
    maintMargin: real, initialMargin: real, positionInitialMargin: real,
    openOrderInitialMargin: real, maxWithdrawAmount: real)

  /** The unified account, amounts parsed; `assets` is `None` when the response has none. */
  datatype PortfolioAccount = PortfolioAccount(
    totalMarginBalance: real, totalPositionInitialMargin: real, totalOpenOrderInitialMargin: real,
    totalCrossWalletBalance: real, totalCrossUnPnl: real, availableBalance: real,
    maxWithdrawAmount: real, assets: Option<seq<PortfolioAsset>>)

  /** A symbol filter of the exchange information; `minQty` is parsed. */
  datatype SymbolFilter = SymbolFilter(filterType: string, minQty: real)

  datatype SymbolInfo = SymbolInfo(symbol: string, filters: seq<SymbolFilter>)

  /**
   * The exchange calls the handlers make. An open order is known by its id,
   * and a cancel answers with the cancelled order's id. `reshaped` stands for
   * each single-call case whose answer is only reshaped field by field into
   * the success data (order lookups, history, leverage, account information).
   */
  datatype Exchange = Exchange(
    placeSpotOrder: SpotOrderRequest -> Call<PlacedSpotOrder>,
    spotOpenOrders: Value -> Call<seq<Value>>,
    cancelSpotOrder: (Value, Value) -> Call<Value>,
    placeFuturesOrder: FuturesOrderRequest -> Call<FuturesOrder>,
    futuresOpenOrders: Value -> Call<seq<Value>>,
    cancelFuturesOrder: (Value, Value) -> Call<Value>,
    positions: Value -> Call<seq<ExchangePosition>>,
    setMarginType: (Value, Value) -> Call<()>,
    balances: () -> Call<seq<SpotBalance>>,
    portfolioAccount: () -> Call<PortfolioAccount>,
    exchangeInfo: () -> Call<seq<SymbolInfo>>,
    spotPrice: string -> Call<real>,
    futuresPrice: string -> Call<real>,
    reshaped: (string, Args) -> Call<Json>)

  /** One exchange call, as recorded in a handler's trace. */
  datatype ExchangeCall =
    | PlaceSpotOrder(spotOrder: SpotOrderRequest)
    | ListSpotOpenOrders(spotSymbol: Value)
    | CancelSpotOrder(cancelSymbol: Value, cancelId: Value)
    | PlaceFuturesOrder(futuresOrder: FuturesOrderRequest)
    | ListFuturesOpenOrders(futuresSymbol: Value)
    | CancelFuturesOrder(futuresCancelSymbol: Value, futuresCancelId: Value)
    | ListPositions(positionSymbol: Value)
    | SetMarginType(marginSymbol: Value, marginType: Value)
    | ListBalances
    | GetPortfolioAccount
    | GetExchangeInfo
    | GetSpotPrice(spotPair: string)
    | GetFuturesPrice(futuresPair: string)
    | Reshaped(tool: string)

  /** What a handler returns, with the exchange calls it made, in order. */
  datatype Run = Run(result: ToolResult, calls: seq<ExchangeCall>)

  /** A number that `JSON.stringify` writes as `null` when it is not finite. */
  function JExt(e: Ext): Json {
    if e.Finite? then JNum(e.v) else JNull
  }

  /** `x ? parseFloat(x) : null`. */
  function JOption(x: Option<real>): Json {
    match x
    case Some(v) => JNum(v)
    case None => JNull
  }
}
