/**
 * `handleAccountTool` (build/tools/account.js): spot balances, the unified
 * account, futures positions with the optional symbol check, and the envelope.
 */
module Account {
  import opened Wrappers
  import opened Text
  import opened Values
  import opened Envelope
  import opened Validation
  import opened Formatter
  import opened Gateway

  const AccountInfoTool := "binance_" + "account" + "_info"
  const SpotBalancesTool := "binance_spot_" + "balances"
  const PortfolioAccountTool := "binance_" + "portfolio_account"
  const FuturesPositionsTool := "binance_futures_" + "positions"
  const AccountStatusTool := "binance_" + "account" + "_status"

  /** The tools the handler declares, in declaration order. */
  const AccountTools := [AccountInfoTool, SpotBalancesTool, PortfolioAccountTool, FuturesPositionsTool, AccountStatusTool]

  /** The cases whose answer is only reshaped (account information, connectivity and server time). */
  const ReshapedTools := [AccountInfoTool, AccountStatusTool]

  // ------------------------------------------------------------- balances

  /** A balance row: the parsed amounts and their sum as the total. */
  function BalanceRow(b: SpotBalance): (row: Balance)
    ensures row.asset == b.asset && row.free == b.free && row.locked == b.locked
    ensures row.total == b.free + b.locked
  {
    Balance(b.asset, b.free, b.locked, b.free + b.locked)
  }

  /** Every balance as a row, in the exchange's order. */
  function BalanceRows(bs: seq<SpotBalance>): (rows: seq<Balance>)
    ensures |rows| == |bs|
    ensures forall i :: 0 <= i < |bs| ==> rows[i] == BalanceRow(bs[i])
  {
    seq(|bs|, i requires 0 <= i < |bs| => BalanceRow(bs[i]))
  }

  /** `b.total > 0`. */
  predicate IsHeld(row: Balance) {
    row.total > 0.0
  }

  /** The rows of the balances whose total is positive, in the exchange's order. */
  function HeldBalances(bs: seq<SpotBalance>): (rows: seq<Balance>)
    ensures |rows| <= |bs|
    ensures forall row :: row in rows ==> row.total > 0.0 && row.total == row.free + row.locked
    ensures forall i :: 0 <= i < |bs| && bs[i].free + bs[i].locked > 0.0 ==> BalanceRow(bs[i]) in rows
    ensures forall row :: row in rows ==> exists i :: 0 <= i < |bs| && row == BalanceRow(bs[i])
    ensures IsFilter(BalanceRows(bs), rows, IsHeld)
  {
    FilterSelects(BalanceRows(bs), IsHeld);
    HeldRows(bs);
    Filter(BalanceRows(bs), IsHeld)
  }

  /** The held rows in terms of the balances they come from. */
  lemma HeldRows(bs: seq<SpotBalance>)
    ensures var rows := Filter(BalanceRows(bs), IsHeld);
      && (forall row :: row in rows ==> row.total > 0.0 && row.total == row.free + row.locked)
      && (forall i :: 0 <= i < |bs| && bs[i].free + bs[i].locked > 0.0 ==> BalanceRow(bs[i]) in rows)
      && (forall row :: row in rows ==> exists i :: 0 <= i < |bs| && row == BalanceRow(bs[i]))
  {
    var all := BalanceRows(bs);
    var rows := Filter(all, IsHeld);
    forall row | row in rows
      ensures row.total > 0.0 && row.total == row.free + row.locked
      ensures exists i :: 0 <= i < |bs| && row == BalanceRow(bs[i])
    {
      var k :| 0 <= k < |rows| && rows[k] == row;
      assert row in all;
      var i :| 0 <= i < |all| && all[i] == row;
      assert row == BalanceRow(bs[i]);
    }
    forall i | 0 <= i < |bs| && bs[i].free + bs[i].locked > 0.0 ensures BalanceRow(bs[i]) in rows {
      assert all[i] == BalanceRow(bs[i]) && IsHeld(all[i]);
    }
  }

  /**
   * `binance_spot_balances`: one balance call, rendered with the holdings
   * formatter. Nothing is held exactly when every balance sums to zero or less.
   */
  function SpotBalances(ex: Exchange, clock: Clock): (r: Run)
    ensures r.calls == [ListBalances]
    ensures ex.balances().Raised? ==> r.result == Caught(ex.balances().exc, UnknownError)
    ensures ex.balances().Returned? ==>
      r.result == Success(Text(FormatSpotBalances(HeldBalances(ex.balances().value), clock)))
  {
    match ex.balances()
    case Raised(e) => Run(Caught(e, UnknownError), [ListBalances])
    case Returned(bs) => Run(Success(Text(FormatSpotBalances(HeldBalances(bs), clock))), [ListBalances])
  }

  /** The empty-account text is shown exactly when no balance has a positive total. */
  lemma SpotBalancesEmpty(ex: Exchange, clock: Clock)
    requires ex.balances().Returned?
    ensures var bs := ex.balances().value;
      SpotBalances(ex, clock).result == Success(Text(EmptyBalancesText))
      <==> forall i :: 0 <= i < |bs| ==> bs[i].free + bs[i].locked <= 0.0
  {
    var bs := ex.balances().value;
    FormatSpotBalancesEmpty(HeldBalances(bs), clock);
    HeldBalancesEmpty(bs);
  }

  /** No row is held exactly when no balance has a positive total. */
  lemma HeldBalancesEmpty(bs: seq<SpotBalance>)
    ensures HeldBalances(bs) == [] <==> forall i :: 0 <= i < |bs| ==> bs[i].free + bs[i].locked <= 0.0
  {
    var rows := HeldBalances(bs);
    if exists i :: 0 <= i < |bs| && bs[i].free + bs[i].locked > 0.0 {
      var i :| 0 <= i < |bs| && bs[i].free + bs[i].locked > 0.0;
      assert BalanceRow(bs[i]) in rows;
    }
    if |rows| > 0 {
      var row := rows[0];
      assert row in rows;
      var i :| 0 <= i < |bs| && row == BalanceRow(bs[i]);
      assert bs[i].free + bs[i].locked > 0.0;
    }
  }

  // ------------------------------------------------------ unified account

  /** `a.walletBalance > 0`. */
  predicate IsFunded(a: PortfolioAsset) {
    a.walletBalance > 0.0
  }

  /** The assets with a positive wallet balance, in the exchange's order. */
  function FundedAssets(assets: seq<PortfolioAsset>): (r: seq<PortfolioAsset>)
    ensures |r| <= |assets|
    ensures forall a :: a in r <==> a in assets && a.walletBalance > 0.0
    ensures IsFilter(assets, r, IsFunded)
  {
    FilterSelects(assets, IsFunded);
    Filter(assets, IsFunded)
  }

  function AssetJson(a: PortfolioAsset): Json {
    JObject([
      ("asset", JStr(a.asset)), ("walletBalance", JNum(a.walletBalance)), ("unrealizedProfit", JNum(a.unrealizedProfit)),
      ("marginBalance", JNum(a.marginBalance)), ("maintMargin", JNum(a.maintMargin)), ("initialMargin", JNum(a.initialMargin)),
      ("positionInitialMargin", JNum(a.positionInitialMargin)), ("openOrderInitialMargin", JNum(a.openOrderInitialMargin)),
      ("maxWithdrawAmount", JNum(a.maxWithdrawAmount))])
  }

  /** The assets listed: the funded ones, or none when the response carries no asset list. */
  function ListedAssets(account: PortfolioAccount): (r: seq<PortfolioAsset>)
    ensures account.assets.None? ==> r == []
    ensures account.assets.Some? ==> forall a :: a in r <==> a in account.assets.value && a.walletBalance > 0.0
    ensures account.assets.Some? ==> IsFilter(account.assets.value, r, IsFunded)
  {
    match account.assets
    case None => []
    case Some(assets) => FundedAssets(assets)
  }

  /** The unified account's success data: the seven totals, then the listed assets. */
  function PortfolioJson(account: PortfolioAccount): (j: Json)
    ensures j.JObject? && |j.fields| == 8
    ensures j.fields[0] == ("totalMarginBalance", JNum(account.totalMarginBalance))
    ensures j.fields[1] == ("totalPositionInitialMargin", JNum(account.totalPositionInitialMargin))
    ensures j.fields[2] == ("totalOpenOrderInitialMargin", JNum(account.totalOpenOrderInitialMargin))
    ensures j.fields[3] == ("totalCrossWalletBalance", JNum(account.totalCrossWalletBalance))
    ensures j.fields[4] == ("totalCrossUnPnl", JNum(account.totalCrossUnPnl))
    ensures j.fields[5] == ("availableBalance", JNum(account.availableBalance))
    ensures j.fields[6] == ("maxWithdrawAmount", JNum(account.maxWithdrawAmount))
    ensures j.fields[7] == ("assets", JArray(AssetsJson(ListedAssets(account))))
  {
    JObject([
      ("totalMarginBalance", JNum(account.totalMarginBalance)),
      ("totalPositionInitialMargin", JNum(account.totalPositionInitialMargin)),
      ("totalOpenOrderInitialMargin", JNum(account.totalOpenOrderInitialMargin)),
      ("totalCrossWalletBalance", JNum(account.totalCrossWalletBalance)),
      ("totalCrossUnPnl", JNum(account.totalCrossUnPnl)),
      ("availableBalance", JNum(account.availableBalance)),
      ("maxWithdrawAmount", JNum(account.maxWithdrawAmount)),
      ("assets", JArray(AssetsJson(ListedAssets(account))))])
  }

  /** One object per listed asset, in order. */
  function AssetsJson(listed: seq<PortfolioAsset>): (items: seq<Json>)
    ensures |items| == |listed| && forall i :: 0 <= i < |listed| ==> items[i] == AssetJson(listed[i])
  {
    seq(|listed|, i requires 0 <= i < |listed| => AssetJson(listed[i]))
  }

  /** `binance_portfolio_account`: one call, its answer reshaped. */
  function Portfolio(ex: Exchange): (r: Run)
    ensures r.calls == [GetPortfolioAccount]
    ensures ex.portfolioAccount().Returned? <==> r.result.Success?
    ensures ex.portfolioAccount().Returned? ==> r.result == Success(Data(PortfolioJson(ex.portfolioAccount().value)))
    ensures ex.portfolioAccount().Raised? ==> r.result == Caught(ex.portfolioAccount().exc, UnknownError)
  {
    match ex.portfolioAccount()
    case Raised(e) => Run(Caught(e, UnknownError), [GetPortfolioAccount])
    case Returned(account) => Run(Success(Data(PortfolioJson(account))), [GetPortfolioAccount])
  }

  // ------------------------------------------------------------ positions

  /** A position row: the parsed fields and the notional, amount times mark price. */
  function PositionRow(p: ExchangePosition): (row: Position)
    ensures row.symbol == p.symbol && row.positionAmt == p.positionAmt
    ensures row.entryPrice == p.entryPrice && row.markPrice == p.markPrice
    ensures row.unRealizedProfit == p.unRealizedProfit && row.liquidationPrice == p.liquidationPrice
    ensures row.leverage == p.leverage && row.marginType == p.marginType
    ensures row.positionSide == p.positionSide && row.notional == p.positionAmt * p.markPrice
  {
    Position(
      p.symbol, p.positionAmt, p.entryPrice, p.markPrice, p.unRealizedProfit, p.liquidationPrice,
      p.leverage, p.marginType, p.positionSide, p.positionAmt * p.markPrice)
  }

  /** Every position, in order, with its notional. */
  function PositionRows(ps: seq<ExchangePosition>): (rows: seq<Position>)
    ensures |rows| == |ps|
    ensures forall i :: 0 <= i < |ps| ==> rows[i] == PositionRow(ps[i])
    ensures forall i :: 0 <= i < |ps| ==>
      && rows[i].symbol == ps[i].symbol && rows[i].positionAmt == ps[i].positionAmt
      && rows[i].markPrice == ps[i].markPrice && rows[i].positionSide == ps[i].positionSide
      && rows[i].notional == ps[i].positionAmt * ps[i].markPrice
  {
    seq(|ps|, i requires 0 <= i < |ps| => PositionRow(ps[i]))
  }

  /**
   * The symbol the positions are asked for: a truthy argument is checked as an
   * optional symbol first, a falsy one is passed on as it is.
   */
  function PositionsQuery(symbol: Value): (q: Outcome<Value>)
    ensures !Truthy(symbol) ==> q == Valid(symbol, [])
    ensures Truthy(symbol) ==> q == ValidateSymbol(symbol, false)
  {
    if Truthy(symbol) then ValidateSymbol(symbol, false) else Valid(symbol, [])
  }

  /**
   * `binance_futures_positions`: a rejected or crashing symbol check answers
   * without any exchange call; otherwise one position call, with the symbol
   * upper-cased, rendered with the positions formatter.
   */
  function FuturesPositions(args: Args, ex: Exchange): (r: Run)
    ensures var q := PositionsQuery(Get(args, "symbol"));
      && (q.Invalid? ==> r == Run(Failure(FormatValidationError(q)), []))
      && (q.Crashed? ==> r == Run(Failure(q.message), []))
      && (q.Valid? ==> r.calls == [ListPositions(q.data)])
      && (q.Valid? && ex.positions(q.data).Returned? ==>
            r.result == Success(Text(FormatFuturesPositions(PositionRows(ex.positions(q.data).value)))))
      && (q.Valid? && ex.positions(q.data).Raised? ==> r.result == Caught(ex.positions(q.data).exc, UnknownError))
  {
    var q := PositionsQuery(Get(args, "symbol"));
    match q
    case Crashed(m) => Run(Failure(m), [])
    case Invalid(_, _, _) => Run(Failure(FormatValidationError(q)), [])
    case Valid(symbol, _) =>
      match ex.positions(symbol)
      case Raised(e) => Run(Caught(e, UnknownError), [ListPositions(symbol)])
      case Returned(ps) => Run(Success(Text(FormatFuturesPositions(PositionRows(ps)))), [ListPositions(symbol)])
  }

  /** A lower-case symbol that passes the check is asked for in upper case; an absent one as `undefined`. */
  lemma PositionsQueryUppercases(s: string)
    requires s != "" && SymbolPattern(ToUpper(s))
    ensures PositionsQuery(Str(s)) == Valid(Str(ToUpper(s)), if HasLowerAscii(s) then [UppercasedWarning] else [])
    ensures PositionsQuery(Undefined) == Valid(Undefined, [])
  {
  }

  /** The flat-book text is shown exactly when every position returned has a zero amount. */
  lemma FuturesPositionsFlat(args: Args, ex: Exchange, ps: seq<ExchangePosition>)
    requires PositionsQuery(Get(args, "symbol")).Valid?
    requires ex.positions(PositionsQuery(Get(args, "symbol")).data) == Returned(ps)
    ensures FuturesPositions(args, ex).result == Success(Text(FlatPositionsText))
      <==> forall i :: 0 <= i < |ps| ==> ps[i].positionAmt == 0.0
  {
    var rows := PositionRows(ps);
    FormatFuturesPositionsFlat(rows);
    assert forall i :: 0 <= i < |ps| ==> rows[i].positionAmt == ps[i].positionAmt;
  }

  const UnknownAccountTool := "未知的账户工具: "

  /** `handleAccountTool(name, args)`: every outcome is an envelope. */
  function Handle(name: string, args: Args, ex: Exchange, clock: Clock): (r: Run)
    ensures name !in AccountTools ==> r == Run(Failure(UnknownAccountTool + name), [])
    ensures name == SpotBalancesTool ==> r == SpotBalances(ex, clock)
    ensures name == PortfolioAccountTool ==> r == Portfolio(ex)
    ensures name == FuturesPositionsTool ==> r == FuturesPositions(args, ex)
  {
    if name == SpotBalancesTool then SpotBalances(ex, clock)
    else if name == PortfolioAccountTool then
      // Character 8, the first after "binance_", is 'p' here and 'f' in the positions tool.
      assert name[8] != FuturesPositionsTool[8];
      Portfolio(ex)
    else if name == FuturesPositionsTool then FuturesPositions(args, ex)
    else if name in ReshapedTools then
      match ex.reshaped(name, args)
      case Returned(json) => Run(Success(Data(json)), [Reshaped(name)])
      case Raised(e) => Run(Caught(e, UnknownError), [Reshaped(name)])
    else Run(Failure(UnknownAccountTool + name), [])
  }
}
