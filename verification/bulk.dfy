/**
 * The two bulk operations of the trading handlers as folds over per-item
 * outcomes: cancelling every open order (spot and futures alike) and closing
 * the futures positions.
 */
module Bulk {
  import opened Wrappers
  import opened Values
  import opened Envelope
  import opened Numeric
  import opened Gateway

  /** `xs.filter(p).length`. */
  function Count<T>(xs: seq<T>, p: T -> bool): (n: nat)
    ensures n <= |xs|
    decreases |xs|
  {
    if |xs| == 0 then 0 else Count(xs[..|xs| - 1], p) + (if p(xs[|xs| - 1]) then 1 else 0)
  }

  /** A filter and its negation split a sequence. */
  lemma {:induction false} CountComplement<T>(xs: seq<T>, p: T -> bool, q: T -> bool)
    requires forall x :: q(x) == !p(x)
    ensures Count(xs, p) + Count(xs, q) == |xs|
    decreases |xs|
  {
    if |xs| > 0 {
      CountComplement(xs[..|xs| - 1], p, q);
    }
  }

  /** Counting agrees on two sequences whose elements pass their tests at the same positions. */
  lemma {:induction false} CountPointwise<T, U>(xs: seq<T>, p: T -> bool, ys: seq<U>, q: U -> bool)
    requires |xs| == |ys|
    requires forall i :: 0 <= i < |xs| ==> p(xs[i]) == q(ys[i])
    ensures Count(xs, p) == Count(ys, q)
    decreases |xs|
  {
    if |xs| > 0 {
      var n := |xs| - 1;
      assert forall i :: 0 <= i < n ==> xs[..n][i] == xs[i] && ys[..n][i] == ys[i];
      CountPointwise(xs[..n], p, ys[..n], q);
    }
  }

  /** A filter passes no more elements than a weaker one. */
  lemma {:induction false} CountMonotone<T>(xs: seq<T>, p: T -> bool, q: T -> bool)
    requires forall x :: p(x) ==> q(x)
    ensures Count(xs, p) <= Count(xs, q)
    decreases |xs|
  {
    if |xs| > 0 {
      CountMonotone(xs[..|xs| - 1], p, q);
    }
  }

  // -------------------------------------------------------------- cancel all

  const CancelFallback := "取消失败"

  /** One entry of the cancel-all results. */
  datatype CancelOutcome = Cancelled(orderId: Value) | CancelFailed(orderId: Value, error: string)

  predicate IsCancelled(r: CancelOutcome) { r.Cancelled? }

  predicate IsCancelFailed(r: CancelOutcome) { r.CancelFailed? }

  predicate Succeeded<T>(c: Call<T>) { c.Returned? }

  /**
   * The entry for one open order: the cancelled order's id when the cancel
   * returns, otherwise the open order's own id and the error message.
   */
  function CancelOutcomeOf(orderId: Value, attempt: Call<Value>): (r: CancelOutcome)
    ensures r.Cancelled? <==> attempt.Returned?
    ensures attempt.Returned? ==> r.orderId == attempt.value
    ensures attempt.Raised? ==> r == CancelFailed(orderId, MessageOr(attempt.exc, CancelFallback))
  {
    match attempt
    case Returned(id) => Cancelled(id)
    case Raised(e) => CancelFailed(orderId, MessageOr(e, CancelFallback))
  }

  /**
   * The loop over the open orders, where the i-th attempt is the cancel of the
   * i-th order: one entry per order, in order, a failure not stopping the loop.
   */
  function CancelResults(orderIds: seq<Value>, attempts: seq<Call<Value>>): (rs: seq<CancelOutcome>)
    requires |attempts| == |orderIds|
    ensures |rs| == |orderIds|
    ensures forall i :: 0 <= i < |rs| ==> rs[i] == CancelOutcomeOf(orderIds[i], attempts[i])
    decreases |orderIds|
  {
    if |orderIds| == 0 then []
    else
      var n := |orderIds| - 1;
      CancelResults(orderIds[..n], attempts[..n]) + [CancelOutcomeOf(orderIds[n], attempts[n])]
  }

  /** `{ totalOrders, cancelled, failed, results }`. */
  datatype CancelReport = CancelReport(totalOrders: nat, cancelled: nat, failed: nat, results: seq<CancelOutcome>)

  /** The cancel-all data: the order count, the two filtered counts, and the entries. */
  function CancelAllReport(orderIds: seq<Value>, attempts: seq<Call<Value>>): CancelReport
    requires |attempts| == |orderIds|
  {
    var rs := CancelResults(orderIds, attempts);
    CancelReport(|orderIds|, Count(rs, IsCancelled), Count(rs, IsCancelFailed), rs)
  }

  /**
   * Every open order is accounted for once: there is one result per order,
   * the cancelled and failed counts add up to the order count, and the
   * cancelled count is the number of cancels that returned.
   */
  lemma CancelAllCounts(orderIds: seq<Value>, attempts: seq<Call<Value>>)
    requires |attempts| == |orderIds|
    ensures var r := CancelAllReport(orderIds, attempts);
      && |r.results| == r.totalOrders == |orderIds|
      && r.cancelled + r.failed == r.totalOrders
      && r.cancelled == Count(attempts, Succeeded)
  {
    var rs := CancelResults(orderIds, attempts);
    CountComplement(rs, IsCancelled, IsCancelFailed);
    CountPointwise(rs, IsCancelled, attempts, Succeeded);
  }

  function CancelOutcomeJson(r: CancelOutcome): Json {
    match r
    case Cancelled(id) =>
      JObject([("orderId", JValue(id)), ("status", JStr("CANCELLED")), ("success", JBool(true))])
    case CancelFailed(id, e) =>
      JObject([("orderId", JValue(id)), ("status", JStr("FAILED")), ("success", JBool(false)), ("error", JStr(e))])
  }

  function CancelReportJson(r: CancelReport): Json {
    JObject([
      ("totalOrders", JInt(r.totalOrders)),
      ("cancelled", JInt(r.cancelled)),
      ("failed", JInt(r.failed)),
      ("results", JArray(seq(|r.results|, i requires 0 <= i < |r.results| => CancelOutcomeJson(r.results[i]))))])
  }

  // ---------------------------------------------------------- close position

  const CloseFallback := "平仓失败"

  /**
   * Whether the loop skips a position: a zero amount, or a requested position
   * side other than `BOTH` that the position does not have.
   */
  predicate Skipped(p: ExchangePosition, wantedSide: Value) {
    p.positionAmt == 0.0
    || (Truthy(wantedSide) && wantedSide != Str("BOTH") && Str(p.positionSide) != wantedSide)
  }

  /** The positions the loop goes on to close. */
  function Kept(wantedSide: Value): ExchangePosition -> bool {
    p => !Skipped(p, wantedSide)
  }

  /** The positions the loop tries to close, in order. */
  function ToClose(ps: seq<ExchangePosition>, wantedSide: Value): (r: seq<ExchangePosition>)
    ensures |r| <= |ps|
    ensures forall p :: p in r <==> p in ps && !Skipped(p, wantedSide)
    ensures IsFilter(ps, r, Kept(wantedSide))
  {
    FilterSelects(ps, Kept(wantedSide));
    Filter(ps, Kept(wantedSide))
  }

  /** The reduce-only market order that flattens a position: it sells a long and buys back a short. */
  function CloseOrder(symbol: Value, p: ExchangePosition): (o: FuturesOrderRequest)
    ensures o.side == (if p.positionAmt > 0.0 then Str("SELL") else Str("BUY"))
    ensures o.quantity == Num(AbsReal(p.positionAmt))
    ensures o.orderType == Str("MARKET") && o.reduceOnly == Bool(true)
    ensures o.positionSide == Str(p.positionSide) && o.symbol == symbol
  {
    FuturesOrderRequest(
      symbol, Str(if p.positionAmt > 0.0 then "SELL" else "BUY"), Str(p.positionSide), Str("MARKET"),
      Num(AbsReal(p.positionAmt)), Undefined, Undefined, Bool(true), Undefined, Undefined)
  }

  /** One entry of the close-position results. */
  datatype CloseOutcome =
    | Closed(symbol: string, positionSide: string, orderId: Value, closedAmount: real)
    | CloseFailed(symbol: string, positionSide: string, error: string)

  predicate IsClosed(r: CloseOutcome) { r.Closed? }

  predicate IsCloseFailed(r: CloseOutcome) { r.CloseFailed? }

  function CloseOutcomeOf(p: ExchangePosition, attempt: Call<FuturesOrder>): (r: CloseOutcome)
    ensures r.Closed? <==> attempt.Returned?
    ensures r.symbol == p.symbol && r.positionSide == p.positionSide
    ensures r.Closed? ==> r.closedAmount == AbsReal(p.positionAmt) && r.orderId == attempt.value.orderId
  {
    match attempt
    case Returned(order) => Closed(p.symbol, p.positionSide, order.orderId, AbsReal(p.positionAmt))
    case Raised(e) => CloseFailed(p.symbol, p.positionSide, MessageOr(e, CloseFallback))
  }

  /** The loop over the positions to close, where the i-th attempt is the i-th close order. */
  function CloseResults(ps: seq<ExchangePosition>, attempts: seq<Call<FuturesOrder>>): (rs: seq<CloseOutcome>)
    requires |attempts| == |ps|
    ensures |rs| == |ps|
    ensures forall i :: 0 <= i < |rs| ==> rs[i] == CloseOutcomeOf(ps[i], attempts[i])
    decreases |ps|
  {
    if |ps| == 0 then []
    else
      var n := |ps| - 1;
      CloseResults(ps[..n], attempts[..n]) + [CloseOutcomeOf(ps[n], attempts[n])]
  }

  /** `{ totalPositions, closed, failed, results }`. */
  datatype CloseReport = CloseReport(totalPositions: nat, closed: nat, failed: nat, results: seq<CloseOutcome>)

  /** The close-position data for all fetched positions, given the attempts on those not skipped. */
  function ClosePositionsReport(ps: seq<ExchangePosition>, wantedSide: Value, attempts: seq<Call<FuturesOrder>>): CloseReport
    requires |attempts| == |ToClose(ps, wantedSide)|
  {
    var rs := CloseResults(ToClose(ps, wantedSide), attempts);
    CloseReport(|ps|, Count(rs, IsClosed), Count(rs, IsCloseFailed), rs)
  }

  /**
   * The total counts every fetched position, skipped ones included, so the
   * closed and failed counts add up to the number attempted, at most the
   * total; the closed count is the number of close orders that returned.
   */
  lemma ClosePositionsCounts(ps: seq<ExchangePosition>, wantedSide: Value, attempts: seq<Call<FuturesOrder>>)
    requires |attempts| == |ToClose(ps, wantedSide)|
    ensures var r := ClosePositionsReport(ps, wantedSide, attempts);
      && r.totalPositions == |ps|
      && r.closed + r.failed == |r.results| == |ToClose(ps, wantedSide)| <= r.totalPositions
      && r.closed == Count(attempts, Succeeded)
  {
    var rs := CloseResults(ToClose(ps, wantedSide), attempts);
    CountComplement(rs, IsClosed, IsCloseFailed);
    CountPointwise(rs, IsClosed, attempts, Succeeded);
  }

  /** Every position the loop acts on has a non-zero amount and the requested side (or any side for `BOTH`). */
  lemma ToCloseSelects(ps: seq<ExchangePosition>, wantedSide: Value, p: ExchangePosition)
    requires p in ToClose(ps, wantedSide)
    ensures p in ps && p.positionAmt != 0.0
    ensures Truthy(wantedSide) && wantedSide != Str("BOTH") ==> wantedSide == Str(p.positionSide)
    ensures CloseOrder(Undefined, p).quantity.x > 0.0
  {
  }

  function CloseOutcomeJson(r: CloseOutcome): Json {
    match r
    case Closed(symbol, side, id, amount) =>
      JObject([("symbol", JStr(symbol)), ("positionSide", JStr(side)), ("orderId", JValue(id)),
        ("status", JStr("CLOSED")), ("success", JBool(true)), ("closedAmount", JNum(amount))])
    case CloseFailed(symbol, side, e) =>
      JObject([("symbol", JStr(symbol)), ("positionSide", JStr(side)),
        ("status", JStr("FAILED")), ("success", JBool(false)), ("error", JStr(e))])
  }

  function CloseReportJson(r: CloseReport): Json {
    JObject([
      ("totalPositions", JInt(r.totalPositions)),
      ("closed", JInt(r.closed)),
      ("failed", JInt(r.failed)),
      ("results", JArray(seq(|r.results|, i requires 0 <= i < |r.results| => CloseOutcomeJson(r.results[i]))))])
  }
}
