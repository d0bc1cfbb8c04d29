/**
 * The server shell (src/index.ts): the client check, the first-match router
 * from tool names to handler domains, and the call handler that turns every
 * handler outcome into the text of one response.
 */
module Server {
  import opened Wrappers
  import opened Text
  import opened Numeric
  import opened Values
  import opened Envelope
  import opened Validation
  import opened Gateway
  import Spot
  import Futures
  import Account
  import Advanced

  datatype Domain = AccountDomain | SpotDomain | FuturesDomain | MarketDomain | AdvancedDomain | NoDomain

  // --------------------------------------------------------------- routing

  const AccountPrefix := "binance_" + "account"
  const SpotPrefix := "binance_spot_"
  const FuturesPrefix := "binance_futures_"

  /** The names the account rule takes besides its prefix. */
  const AccountNames := [SpotPrefix + "balances", "binance_" + "portfolio_account", FuturesPrefix + "positions"]

  /** The substrings that send a name to the market domain. */
  const MarketKeywords := ["price", "orderbook", "klines", "24hr_ticker", "exchange_info", "server_time"]

  /** The prefixes of the advanced domain. */
  const AdvancedPrefixes := [
    "binance_" + "calculate_", "binance_" + "analyze_", "binance_" + "compare_", "binance_" + "check_", "binance_" + "get_"]

  predicate IsAccountName(name: string) {
    StartsWith(name, AccountPrefix) || name in AccountNames
  }

  predicate IsSpotName(name: string) {
    && StartsWith(name, SpotPrefix)
    && !Contains(name, "price") && !Contains(name, "orderbook")
    && !Contains(name, "klines") && !Contains(name, "24hr_ticker")
  }

  /** The futures rule does not exclude "orderbook". */
  predicate IsFuturesName(name: string) {
    && StartsWith(name, FuturesPrefix)
    && !Contains(name, "price") && !Contains(name, "klines") && !Contains(name, "24hr_ticker")
  }

  predicate IsMarketName(name: string) {
    exists i :: 0 <= i < |MarketKeywords| && Contains(name, MarketKeywords[i])
  }

  predicate IsAdvancedName(name: string) {
    exists i :: 0 <= i < |AdvancedPrefixes| && StartsWith(name, AdvancedPrefixes[i])
  }

  /**
   * `handleTool`'s classifier as written: account, spot, futures, market,
   * advanced, in that order, the first rule that holds winning.
   */
  function Route(name: string): Domain {
    if IsAccountName(name) then AccountDomain
    else if IsSpotName(name) then SpotDomain
    else if IsFuturesName(name) then FuturesDomain
    else if IsMarketName(name) then MarketDomain
    else if IsAdvancedName(name) then AdvancedDomain
    else NoDomain
  }

  /** The classifier with the advanced prefixes tested before the market keywords. */
  function RouteFixed(name: string): Domain {
    if IsAccountName(name) then AccountDomain
    else if IsSpotName(name) then SpotDomain
    else if IsFuturesName(name) then FuturesDomain
    else if IsAdvancedName(name) then AdvancedDomain
    else if IsMarketName(name) then MarketDomain
    else NoDomain
  }

  /**
   * The two classifiers disagree only on an advanced name that also carries a
   * market keyword: the written order sends it to the market domain.
   */
  lemma RouteFixedDiffers(name: string)
    ensures Route(name) != RouteFixed(name) <==>
      && !IsAccountName(name) && !IsSpotName(name) && !IsFuturesName(name)
      && IsAdvancedName(name) && IsMarketName(name)
    ensures Route(name) != RouteFixed(name) ==> Route(name) == MarketDomain && RouteFixed(name) == AdvancedDomain
  {
  }

  /** A name matched by no rule is unknown to both classifiers. */
  lemma RouteUnknown(name: string)
    ensures Route(name) == NoDomain <==> RouteFixed(name) == NoDomain
    ensures Route(name) == NoDomain <==>
      !IsAccountName(name) && !IsSpotName(name) && !IsFuturesName(name) && !IsMarketName(name) && !IsAdvancedName(name)
  {
  }

  // ------------------------------------------------ routing of known names

  /** A string whose character `i` differs from that of `p` does not start with `p`. */
  lemma NotPrefixAt(s: string, p: string, i: nat)
    requires i < |p| && i < |s| && s[i] != p[i]
    ensures !StartsWith(s, p)
  {
  }

  lemma PrefixedStartsWith(p: string, w: string)
    ensures StartsWith(p + w, p)
  {
    assert (p + w)[..|p|] == p;
  }

  lemma PrefixedStartsWith3(p: string, x: string, y: string)
    ensures StartsWith(p + x + y, p)
  {
    assert (p + x + y)[..|p|] == p;
  }

  lemma PrefixedContains(p: string, w: string)
    ensures Contains(p + w, w)
  {
    assert (p + w)[|p|..|p| + |w|] == w;
    ContainsAt(p + w, w, |p|);
  }

  /** Two names with the same prefix are equal exactly when their rests are. */
  lemma PrefixCancel(p: string, x: string, y: string)
    ensures p + x == p + y <==> x == y
  {
    if p + x == p + y {
      assert x == (p + x)[|p|..];
      assert y == (p + y)[|p|..];
    }
  }

  /** A character 8 outside "acg" rules out every advanced prefix. */
  lemma NotAdvancedName(name: string)
    requires |name| > 8 && (name[8] == 's' || name[8] == 'f' || name[8] == 'e')
    ensures !IsAdvancedName(name)
  {
    forall i | 0 <= i < |AdvancedPrefixes| ensures !StartsWith(name, AdvancedPrefixes[i]) {
      NotPrefixAt(name, AdvancedPrefixes[i], 8);
    }
  }

  /** A name made of an advanced prefix never meets the account, spot or futures rules. */
  lemma AdvancedNameRoutes(name: string)
    requires IsAdvancedName(name)
    ensures RouteFixed(name) == AdvancedDomain
  {
    var i :| 0 <= i < |AdvancedPrefixes| && StartsWith(name, AdvancedPrefixes[i]);
    var p := AdvancedPrefixes[i];
    assert name[..|p|][8] == name[8] && name[..|p|][9] == name[9];
    if i == 1 {
      NotPrefixAt(name, AccountPrefix, 9);
    } else {
      NotPrefixAt(name, AccountPrefix, 8);
    }
    NotPrefixAt(name, SpotPrefix, 8);
    NotPrefixAt(name, FuturesPrefix, 8);
    // Character 8 is the first one after "binance_": it is 's', 'p' or 'f' in
    // the three account names and 'c', 'a' or 'g' after an advanced prefix, so
    // comparing it alone rules out every account name.
    assert name[8] != AccountNames[0][8] && name[8] != AccountNames[1][8] && name[8] != AccountNames[2][8];
  }

  /** "price" does not occur in a spot or futures prefix. */
  lemma PrefixesWithoutPrice()
    ensures !Contains(SpotPrefix, "price") && !Contains(FuturesPrefix, "price")
  {
    ContainsSplit("binance_", "futures_", "price");
    assert FuturesPrefix == "binance_" + "futures_";
  }

  /** A keyword holding a character that `prefix + w` lacks does not occur in it. */
  lemma WithoutChar(prefix: string, w: string, keyword: string, c: char)
    requires c in keyword && c !in prefix && c !in w
    ensures !Contains(prefix + w, keyword)
  {
    MissingCharNotContained(prefix + w, keyword, c);
  }

  /**
   * `SpotPrefix + w` goes to the spot handler when `w` names neither the
   * balances tool nor a market keyword.
   */
  lemma SpotNameRoutes(w: string)
    requires w != "balances" && !Contains(w, "price") && 'k' !in w && '2' !in w
    ensures IsSpotName(SpotPrefix + w) && !IsAccountName(SpotPrefix + w)
    ensures RouteFixed(SpotPrefix + w) == SpotDomain && Route(SpotPrefix + w) == SpotDomain
  {
    var name := SpotPrefix + w;
    PrefixedStartsWith(SpotPrefix, w);
    PrefixesWithoutPrice();
    ContainsSplit(SpotPrefix, w, "price");
    WithoutChar(SpotPrefix, w, "orderbook", 'k');
    WithoutChar(SpotPrefix, w, "klines", 'k');
    WithoutChar(SpotPrefix, w, "24hr_ticker", '2');
    NotPrefixAt(name, AccountPrefix, 8);
    PrefixCancel(SpotPrefix, w, "balances");
    assert name[8] != AccountNames[1][8] && name[8] != AccountNames[2][8];
  }

  /**
   * `FuturesPrefix + w` goes to the futures handler when `w` names neither the
   * positions tool nor a futures-excluded keyword.
   */
  lemma FuturesNameRoutes(w: string)
    requires w != "positions" && !Contains(w, "price") && !Contains(w, "klines") && '2' !in w
    ensures IsFuturesName(FuturesPrefix + w) && !IsSpotName(FuturesPrefix + w) && !IsAccountName(FuturesPrefix + w)
    ensures RouteFixed(FuturesPrefix + w) == FuturesDomain && Route(FuturesPrefix + w) == FuturesDomain
  {
    var name := FuturesPrefix + w;
    PrefixedStartsWith(FuturesPrefix, w);
    PrefixesWithoutPrice();
    ContainsSplit(FuturesPrefix, w, "price");
    ContainsSplit(FuturesPrefix, w, "klines");
    MissingCharNotContained(FuturesPrefix, "klines", 'k');
    WithoutChar(FuturesPrefix, w, "24hr_ticker", '2');
    NotPrefixAt(name, AccountPrefix, 8);
    NotPrefixAt(name, SpotPrefix, 8);
    PrefixCancel(FuturesPrefix, w, "positions");
    assert name[8] != AccountNames[0][8] && name[8] != AccountNames[1][8];
  }

  /** The tools the market handler has a case for. */
  const MarketTools := [
    SpotPrefix + "price", FuturesPrefix + "price", SpotPrefix + "orderbook", SpotPrefix + "klines",
    FuturesPrefix + "klines", SpotPrefix + "24hr_ticker", FuturesPrefix + "24hr_ticker",
    "binance_" + "exchange_info", "binance_" + "server_time"]

  /** A spot name ending in one of the keywords the spot rule excludes goes to the market handler. */
  lemma SpotKeywordRoutes(k: nat)
    requires k < 4
    ensures Route(SpotPrefix + MarketKeywords[k]) == MarketDomain
    ensures RouteFixed(SpotPrefix + MarketKeywords[k]) == MarketDomain
  {
    var kw := MarketKeywords[k];
    var name := SpotPrefix + kw;
    PrefixedContains(SpotPrefix, kw);
    assert IsMarketName(name);
    NotPrefixAt(name, FuturesPrefix, 8);
    NotPrefixAt(name, AccountPrefix, 8);
    PrefixCancel(SpotPrefix, kw, "balances");
    assert name[8] != AccountNames[1][8] && name[8] != AccountNames[2][8];
    NotAdvancedName(name);
  }

  /** A futures name ending in one of the keywords the futures rule excludes goes to the market handler. */
  lemma FuturesKeywordRoutes(k: nat)
    requires k == 0 || k == 2 || k == 3
    ensures Route(FuturesPrefix + MarketKeywords[k]) == MarketDomain
    ensures RouteFixed(FuturesPrefix + MarketKeywords[k]) == MarketDomain
  {
    var kw := MarketKeywords[k];
    var name := FuturesPrefix + kw;
    PrefixedContains(FuturesPrefix, kw);
    assert IsMarketName(name);
    NotPrefixAt(name, SpotPrefix, 8);
    NotPrefixAt(name, AccountPrefix, 8);
    PrefixCancel(FuturesPrefix, kw, "positions");
    assert name[8] != AccountNames[0][8] && name[8] != AccountNames[1][8];
    NotAdvancedName(name);
  }

  /** "binance_exchange_info" and "binance_server_time" meet only the market rule. */
  lemma BareKeywordRoutes(k: nat)
    requires k == 4 || k == 5
    ensures Route("binance_" + MarketKeywords[k]) == MarketDomain
    ensures RouteFixed("binance_" + MarketKeywords[k]) == MarketDomain
  {
    var kw := MarketKeywords[k];
    var name := "binance_" + kw;
    PrefixedContains("binance_", kw);
    assert IsMarketName(name);
    NotPrefixAt(name, SpotPrefix, 9);
    NotPrefixAt(name, FuturesPrefix, 8);
    NotPrefixAt(name, AccountPrefix, 8);
    assert name[9] != AccountNames[0][9] && name[8] != AccountNames[1][8] && name[8] != AccountNames[2][8];
    NotAdvancedName(name);
  }

  /** Every declared account tool reaches the account handler. */
  lemma AccountToolsRouted()
    ensures forall i :: 0 <= i < |Account.AccountTools| ==> RouteFixed(Account.AccountTools[i]) == AccountDomain
    ensures forall i :: 0 <= i < |Account.AccountTools| ==> Route(Account.AccountTools[i]) == AccountDomain
  {
    PrefixedStartsWith(AccountPrefix, "_info");
    PrefixedStartsWith(AccountPrefix, "_status");
  }

  /** `SpotPrefix + w` for a word without 'k', '2' and some character `c` of "price". */
  lemma SpotWordRoutes(w: string, c: char)
    requires w != "balances" && c in "price" && c !in w && 'k' !in w && '2' !in w
    ensures RouteFixed(SpotPrefix + w) == SpotDomain && Route(SpotPrefix + w) == SpotDomain
  {
    MissingCharNotContained(w, "price", c);
    SpotNameRoutes(w);
  }

  /** Every declared spot tool reaches the spot handler, under either classifier. */
  lemma SpotToolsRouted()
    ensures forall i :: 0 <= i < |Spot.SpotTools| ==> RouteFixed(Spot.SpotTools[i]) == SpotDomain
    ensures forall i :: 0 <= i < |Spot.SpotTools| ==> Route(Spot.SpotTools[i]) == SpotDomain
  {
    forall i | 0 <= i < |Spot.SpotTools|
      ensures RouteFixed(Spot.SpotTools[i]) == SpotDomain && Route(Spot.SpotTools[i]) == SpotDomain
    {
      if i == 0 {
        SpotWordRoutes("place_order", 'i');
      } else if i == 1 {
        SpotWordRoutes("cancel_order", 'p');
      } else if i == 2 {
        SpotWordRoutes("open_orders", 'i');
      } else if i == 3 {
        SpotWordRoutes("order_history", 'p');
      } else if i == 4 {
        SpotWordRoutes("trade_history", 'p');
      } else {
        SpotWordRoutes("cancel_all_orders", 'p');
      }
    }
  }

  /** `FuturesPrefix + w` for a word without 'k', '2' and some character `c` of "price". */
  lemma FuturesWordRoutes(w: string, c: char)
    requires w != "positions" && c in "price" && c !in w && 'k' !in w && '2' !in w
    ensures RouteFixed(FuturesPrefix + w) == FuturesDomain && Route(FuturesPrefix + w) == FuturesDomain
  {
    MissingCharNotContained(w, "price", c);
    MissingCharNotContained(w, "klines", 'k');
    FuturesNameRoutes(w);
  }

  /** The futures tool at index `i < 5` reaches the futures handler, under either classifier. */
  lemma FuturesToolRouted(i: nat)
    requires i < 5
    ensures RouteFixed(Futures.FuturesTools[i]) == FuturesDomain && Route(Futures.FuturesTools[i]) == FuturesDomain
  {
    if i == 0 {
      assert Futures.FuturesTools[i] == FuturesPrefix + "place_order";
      FuturesWordRoutes("place_order", 'i');
    } else if i == 1 {
      assert Futures.FuturesTools[i] == FuturesPrefix + "cancel_order";
      FuturesWordRoutes("cancel_order", 'p');
    } else if i == 2 {
      assert Futures.FuturesTools[i] == FuturesPrefix + "open_orders";
      FuturesWordRoutes("open_orders", 'i');
    } else if i == 3 {
      assert Futures.FuturesTools[i] == FuturesPrefix + "order_history";
      FuturesWordRoutes("order_history", 'p');
    } else {
      assert Futures.FuturesTools[i] == FuturesPrefix + "change_leverage";
      FuturesWordRoutes("change_leverage", 'p');
    }
  }

  /** The same for the last four futures tools. */
  lemma LaterFuturesToolRouted(i: nat)
    requires 5 <= i < |Futures.FuturesTools|
    ensures RouteFixed(Futures.FuturesTools[i]) == FuturesDomain && Route(Futures.FuturesTools[i]) == FuturesDomain
  {
    if i == 5 {
      assert Futures.FuturesTools[i] == FuturesPrefix + "set_margin_type";
      FuturesWordRoutes("set_margin_type", 'c');
    } else if i == 6 {
      assert Futures.FuturesTools[i] == FuturesPrefix + "trade_history";
      FuturesWordRoutes("trade_history", 'p');
    } else if i == 7 {
      assert Futures.FuturesTools[i] == FuturesPrefix + "cancel_all_orders";
      FuturesWordRoutes("cancel_all_orders", 'p');
    } else {
      assert Futures.FuturesTools[i] == FuturesPrefix + "close_position";
      FuturesWordRoutes("close_position", 'r');
    }
  }

  /** Every declared futures tool reaches the futures handler, under either classifier. */
  lemma FuturesToolsRouted()
    ensures forall i :: 0 <= i < |Futures.FuturesTools| ==> RouteFixed(Futures.FuturesTools[i]) == FuturesDomain
    ensures forall i :: 0 <= i < |Futures.FuturesTools| ==> Route(Futures.FuturesTools[i]) == FuturesDomain
  {
    forall i | 0 <= i < |Futures.FuturesTools|
      ensures RouteFixed(Futures.FuturesTools[i]) == FuturesDomain && Route(Futures.FuturesTools[i]) == FuturesDomain
    {
      if i < 5 {
        FuturesToolRouted(i);
      } else {
        LaterFuturesToolRouted(i);
      }
    }
  }

  /** Every declared advanced tool reaches the advanced handler under the corrected classifier. */
  lemma AdvancedToolsRouted()
    ensures forall i :: 0 <= i < |Advanced.AdvancedTools| ==> RouteFixed(Advanced.AdvancedTools[i]) == AdvancedDomain
  {
    forall i | 0 <= i < |Advanced.AdvancedTools| ensures RouteFixed(Advanced.AdvancedTools[i]) == AdvancedDomain {
      var name := Advanced.AdvancedTools[i];
      if i == 0 {
        assert name == AdvancedPrefixes[0] + "position_size";
        PrefixedStartsWith(AdvancedPrefixes[0], "position_size");
      } else if i == 1 {
        assert name == AdvancedPrefixes[1] + "portfolio_risk";
        PrefixedStartsWith(AdvancedPrefixes[1], "portfolio_risk");
      } else if i == 2 {
        assert name == AdvancedPrefixes[2] + "spot_futures_" + "price";
        PrefixedStartsWith3(AdvancedPrefixes[2], "spot_futures_", "price");
      } else if i == 3 {
        assert name == AdvancedPrefixes[0] + "funding_cost";
        PrefixedStartsWith(AdvancedPrefixes[0], "funding_cost");
      } else if i == 4 {
        assert name == AdvancedPrefixes[3] + "order_precision";
        PrefixedStartsWith(AdvancedPrefixes[3], "order_precision");
      } else {
        assert name == AdvancedPrefixes[4] + "optimal_trade_size";
        PrefixedStartsWith(AdvancedPrefixes[4], "optimal_trade_size");
      }
      AdvancedNameRoutes(name);
    }
  }

  /** Every market tool reaches the market handler, under either classifier. */
  lemma MarketToolsRouted()
    ensures forall i :: 0 <= i < |MarketTools| ==> RouteFixed(MarketTools[i]) == MarketDomain
    ensures forall i :: 0 <= i < |MarketTools| ==> Route(MarketTools[i]) == MarketDomain
  {
    forall i | 0 <= i < |MarketTools|
      ensures RouteFixed(MarketTools[i]) == MarketDomain && Route(MarketTools[i]) == MarketDomain
    {
      MarketToolRouted(i);
    }
  }

  /** The market tool at index `i` meets the market rule and no earlier one. */
  lemma MarketToolRouted(i: nat)
    requires i < |MarketTools|
    ensures RouteFixed(MarketTools[i]) == MarketDomain && Route(MarketTools[i]) == MarketDomain
  {
    if i == 0 {
      assert MarketTools[i] == SpotPrefix + MarketKeywords[0];
      SpotKeywordRoutes(0);
    } else if i == 1 {
      assert MarketTools[i] == FuturesPrefix + MarketKeywords[0];
      FuturesKeywordRoutes(0);
    } else if i == 2 {
      assert MarketTools[i] == SpotPrefix + MarketKeywords[1];
      SpotKeywordRoutes(1);
    } else if i == 3 {
      assert MarketTools[i] == SpotPrefix + MarketKeywords[2];
      SpotKeywordRoutes(2);
    } else if i == 4 {
      assert MarketTools[i] == FuturesPrefix + MarketKeywords[2];
      FuturesKeywordRoutes(2);
    } else if i == 5 {
      assert MarketTools[i] == SpotPrefix + MarketKeywords[3];
      SpotKeywordRoutes(3);
    } else if i == 6 {
      assert MarketTools[i] == FuturesPrefix + MarketKeywords[3];
      FuturesKeywordRoutes(3);
    } else if i == 7 {
      assert MarketTools[i] == "binance_" + MarketKeywords[4];
      BareKeywordRoutes(4);
    } else {
      assert MarketTools[i] == "binance_" + MarketKeywords[5];
      BareKeywordRoutes(5);
    }
  }

  /** A spot order listing goes to spot, the spot price to market. */
  lemma SpotExamples()
    ensures Route(SpotPrefix + "open_orders") == SpotDomain
    ensures Route(SpotPrefix + "price") == MarketDomain
  {
    SpotNameRoutes("open_orders");
    SpotKeywordRoutes(0);
  }

  /** The futures rule lets "orderbook" through, unlike the spot rule. */
  lemma FuturesOrderbookGoesToFutures()
    ensures Route(FuturesPrefix + "orderbook") == FuturesDomain
    ensures Route(SpotPrefix + "orderbook") == MarketDomain
  {
    MissingCharNotContained("orderbook", "klines", 'i');
    FuturesNameRoutes("orderbook");
    SpotKeywordRoutes(1);
  }

  // -------------------------------------------------------------- dispatch

  const UnknownMarketTool := "未知的市场数据工具: "

  /** `handleMarketTool`: each case is one exchange call, its answer reshaped. */
  function MarketHandle(name: string, args: Args, ex: Exchange): (r: Run)
    ensures name !in MarketTools ==> r == Run(Failure(UnknownMarketTool + name), [])
    ensures name in MarketTools ==> r.calls == [Reshaped(name)]
  {
    if name in MarketTools then
      match ex.reshaped(name, args)
      case Returned(json) => Run(Success(Data(json)), [Reshaped(name)])
      case Raised(e) => Run(Caught(e, UnknownError), [Reshaped(name)])
    else Run(Failure(UnknownMarketTool + name), [])
  }

  /** What `handleTool` does: answer with an envelope, or throw. */
  datatype Handled = Answered(run: Run) | Threw(message: string)

  const UnknownTool := "未知的工具: "

  /** The handler of a domain. */
  function Dispatch(d: Domain, name: string, args: Args, ex: Exchange, clock: Clock, parse: string -> Ext): (h: Handled)
    ensures d == NoDomain <==> h.Threw?
    ensures d == NoDomain ==> h == Threw(UnknownTool + name)
  {
    match d
    case AccountDomain => Answered(Account.Handle(name, args, ex, clock))
    case SpotDomain => Answered(Spot.Handle(name, args, ex, clock))
    case FuturesDomain => Answered(Futures.Handle(name, args, ex))
    case MarketDomain => Answered(MarketHandle(name, args, ex))
    case AdvancedDomain => Answered(Advanced.Handle(name, args, ex, clock, parse))
    case NoDomain => Threw(UnknownTool + name)
  }

  /**
   * The price comparison carries the market keyword "price" and an advanced
   * prefix: the written order sends it to the market domain, the corrected
   * order to the advanced one.
   */
  lemma CompareRoutes()
    ensures Route(Advanced.CompareTool) == MarketDomain
    ensures RouteFixed(Advanced.CompareTool) == AdvancedDomain
    ensures Advanced.CompareTool !in MarketTools
  {
    var name := Advanced.CompareTool;
    PrefixedContains(AdvancedPrefixes[2] + "spot_futures_", "price");
    assert MarketKeywords[0] == "price";
    assert IsMarketName(name);
    PrefixedStartsWith3(AdvancedPrefixes[2], "spot_futures_", "price");
    assert StartsWith(name, AdvancedPrefixes[2]);
    AdvancedNameRoutes(name);
    assert forall i :: 0 <= i < |MarketTools| ==> |MarketTools[i]| < |name|;
  }

  /**
   * The price comparison as written: the market handler has no case for it,
   * so the call fails with the unknown market tool error before any exchange call.
   */
  lemma CompareUnreachable(args: Args, ex: Exchange, clock: Clock, parse: string -> Ext)
    ensures Route(Advanced.CompareTool) == MarketDomain
    ensures Dispatch(Route(Advanced.CompareTool), Advanced.CompareTool, args, ex, clock, parse)
      == Answered(Run(Failure(UnknownMarketTool + Advanced.CompareTool), []))
  {
    CompareRoutes();
  }

  /** With the corrected classifier the comparison reaches its own case. */
  lemma CompareReachable(args: Args, ex: Exchange, clock: Clock, parse: string -> Ext)
    ensures Dispatch(RouteFixed(Advanced.CompareTool), Advanced.CompareTool, args, ex, clock, parse)
      == Answered(Advanced.Compare(args, ex, clock))
  {
    CompareRoutes();
  }

  // ---------------------------------------------------------- client check

  /**
   * How the client stands when a call arrives: whether one exists, whether
   * the server runs over HTTP, whether both API keys are in the environment,
   * and whether building a client from them succeeds.
   */
  datatype Setup = Setup(hasClient: bool, httpMode: bool, haveKeys: bool, initSucceeds: bool)

  const Cross := "❌"
  const InitFailed := Cross + " Binance客户端初始化失败，请检查API密钥配置"
  const MissingConfig := Cross + " 缺少Binance API配置，请在Claude Desktop的MCP配置中设置BINANCE_API_KEY和BINANCE_SECRET_KEY"
  const NotInitialised := Cross + " Binance客户端未初始化，请检查配置"

  /** The failure returned before routing, if any: over HTTP a missing client is first built from the keys. */
  function ClientCheck(s: Setup): (m: Option<string>)
    ensures s.hasClient ==> m.None?
    ensures !s.hasClient && !s.httpMode ==> m == Some(NotInitialised)
    ensures !s.hasClient && s.httpMode ==>
      (m.None? <==> s.haveKeys && s.initSucceeds)
      && (!s.haveKeys ==> m == Some(MissingConfig))
      && (s.haveKeys && !s.initSucceeds ==> m == Some(InitFailed))
  {
    if !s.hasClient && s.httpMode then
      if !s.haveKeys then Some(MissingConfig)
      else if !s.initSucceeds then Some(InitFailed)
      else None
    else if !s.hasClient then Some(NotInitialised)
    else None
  }

  /** `handleTool(name, args)`: the client check, then the classifier as written and its handler. */
  function HandleTool(name: string, args: Args, setup: Setup, ex: Exchange, clock: Clock, parse: string -> Ext): (h: Handled)
    ensures ClientCheck(setup).Some? ==> h == Answered(Run(Failure(ClientCheck(setup).value), []))
    ensures ClientCheck(setup).None? ==> h == Dispatch(Route(name), name, args, ex, clock, parse)
  {
    match ClientCheck(setup)
    case Some(m) => Answered(Run(Failure(m), []))
    case None => Dispatch(Route(name), name, args, ex, clock, parse)
  }

  /** `handleTool` with the corrected classifier. */
  function HandleToolFixed(name: string, args: Args, setup: Setup, ex: Exchange, clock: Clock, parse: string -> Ext): (h: Handled)
    ensures ClientCheck(setup).Some? ==> h == Answered(Run(Failure(ClientCheck(setup).value), []))
    ensures ClientCheck(setup).None? ==> h == Dispatch(RouteFixed(name), name, args, ex, clock, parse)
  {
    match ClientCheck(setup)
    case Some(m) => Answered(Run(Failure(m), []))
    case None => Dispatch(RouteFixed(name), name, args, ex, clock, parse)
  }

  /**
   * The written and the corrected handler answer differently only for an
   * advanced name carrying a market keyword, with a usable client.
   */
  lemma HandleToolFixedDiffers(name: string, args: Args, setup: Setup, ex: Exchange, clock: Clock, parse: string -> Ext)
    requires HandleTool(name, args, setup, ex, clock, parse) != HandleToolFixed(name, args, setup, ex, clock, parse)
    ensures ClientCheck(setup).None? && Route(name) == MarketDomain && RouteFixed(name) == AdvancedDomain
  {
    RouteFixedDiffers(name);
  }

  /** With the corrected handler the price comparison runs its own case. */
  lemma CompareHandledFixed(args: Args, setup: Setup, ex: Exchange, clock: Clock, parse: string -> Ext)
    requires ClientCheck(setup).None?
    ensures HandleToolFixed(Advanced.CompareTool, args, setup, ex, clock, parse) == Answered(Advanced.Compare(args, ex, clock))
  {
    CompareReachable(args, ex, clock, parse);
  }

  // ------------------------------------------------------------ call handler

  const FailureHeader := "❌ 操作失败\n\n"
  const FailureFooter := "\n\n💡 如需帮助，请检查参数是否正确或联系技术支持。"

  /** A failure message gets the generic header and footer unless it already carries either marker. */
  function WrapFailure(e: string): (m: string)
    ensures Contains(e, "❌") || Contains(e, "💡") ==> m == e
    ensures !Contains(e, "❌") && !Contains(e, "💡") ==> m == FailureHeader + e + FailureFooter
  {
    if !Contains(e, "❌") && !Contains(e, "💡") then FailureHeader + e + FailureFooter else e
  }

  /** Wrapping is idempotent: a wrapped message carries the marker and is left alone the second time. */
  lemma WrapFailureIdempotent(e: string)
    ensures WrapFailure(WrapFailure(e)) == WrapFailure(e)
    ensures Contains(WrapFailure(e), "❌") || Contains(WrapFailure(e), "💡")
  {
    if !Contains(e, "❌") && !Contains(e, "💡") {
      assert OccursAt(FailureHeader + e + FailureFooter, "❌", 0);
      ContainsAt(FailureHeader + e + FailureFooter, "❌", 0);
    }
  }

  /** A message that opens with ❌ is passed through unchanged. */
  lemma MarkedFailurePassesThrough(m: string)
    requires |m| > 0 && m[0] == '❌'
    ensures WrapFailure(m) == m
  {
    assert OccursAt(m, "❌", 0);
    ContainsAt(m, "❌", 0);
  }

  /** A validator-rendered error, starting with its own ❌ heading, is passed through unchanged. */
  lemma ValidationErrorsPassThrough<D>(r: Outcome<D>)
    ensures WrapFailure(FormatValidationError(r)) == FormatValidationError(r)
  {
    var msg := FormatValidationError(r);
    assert msg[..|ErrorHeading|] == ErrorHeading;
    assert msg[0] == ErrorHeading[0] == '❌';
    MarkedFailurePassesThrough(msg);
  }

  const ExceptionHeader := "❌ 系统异常\n\n工具执行过程中发生异常："
  const ExceptionFooter := "\n\n🔧 建议解决方案：\n• 检查网络连接是否正常\n• 确认API密钥配置是否正确\n• 稍后重试或联系技术支持\n• 查看系统日志获取更多信息"

  /** The text of one response, with the exchange calls made while producing it. */
  datatype Response = Response(text: string, calls: seq<ExchangeCall>)

  /**
   * The call handler: missing arguments are an empty object; a failure is
   * wrapped, text data is shown as it is, other data through `stringify`, and a
   * throw becomes the fixed system-exception text. Nothing escapes.
   */
  function CallTool(
    name: string, args: Option<Args>, setup: Setup, ex: Exchange, clock: Clock,
    parse: string -> Ext, stringify: Json -> string): (r: Response)
    ensures var h := HandleTool(name, args.GetOr(map[]), setup, ex, clock, parse);
      && (h.Threw? ==> r == Response(ExceptionHeader + h.message + ExceptionFooter, []))
      && (h.Answered? ==> r.calls == h.run.calls)
      && (h.Answered? && h.run.result.Failure? ==> r.text == WrapFailure(h.run.result.error))
      && (h.Answered? && h.run.result.Success? && h.run.result.data.Text? ==> r.text == h.run.result.data.text)
      && (h.Answered? && h.run.result.Success? && h.run.result.data.Data? ==> r.text == stringify(h.run.result.data.json))
  {
    match HandleTool(name, args.GetOr(map[]), setup, ex, clock, parse)
    case Threw(m) => Response(ExceptionHeader + m + ExceptionFooter, [])
    case Answered(run) =>
      match run.result
      case Failure(e) => Response(WrapFailure(e), run.calls)
      case Success(Text(s)) => Response(s, run.calls)
      case Success(Data(j)) => Response(stringify(j), run.calls)
  }

  /** Without a usable client every call answers with the client message, unwrapped, and calls nothing. */
  lemma NoClientNoCalls(
    name: string, args: Option<Args>, setup: Setup, ex: Exchange, clock: Clock,
    parse: string -> Ext, stringify: Json -> string)
    requires ClientCheck(setup).Some?
    ensures CallTool(name, args, setup, ex, clock, parse, stringify) == Response(ClientCheck(setup).value, [])
  {
    var m := ClientCheck(setup).value;
    assert InitFailed[0] == MissingConfig[0] == NotInitialised[0] == Cross[0];
    MarkedFailurePassesThrough(m);
  }

  /** An unmatched name is answered with the system-exception text naming it, without any exchange call. */
  lemma UnknownNameAnswered(
    name: string, args: Option<Args>, setup: Setup, ex: Exchange, clock: Clock,
    parse: string -> Ext, stringify: Json -> string)
    requires ClientCheck(setup).None? && Route(name) == NoDomain
    ensures CallTool(name, args, setup, ex, clock, parse, stringify)
      == Response(ExceptionHeader + (UnknownTool + name) + ExceptionFooter, [])
  {
  }

  /**
   * As written, a call of the price comparison with a usable client is
   * answered with the wrapped unknown-market-tool error, without any exchange call.
   */
  lemma CompareCallUnknown(
    args: Option<Args>, setup: Setup, ex: Exchange, clock: Clock, parse: string -> Ext, stringify: Json -> string)
    requires ClientCheck(setup).None?
    ensures CallTool(Advanced.CompareTool, args, setup, ex, clock, parse, stringify)
      == Response(WrapFailure(UnknownMarketTool + Advanced.CompareTool), [])
  {
    CompareUnreachable(args.GetOr(map[]), ex, clock, parse);
  }

  /** A rejected spot order reaches the caller as the validator's text, unwrapped, with no exchange call. */
  lemma RejectedSpotOrderText(
    args: Args, setup: Setup, ex: Exchange, clock: Clock, parse: string -> Ext, stringify: Json -> string)
    requires ClientCheck(setup).None?
    requires ValidateParameters(args, Spot.PlaceOrderRules(args)).Invalid?
    ensures var v := ValidateParameters(args, Spot.PlaceOrderRules(args));
      CallTool(Spot.PlaceOrderTool, Some(args), setup, ex, clock, parse, stringify) == Response(FormatValidationError(v), [])
  {
    RejectedSpotOrderHandled(args, setup, ex, clock, parse);
    ValidationErrorsPassThrough(ValidateParameters(args, Spot.PlaceOrderRules(args)));
  }

  /** The handler's side of a rejected spot order: the validator's text as a failure, no exchange call. */
  lemma RejectedSpotOrderHandled(args: Args, setup: Setup, ex: Exchange, clock: Clock, parse: string -> Ext)
    requires ClientCheck(setup).None?
    requires ValidateParameters(args, Spot.PlaceOrderRules(args)).Invalid?
    ensures var v := ValidateParameters(args, Spot.PlaceOrderRules(args));
      HandleTool(Spot.PlaceOrderTool, args, setup, ex, clock, parse) == Answered(Run(Failure(FormatValidationError(v)), []))
  {
    SpotToolsRouted();
    assert Spot.SpotTools[0] == Spot.PlaceOrderTool;
    Spot.HandleRejectedOrder(args, ex, clock);
  }
}
