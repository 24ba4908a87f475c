/** OrderbookManager: the object that remembers the last dispatched profile and
    the trade watermark, and that sends requests to the exchange. The exchange
    is a log of the requests sent (`calls`) plus the replies and snapshots each
    operation is given as parameters. */
module Manager {
  import opened Common
  import opened Config
  import opened Allocation
  import opened Ladder
  import opened Conversion
  import opened Decision
  import opened Dispatch
  import opened Generation

  /** max() of a non-empty collection of trade ids. */
  function MaxId(ids: seq<int>): (m: int)
    requires |ids| > 0
    ensures m in ids
    ensures forall i :: 0 <= i < |ids| ==> ids[i] <= m
  {
    if |ids| == 1 then ids[0]
    else
      var rest := MaxId(ids[1..]);
      assert forall i :: 1 <= i < |ids| ==> ids[i] == ids[1..][i - 1];
      if ids[0] >= rest then ids[0] else rest
  }

  /** boot_trades: the newest id of the account's trade history; max() of no
      ids raises. */
  function BootWatermark(ids: seq<int>): (r: Result<int>)
    ensures r.Err? <==> |ids| == 0
    ensures r.Err? ==> r.error == NoTradeIds
    ensures r.Ok? ==> r.value in ids && forall i :: 0 <= i < |ids| ==> ids[i] <= r.value
  {
    if |ids| == 0 then Err(NoTradeIds) else Ok(MaxId(ids))
  }

  /** check_for_trades: the watermark must have been booted; no new trades keep
      it, otherwise it becomes the largest new id. */
  function NextWatermark(current: Option<int>, newIds: seq<int>): (r: Result<int>)
    ensures r.Err? <==> current.None?
    ensures r.Err? ==> r.error == NotBooted
    ensures current.Some? && |newIds| == 0 ==> r == Ok(current.value)
    ensures current.Some? && |newIds| > 0 ==>
              r.Ok? && r.value in newIds && forall i :: 0 <= i < |newIds| ==> newIds[i] <= r.value
  {
    if current.None? then Err(NotBooted)
    else if |newIds| == 0 then Ok(current.value)
    else Ok(MaxId(newIds))
  }

  /** The exchange returns only trades newer than the watermark, so a poll
      never moves it back, and any new trade moves it forward. */
  lemma NewerTradesAdvanceWatermark(current: int, newIds: seq<int>)
    requires forall i :: 0 <= i < |newIds| ==> newIds[i] > current
    ensures NextWatermark(Some(current), newIds).value >= current
    ensures |newIds| > 0 ==> NextWatermark(Some(current), newIds).value > current
  {
  }

  /** New trades 45 and 43 after watermark 40 leave it at 45. */
  lemma WatermarkExample()
    ensures NextWatermark(Some(40), [45, 43]) == Ok(45)
    ensures NextWatermark(Some(45), []) == Ok(45)
  {
    assert MaxId([45, 43]) == 45 by {
      assert [45, 43][1..] == [43];
    }
  }

  /** generate_orders as a whole: a failure while building the profile escapes
      before anything is sent; otherwise the profile is handed to
      rebalance_orders. */
  function GenerateOutcome(cfg: BotConfig, configs: Entries<MarketConfig>, prev: Option<Profile>, force: bool,
                           balancesMerged: map<string, real>, markets: map<string, MarketInfo>,
                           tickers: Tickers, balances: map<string, real>, btcPrice: real,
                           reply: nat -> Option<int>): (o: Outcome)
    ensures var p := GeneratedProfile(configs, balancesMerged, cfg.currencyReserves, markets, tickers);
            && (o.prev == prev || (p.Ok? && o.prev == Some(p.value)))
            && (o.sent != [] ==> p.Ok? && o.sent[0] == CancelAllOrders)
            && (cfg.dryRunMode ==> o.sent == [] && o.prev == prev)
            && (p.Err? ==> o == Outcome(Err(p.error), [], prev))
            && (p.Ok? ==> o == Rebalance(cfg, prev, p.value, force, balances, tickers, btcPrice, reply))
  {
    var p := GeneratedProfile(configs, balancesMerged, cfg.currencyReserves, markets, tickers);
    if p.Err? then Outcome(Err(p.error), [], prev)
    else Rebalance(cfg, prev, p.value, force, balances, tickers, btcPrice, reply)
  }

  /** A profile that could not be built sends nothing and remembers nothing. */
  lemma FailedGenerationSendsNothing(cfg: BotConfig, configs: Entries<MarketConfig>, prev: Option<Profile>, force: bool,
                                     balancesMerged: map<string, real>, markets: map<string, MarketInfo>,
                                     tickers: Tickers, balances: map<string, real>, btcPrice: real,
                                     reply: nat -> Option<int>)
    requires GeneratedProfile(configs, balancesMerged, cfg.currencyReserves, markets, tickers).Err?
    ensures var o := GenerateOutcome(cfg, configs, prev, force, balancesMerged, markets, tickers, balances, btcPrice, reply);
            o.result.Err? && o.sent == [] && o.prev == prev
  {
  }

  /** The zip loop of check_for_rebalance over one pair of ladders. */
  method CheckLadder(market: string, ns: seq<PricedOrder>, os: seq<PricedOrder>, priceTol: real, amountTol: real)
    returns (r: Result<bool>)
    ensures r == LadderTripsFrom(market, ns, os, 0, priceTol, amountTol)
  {
    var i := 0;
    while i < |ns| && i < |os|
      invariant i <= |ns|
      invariant LadderTripsFrom(market, ns, os, 0, priceTol, amountTol) == LadderTripsFrom(market, ns, os, i, priceTol, amountTol)
      decreases |ns| - i
    {
      var n := ns[i];
      var o := os[i];
      if n.price == 0.0 {
        return Err(DivisionByZero(market));
      }
      var priceDiff := (n.price - o.price) / n.price;
      if priceDiff > priceTol {
        return Ok(true);
      }
      if n.amount != 0.0 {
        var amountDiff := (n.amount - o.amount) / n.amount;
        if amountDiff > amountTol {
          return Ok(true);
        }
      }
      i := i + 1;
    }
    return Ok(false);
  }

  /** The reserve loop of check_for_rebalance. The loop stops at the first
      reserve currency out of band; which one is met first cannot change the
      answer. */
  method CheckReserves(reserves: map<string, real>, balances: map<string, real>, tickers: Tickers,
                       btcPrice: real, thresh: real) returns (drift: bool)
    ensures drift == ReserveDrift(reserves, balances, tickers, btcPrice, thresh)
  {
    var remaining := reserves.Keys;
    while remaining != {}
      invariant remaining <= reserves.Keys
      invariant forall c :: c in reserves && c !in remaining ==>
                  !OutOfBand(c, reserves[c], balances, tickers, btcPrice, thresh)
      decreases remaining
    {
      var coin :| coin in remaining;
      var balanceUsd := CoinToUsd(tickers, coin, BalanceOrZero(balances, coin), btcPrice);
      var reserveUsd := CoinToUsd(tickers, coin, reserves[coin], btcPrice);
      if balanceUsd > reserveUsd + thresh || balanceUsd < reserveUsd - thresh {
        assert OutOfBand(coin, reserves[coin], balances, tickers, btcPrice, thresh);
        return true;
      }
      remaining := remaining - {coin};
    }
    return false;
  }

  class OrderbookManager {
    const config: BotConfig
    /** market_configs: every traded market's merged configuration, in order. */
    const marketConfigs: Entries<MarketConfig>
    /** prev_alloc_profile: the last profile dispatched in full. */
    var prevAllocProfile: Option<Profile>
    /** most_recent_trade_id; None until boot_trades sets it. */
    var mostRecentTradeId: Option<int>
    /** Every request sent to the exchange so far, oldest first. */
    var calls: seq<ApiCall>

    constructor (config: BotConfig, marketConfigs: Entries<MarketConfig>)
      ensures this.config == config && this.marketConfigs == marketConfigs
      ensures prevAllocProfile == None && mostRecentTradeId == None && calls == []
    {
      this.config := config;
      this.marketConfigs := marketConfigs;
      prevAllocProfile := None;
      mostRecentTradeId := None;
      calls := [];
    }

    /** check_for_rebalance, as the loops of the source run it. */
    method CheckForRebalance(profile: Profile, balances: map<string, real>, tickers: Tickers, btcPrice: real)
      returns (r: Result<bool>)
      ensures r == RebalanceNeeded(prevAllocProfile, profile, config, balances, tickers, btcPrice)
    {
      if prevAllocProfile.None? {
        return Ok(true);
      }
      var prev := prevAllocProfile.value;
      var priceTol := config.priceTolerance;
      var amountTol := config.amountTolerance;
      var m := 0;
      while m < |profile|
        invariant m <= |profile|
        invariant ProfileTripsFrom(profile, prev, 0, priceTol, amountTol) == ProfileTripsFrom(profile, prev, m, priceTol, amountTol)
      {
        var market := profile[m].0;
        var prevProfile := Lookup(prev, market);
        if prevProfile.None? {
          return Err(MissingKey(market));
        }
        var b := CheckLadder(market, profile[m].1.buyLimit, prevProfile.value.buyLimit, priceTol, amountTol);
        if b.Err? || b.value {
          return b;
        }
        var s := CheckLadder(market, profile[m].1.sellLimit, prevProfile.value.sellLimit, priceTol, amountTol);
        if s.Err? || s.value {
          return s;
        }
        m := m + 1;
      }
      var drift := CheckReserves(config.currencyReserves, balances, tickers, btcPrice, config.reserveThreshUsd);
      return Ok(drift);
    }

    /** place_order: nothing for a quantity <= 0; otherwise the request is sent
        with the quantity as the buy value or the sell amount, and a rejection
        escapes unless its code is 400. */
    method PlaceOrder(orderType: Side, market: string, price: real, quantity: real, reply: Option<int>)
      returns (r: Result<()>)
      modifies this`calls
      ensures quantity <= 0.0 ==> calls == old(calls)
      ensures quantity > 0.0 ==> calls == old(calls) + [OrderCall(orderType, market, price, quantity)]
      ensures r.Err? <==> quantity > 0.0 && IsFatal(reply)
      ensures r.Err? ==> r.error == ApiError(reply.value)
    {
      if quantity <= 0.0 {
        return Ok(());
      }
      var value: Option<real>;
      var amount: Option<real>;
      match orderType {
        case BuyLimit =>
          value := Some(quantity);
          amount := None;
        case SellLimit =>
          value := None;
          amount := Some(quantity);
      }
      calls := calls + [Order(orderType, price, market, value, amount)];
      if reply.Some? && reply.value != 400 {
        return Err(ApiError(reply.value));
      }
      return Ok(());
    }

    /** The inner loops of rebalance_orders: place_order for each order of one
        ladder, the k-th order request of the dispatch getting reply(k). On a
        fatal reply, `stop` is the order it answered and `sent` the number of
        the request. */
    method PlaceLadder(market: string, side: Side, orders: seq<PricedOrder>, reply: nat -> Option<int>, k: nat)
      returns (sent: nat, r: Result<()>, ghost stop: nat)
      modifies this`calls
      ensures forall j :: k <= j < sent ==> !IsFatal(reply(j))
      ensures r.Ok? ==>
                && calls == old(calls) + LadderCalls(market, side, orders, |orders|)
                && sent == k + |LadderCalls(market, side, orders, |orders|)|
      ensures r.Err? ==>
                && stop < |orders|
                && calls == old(calls) + LadderCalls(market, side, orders, stop + 1)
                && sent + 1 == k + |LadderCalls(market, side, orders, stop + 1)|
                && IsFatal(reply(sent))
                && r == Err(ApiError(reply(sent).value))
    {
      sent := k;
      stop := 0;
      for i := 0 to |orders|
        invariant calls == old(calls) + LadderCalls(market, side, orders, i)
        invariant sent == k + |LadderCalls(market, side, orders, i)|
        invariant forall j :: k <= j < sent ==> !IsFatal(reply(j))
      {
        var res := PlaceOrder(side, market, orders[i].price, orders[i].amount, reply(sent));
        if res.Err? {
          return sent, res, i;
        }
        if orders[i].amount > 0.0 {
          sent := sent + 1;
        }
      }
      return sent, Ok(()), stop;
    }

    /** One market of the dispatch: its buy ladder, then its sell ladder. On a
        fatal reply, `tail` is what this market sent. */
    method PlaceMarket(profile: Profile, m: nat, reply: nat -> Option<int>, k: nat)
      returns (sent: nat, r: Result<()>, ghost tail: seq<ApiCall>)
      modifies this`calls
      requires m < |profile| && k == |PlacementsUpTo(profile, m)|
      requires forall j :: 0 <= j < k ==> !IsFatal(reply(j))
      ensures r.Ok? ==>
                && calls == old(calls) + MarketCalls(profile[m].0, profile[m].1)
                && sent == |PlacementsUpTo(profile, m + 1)|
                && forall j :: 0 <= j < sent ==> !IsFatal(reply(j))
      ensures r.Err? ==>
                calls == old(calls) + tail && SendPlan(profile, reply) == (r, PlacementsUpTo(profile, m) + tail)
    {
      var market := profile[m].0;
      var book := profile[m].1;
      ghost var stop;
      sent, r, stop := PlaceLadder(market, BuyLimit, book.buyLimit, reply, k);
      if r.Err? {
        tail := LadderCalls(market, BuyLimit, book.buyLimit, stop + 1);
        BuyStopEndsSendPlan(profile, reply, m, stop, sent);
        return;
      }
      ghost var buys := LadderCalls(market, BuyLimit, book.buyLimit, |book.buyLimit|);
      sent, r, stop := PlaceLadder(market, SellLimit, book.sellLimit, reply, sent);
      if r.Err? {
        tail := buys + LadderCalls(market, SellLimit, book.sellLimit, stop + 1);
        SellStopEndsSendPlan(profile, reply, m, stop, sent);
        assert PlacementsUpTo(profile, m) + tail ==
               PlacementsUpTo(profile, m) + buys + LadderCalls(market, SellLimit, book.sellLimit, stop + 1);
        return;
      }
      tail := [];
      NextMarketCalls(profile, m);
    }

    /** The loops of rebalance_orders over the profile: every buy ladder, then
        every sell ladder, market by market. */
    method PlaceProfile(profile: Profile, reply: nat -> Option<int>) returns (r: Result<()>)
      modifies this`calls
      ensures r == SendPlan(profile, reply).0 && calls == old(calls) + SendPlan(profile, reply).1
    {
      ghost var base := calls;
      var k: nat := 0;
      var m := 0;
      while m < |profile|
        invariant m <= |profile|
        invariant calls == base + PlacementsUpTo(profile, m)
        invariant k == |PlacementsUpTo(profile, m)|
        invariant forall j :: 0 <= j < k ==> !IsFatal(reply(j))
      {
        ghost var tail;
        k, r, tail := PlaceMarket(profile, m, reply, k);
        if r.Err? {
          assert calls == base + (PlacementsUpTo(profile, m) + tail);
          return;
        }
        assert calls == base + (PlacementsUpTo(profile, m) + MarketCalls(profile[m].0, profile[m].1));
        m := m + 1;
      }
      FullPlanIsSendPlan(profile, reply, k);
      return Ok(());
    }

    /** rebalance_orders; reply(k) answers the k-th order request it sends. */
    method RebalanceOrders(profile: Profile, force: bool, balances: map<string, real>, tickers: Tickers,
                           btcPrice: real, reply: nat -> Option<int>) returns (r: Result<()>)
      modifies this`calls, this`prevAllocProfile
      ensures var o := Rebalance(config, old(prevAllocProfile), profile, force, balances, tickers, btcPrice, reply);
              r == o.result && calls == old(calls) + o.sent && prevAllocProfile == o.prev
    {
      var need := CheckForRebalance(profile, balances, tickers, btcPrice);
      if need.Err? {
        return Err(need.error);
      }
      if !need.value && !force {
        return Ok(());
      }
      if config.dryRunMode {
        return Ok(());
      }
      calls := calls + [CancelAllOrders];
      r := PlaceProfile(profile, reply);
      if r.Ok? {
        prevAllocProfile := Some(profile);
      }
    }

    /** generate_orders: allocate, build the profile, hand it to rebalance_orders. */
    method GenerateOrders(force: bool, balancesMerged: map<string, real>, markets: map<string, MarketInfo>,
                          tickers: Tickers, balances: map<string, real>, btcPrice: real,
                          reply: nat -> Option<int>) returns (r: Result<()>)
      modifies this`calls, this`prevAllocProfile
      ensures var o := GenerateOutcome(config, marketConfigs, old(prevAllocProfile), force, balancesMerged, markets,
                                       tickers, balances, btcPrice, reply);
              r == o.result && calls == old(calls) + o.sent && prevAllocProfile == o.prev
    {
      var allocs := ComputeAllocations(marketConfigs, balancesMerged, config.currencyReserves, markets);
      if allocs.Err? {
        return Err(allocs.error);
      }
      var profile := BuildProfile(allocs.value, tickers, marketConfigs);
      if profile.Err? {
        return Err(profile.error);
      }
      r := RebalanceOrders(profile.value, force, balances, tickers, btcPrice, reply);
    }

    /** boot_trades, given the ids of the account's trade history. */
    method BootTrades(tradeIds: seq<int>) returns (r: Result<()>)
      modifies this`mostRecentTradeId
      ensures var w := BootWatermark(tradeIds);
              (w.Err? ==> r == Err(w.error) && mostRecentTradeId == old(mostRecentTradeId)) &&
              (w.Ok? ==> r == Ok(()) && mostRecentTradeId == Some(w.value))
    {
      if |tradeIds| == 0 {
        return Err(NoTradeIds);
      }
      mostRecentTradeId := Some(MaxId(tradeIds));
      return Ok(());
    }

    /** check_for_trades, given the ids of the trades the exchange reports as
        newer than the watermark. */
    method CheckForTrades(newTradeIds: seq<int>) returns (r: Result<()>)
      modifies this`mostRecentTradeId
      ensures var w := NextWatermark(old(mostRecentTradeId), newTradeIds);
              (w.Err? ==> r == Err(w.error) && mostRecentTradeId == old(mostRecentTradeId)) &&
              (w.Ok? ==> r == Ok(()) && mostRecentTradeId == Some(w.value))
    {
      if mostRecentTradeId.None? {
        return Err(NotBooted);
      }
      if |newTradeIds| == 0 {
        return Ok(());
      }
      mostRecentTradeId := Some(MaxId(newTradeIds));
      return Ok(());
    }

    /** One pass of the monitor loop: generate_orders, then check_for_trades.
        Any failure is swallowed after one cancel_market_orders request, which
        is sent in dry-run mode too. Returns whether the pass completed. */
    method MonitorTick(balancesMerged: map<string, real>, markets: map<string, MarketInfo>, tickers: Tickers,
                       balances: map<string, real>, btcPrice: real, reply: nat -> Option<int>,
                       newTradeIds: seq<int>) returns (completed: bool)
      modifies this`calls, this`prevAllocProfile, this`mostRecentTradeId
      ensures var o := GenerateOutcome(config, marketConfigs, old(prevAllocProfile), false, balancesMerged, markets,
                                       tickers, balances, btcPrice, reply);
              var w := NextWatermark(old(mostRecentTradeId), newTradeIds);
              && prevAllocProfile == o.prev
              && completed == (o.result.Ok? && w.Ok?)
              && (completed ==> calls == old(calls) + o.sent && mostRecentTradeId == Some(w.value))
              && (!completed ==> calls == old(calls) + o.sent + [CancelMarketOrders])
              && (!completed ==> mostRecentTradeId == old(mostRecentTradeId))
    {
      var g := GenerateOrders(false, balancesMerged, markets, tickers, balances, btcPrice, reply);
      if g.Ok? {
        var t := CheckForTrades(newTradeIds);
        if t.Ok? {
          return true;
        }
      }
      calls := calls + [CancelMarketOrders];
      return false;
    }
  }

  /** OrderbookManager.__init__: resolve the market configurations, then start
      with no remembered profile, no watermark and nothing sent. */
  method NewManager(config: BotConfig, markets: Entries<Settings>) returns (r: Result<OrderbookManager>)
    ensures r.Err? <==> ResolveMarkets(markets).Err?
    ensures r.Err? ==> r.error == ResolveMarkets(markets).error
    ensures r.Ok? ==> fresh(r.value) && r.value.config == config &&
                      r.value.marketConfigs == ResolveMarkets(markets).value &&
                      r.value.prevAllocProfile == None && r.value.mostRecentTradeId == None && r.value.calls == []
  {
    var resolved := ResolveMarkets(markets);
    if resolved.Err? {
      return Err(resolved.error);
    }
    var obm := new OrderbookManager(config, resolved.value);
    return Ok(obm);
  }
}
