/** The exchange calls rebalance_orders and place_order make, as values: one
    cancel-all, then one order call per priced order of positive quantity, in
    profile order (per market: every buy, then every sell). */
module Dispatch {
  import opened Common
  import opened Config
  import opened Ladder
  import opened Conversion
  import opened Decision

  datatype Side = BuyLimit | SellLimit

  /** The exchange-changing requests the manager sends. A buy_limit order names
      the base-currency value to spend, a sell_limit order the market-currency
      amount to sell. */
  datatype ApiCall =
    | CancelAllOrders
    | CancelMarketOrders
    | Order(orderType: Side, price: real, market: string, value: Option<real>, amount: Option<real>)

  /** The request place_order sends for a positive quantity. */
  function OrderCall(side: Side, market: string, price: real, quantity: real): (c: ApiCall)
    ensures c.Order? && c.orderType == side && c.price == price && c.market == market
    ensures side == BuyLimit ==> c.value == Some(quantity) && c.amount == None
    ensures side == SellLimit ==> c.value == None && c.amount == Some(quantity)
  {
    match side
    case BuyLimit => Order(BuyLimit, price, market, Some(quantity), None)
    case SellLimit => Order(SellLimit, price, market, None, Some(quantity))
  }

  /** The quantity an order request carries. */
  function Quantity(c: ApiCall): real
    requires c.Order?
  {
    match c.orderType
    case BuyLimit => if c.value.Some? then c.value.value else 0.0
    case SellLimit => if c.amount.Some? then c.amount.value else 0.0
  }

  /** The requests for the first n orders of one ladder: those of quantity <= 0
      make none. */
  function LadderCalls(market: string, side: Side, orders: seq<PricedOrder>, n: nat): seq<ApiCall>
    requires n <= |orders|
  {
    if n == 0 then []
    else LadderCalls(market, side, orders, n - 1) +
         (if orders[n - 1].amount > 0.0 then [OrderCall(side, market, orders[n - 1].price, orders[n - 1].amount)] else [])
  }

  function MarketCalls(market: string, book: Book<PricedOrder>): seq<ApiCall>
  {
    LadderCalls(market, BuyLimit, book.buyLimit, |book.buyLimit|) +
    LadderCalls(market, SellLimit, book.sellLimit, |book.sellLimit|)
  }

  /** The order requests for the first m markets of a profile. */
  function PlacementsUpTo(profile: Profile, m: nat): seq<ApiCall>
    requires m <= |profile|
  {
    if m == 0 then []
    else PlacementsUpTo(profile, m - 1) + MarketCalls(profile[m - 1].0, profile[m - 1].1)
  }

  /** Every order request a dispatch of the profile sends, in order. */
  function Placements(profile: Profile): seq<ApiCall>
  {
    PlacementsUpTo(profile, |profile|)
  }

  /** An exchange reply that place_order re-raises: an APIException whose code
      is not 400. */
  predicate IsFatal(reply: Option<int>)
  {
    reply.Some? && reply.value != 400
  }

  /** The position of the first fatal reply among the calls k .. n-1, or n. */
  function FirstFatalFrom(reply: nat -> Option<int>, k: nat, n: nat): (f: nat)
    requires k <= n
    ensures k <= f <= n
    ensures forall j :: k <= j < f ==> !IsFatal(reply(j))
    ensures f < n ==> IsFatal(reply(f))
    decreases n - k
  {
    if k == n then n
    else if IsFatal(reply(k)) then k
    else FirstFatalFrom(reply, k + 1, n)
  }

  /** Every request in a ladder's calls is an order of positive quantity for
      that market and side. */
  lemma {:induction false} LadderCallsArePositiveOrders(market: string, side: Side, orders: seq<PricedOrder>, n: nat)
    requires n <= |orders|
    ensures forall c :: c in LadderCalls(market, side, orders, n) ==>
              c.Order? && c.market == market && c.orderType == side && Quantity(c) > 0.0
  {
    if n > 0 {
      LadderCallsArePositiveOrders(market, side, orders, n - 1);
    }
  }

  /** A ladder's calls are its positive-quantity orders, each sent with its own
      price and quantity, and nothing else. */
  lemma {:induction false} LadderCallsAreItsPositiveOrders(market: string, side: Side, orders: seq<PricedOrder>, n: nat)
    requires n <= |orders|
    ensures forall k :: 0 <= k < n && orders[k].amount > 0.0 ==>
              OrderCall(side, market, orders[k].price, orders[k].amount) in LadderCalls(market, side, orders, n)
    ensures forall c :: c in LadderCalls(market, side, orders, n) ==>
              exists k :: 0 <= k < n && orders[k].amount > 0.0 && c == OrderCall(side, market, orders[k].price, orders[k].amount)
  {
    if n > 0 {
      LadderCallsAreItsPositiveOrders(market, side, orders, n - 1);
      var prev := LadderCalls(market, side, orders, n - 1);
      var now := LadderCalls(market, side, orders, n);
      forall c | c in now
        ensures exists k :: 0 <= k < n && orders[k].amount > 0.0 && c == OrderCall(side, market, orders[k].price, orders[k].amount)
      {
        if c !in prev {
          assert orders[n - 1].amount > 0.0 && c == OrderCall(side, market, orders[n - 1].price, orders[n - 1].amount);
        }
      }
    }
  }

  /** A ladder's calls are exactly its positive-quantity orders: their number is
      the number of such orders. */
  lemma {:induction false} LadderCallsCount(market: string, side: Side, orders: seq<PricedOrder>, n: nat)
    requires n <= |orders|
    ensures |LadderCalls(market, side, orders, n)| == |set k | 0 <= k < n && orders[k].amount > 0.0|
  {
    if n > 0 {
      LadderCallsCount(market, side, orders, n - 1);
      var prev := set k | 0 <= k < n - 1 && orders[k].amount > 0.0;
      var now := set k | 0 <= k < n && orders[k].amount > 0.0;
      if orders[n - 1].amount > 0.0 {
        assert now == prev + {n - 1};
      } else {
        assert now == prev;
      }
    }
  }

  /** A dispatch never sends a cancel and never an order of quantity <= 0. */
  lemma {:induction false} PlacementsArePositiveOrders(profile: Profile, m: nat)
    requires m <= |profile|
    ensures forall c :: c in PlacementsUpTo(profile, m) ==> c.Order? && Quantity(c) > 0.0
  {
    if m > 0 {
      PlacementsArePositiveOrders(profile, m - 1);
      var (market, book) := profile[m - 1];
      LadderCallsArePositiveOrders(market, BuyLimit, book.buyLimit, |book.buyLimit|);
      LadderCallsArePositiveOrders(market, SellLimit, book.sellLimit, |book.sellLimit|);
    }
  }

  /** The calls for the first n orders of a ladder begin the calls for its
      first n' orders. */
  lemma {:induction false} LadderCallsExtend(market: string, side: Side, orders: seq<PricedOrder>, n: nat, n': nat)
    returns (rest: seq<ApiCall>)
    requires n <= n' <= |orders|
    ensures LadderCalls(market, side, orders, n') == LadderCalls(market, side, orders, n) + rest
    decreases n' - n
  {
    if n == n' {
      rest := [];
    } else {
      var r := LadderCallsExtend(market, side, orders, n, n' - 1);
      rest := r + (if orders[n' - 1].amount > 0.0 then [OrderCall(side, market, orders[n' - 1].price, orders[n' - 1].amount)] else []);
    }
  }

  /** The order requests for the first m markets begin those for the first m'. */
  lemma {:induction false} PlacementsExtend(profile: Profile, m: nat, m': nat) returns (rest: seq<ApiCall>)
    requires m <= m' <= |profile|
    ensures PlacementsUpTo(profile, m') == PlacementsUpTo(profile, m) + rest
    decreases m' - m
  {
    if m == m' {
      rest := [];
    } else {
      var r := PlacementsExtend(profile, m, m' - 1);
      rest := r + MarketCalls(profile[m' - 1].0, profile[m' - 1].1);
    }
  }

  /** The calls sent while dispatching the buy ladder of market m, after its
      first i orders, begin the whole dispatch. */
  lemma BuyProgressBegins(profile: Profile, m: nat, i: nat) returns (rest: seq<ApiCall>)
    requires m < |profile| && i <= |profile[m].1.buyLimit|
    ensures Placements(profile) ==
            PlacementsUpTo(profile, m) + LadderCalls(profile[m].0, BuyLimit, profile[m].1.buyLimit, i) + rest
  {
    var market := profile[m].0;
    var book := profile[m].1;
    var before := PlacementsUpTo(profile, m);
    var part := LadderCalls(market, BuyLimit, book.buyLimit, i);
    var sells := LadderCalls(market, SellLimit, book.sellLimit, |book.sellLimit|);
    var r1 := LadderCallsExtend(market, BuyLimit, book.buyLimit, i, |book.buyLimit|);
    assert PlacementsUpTo(profile, m + 1) == before + (part + r1 + sells);
    var r2 := PlacementsExtend(profile, m + 1, |profile|);
    rest := r1 + sells + r2;
  }

  /** As BuyProgressBegins, for the sell ladder, which follows the whole buy ladder. */
  lemma SellProgressBegins(profile: Profile, m: nat, j: nat) returns (rest: seq<ApiCall>)
    requires m < |profile| && j <= |profile[m].1.sellLimit|
    ensures Placements(profile) ==
            PlacementsUpTo(profile, m) +
            LadderCalls(profile[m].0, BuyLimit, profile[m].1.buyLimit, |profile[m].1.buyLimit|) +
            LadderCalls(profile[m].0, SellLimit, profile[m].1.sellLimit, j) + rest
  {
    var market := profile[m].0;
    var book := profile[m].1;
    var before := PlacementsUpTo(profile, m);
    var buys := LadderCalls(market, BuyLimit, book.buyLimit, |book.buyLimit|);
    var part := LadderCalls(market, SellLimit, book.sellLimit, j);
    var r1 := LadderCallsExtend(market, SellLimit, book.sellLimit, j, |book.sellLimit|);
    NextMarketCalls(profile, m);
    var r2 := PlacementsExtend(profile, m + 1, |profile|);
    rest := r1 + r2;
    assert Placements(profile) == before + buys + (part + r1) + r2;
  }

  /** The order loops of rebalance_orders: the plan is sent in order until the
      first fatal reply, whose request is the last one sent and whose error
      propagates. */
  function SendPlan(profile: Profile, reply: nat -> Option<int>): (r: (Result<()>, seq<ApiCall>))
    ensures |r.1| <= |Placements(profile)| && r.1 == Placements(profile)[..|r.1|]
    ensures r.0.Ok? <==> forall k :: 0 <= k < |Placements(profile)| ==> !IsFatal(reply(k))
    ensures r.0.Ok? ==> r.1 == Placements(profile)
    ensures r.0.Err? ==>
              && |r.1| > 0
              && (forall j :: 0 <= j < |r.1| - 1 ==> !IsFatal(reply(j)))
              && IsFatal(reply(|r.1| - 1))
              && r.0 == Err(ApiError(reply(|r.1| - 1).value))
  {
    var plan := Placements(profile);
    var f := FirstFatalFrom(reply, 0, |plan|);
    if f == |plan| then (Ok(()), plan)
    else (Err(ApiError(reply(f).value)), plan[..f + 1])
  }

  /** What one rebalance_orders call does: its result, the requests it sends,
      and the profile remembered afterwards. */
  datatype Outcome = Outcome(result: Result<()>, sent: seq<ApiCall>, prev: Option<Profile>)

  /** rebalance_orders: the check runs first (its failure propagates, even when
      forced); nothing happens when nothing tripped and the call is not forced,
      or in dry-run mode; otherwise every order is cancelled and the plan is
      sent in order until the first reply other than success or code 400, which
      propagates and leaves the remembered profile as it was. reply(k) is the
      exchange's answer to the k-th order request: None for success, Some(code)
      for an APIException. */
  function Rebalance(cfg: BotConfig, prev: Option<Profile>, profile: Profile, force: bool,
                     balances: map<string, real>, tickers: Tickers, btcPrice: real,
                     reply: nat -> Option<int>): (o: Outcome)
    ensures o.prev == prev || o.prev == Some(profile)
    ensures o.sent != [] ==> o.sent[0] == CancelAllOrders
    ensures cfg.dryRunMode ==> o.sent == [] && o.prev == prev
    ensures RebalanceNeeded(prev, profile, cfg, balances, tickers, btcPrice).Ok? &&
            (cfg.dryRunMode || (!RebalanceNeeded(prev, profile, cfg, balances, tickers, btcPrice).value && !force)) ==>
              o == Outcome(Ok(()), [], prev)
    ensures RebalanceNeeded(prev, profile, cfg, balances, tickers, btcPrice).Err? ==>
              o.result == Err(RebalanceNeeded(prev, profile, cfg, balances, tickers, btcPrice).error) && o.sent == []
  {
    var need := RebalanceNeeded(prev, profile, cfg, balances, tickers, btcPrice);
    if need.Err? then Outcome(Err(need.error), [], prev)
    else if !need.value && !force then Outcome(Ok(()), [], prev)
    else if cfg.dryRunMode then Outcome(Ok(()), [], prev)
    else
      var (res, sent) := SendPlan(profile, reply);
      Outcome(res, [CancelAllOrders] + sent, if res.Ok? then Some(profile) else prev)
  }

  /** A dispatch happens: the check succeeded and tripped or was overridden,
      outside dry-run mode. */
  predicate Dispatches(cfg: BotConfig, prev: Option<Profile>, profile: Profile, force: bool,
                       balances: map<string, real>, tickers: Tickers, btcPrice: real)
  {
    var need := RebalanceNeeded(prev, profile, cfg, balances, tickers, btcPrice);
    need.Ok? && (need.value || force) && !cfg.dryRunMode
  }

  /** Dry-run mode sends nothing and remembers nothing; on a cold start it
      reports success. */
  lemma DryRunSendsNothing(cfg: BotConfig, prev: Option<Profile>, profile: Profile, force: bool,
                           balances: map<string, real>, tickers: Tickers, btcPrice: real,
                           reply: nat -> Option<int>)
    requires cfg.dryRunMode
    ensures Rebalance(cfg, prev, profile, force, balances, tickers, btcPrice, reply).sent == []
    ensures Rebalance(cfg, prev, profile, force, balances, tickers, btcPrice, reply).prev == prev
    ensures prev.None? ==> Rebalance(cfg, prev, profile, force, balances, tickers, btcPrice, reply).result == Ok(())
  {
  }

  /** Whatever is sent is one cancel-all followed by orders of positive
      quantity taken from the front of the plan, and only when a dispatch
      happens. */
  lemma SentIsCancelThenPlanPrefix(cfg: BotConfig, prev: Option<Profile>, profile: Profile, force: bool,
                                   balances: map<string, real>, tickers: Tickers, btcPrice: real,
                                   reply: nat -> Option<int>)
    ensures var o := Rebalance(cfg, prev, profile, force, balances, tickers, btcPrice, reply);
            (o.sent != [] <==> Dispatches(cfg, prev, profile, force, balances, tickers, btcPrice)) &&
            (o.sent != [] ==>
               && o.sent[0] == CancelAllOrders
               && |o.sent| - 1 <= |Placements(profile)|
               && o.sent[1..] == Placements(profile)[..|o.sent| - 1]
               && forall k :: 1 <= k < |o.sent| ==> o.sent[k].Order? && Quantity(o.sent[k]) > 0.0)
  {
    var o := Rebalance(cfg, prev, profile, force, balances, tickers, btcPrice, reply);
    if o.sent != [] {
      var plan := Placements(profile);
      PlacementsArePositiveOrders(profile, |profile|);
      var f := FirstFatalFrom(reply, 0, |plan|);
      var n := if f == |plan| then |plan| else f + 1;
      assert o.sent == [CancelAllOrders] + plan[..n];
      forall k | 1 <= k < |o.sent|
        ensures o.sent[k].Order? && Quantity(o.sent[k]) > 0.0
      {
        assert o.sent[k] == plan[k - 1];
        assert plan[k - 1] in plan;
      }
    }
  }

  /** A dispatch completes, remembering the new profile, exactly when no order
      request gets a reply other than success or code 400; a code-400 reply
      never stops it. */
  lemma DispatchCompletesIffNoFatalReply(cfg: BotConfig, prev: Option<Profile>, profile: Profile, force: bool,
                                         balances: map<string, real>, tickers: Tickers, btcPrice: real,
                                         reply: nat -> Option<int>)
    requires Dispatches(cfg, prev, profile, force, balances, tickers, btcPrice)
    ensures var o := Rebalance(cfg, prev, profile, force, balances, tickers, btcPrice, reply);
            (o.result.Ok? <==> forall k :: 0 <= k < |Placements(profile)| ==> !IsFatal(reply(k))) &&
            (o.result.Ok? ==> o.sent == [CancelAllOrders] + Placements(profile) && o.prev == Some(profile)) &&
            (o.result.Err? ==>
               && o.prev == prev
               && exists k :: 0 <= k < |Placements(profile)| && IsFatal(reply(k)) && |o.sent| == k + 2 &&
                              (forall j :: 0 <= j < k ==> !IsFatal(reply(j))) &&
                              o.result == Err(ApiError(reply(k).value)))
  {
  }

  /** The remembered profile changes only after a complete dispatch. */
  lemma ProfileRecordedOnlyAfterFullDispatch(cfg: BotConfig, prev: Option<Profile>, profile: Profile, force: bool,
                                             balances: map<string, real>, tickers: Tickers, btcPrice: real,
                                             reply: nat -> Option<int>)
    ensures var o := Rebalance(cfg, prev, profile, force, balances, tickers, btcPrice, reply);
            o.prev != prev ==>
              o.result.Ok? && o.prev == Some(profile) && o.sent == [CancelAllOrders] + Placements(profile)
  {
  }

  /** Re-generating the profile that was last dispatched (distinct market names,
      positive prices, non-negative tolerances) sends nothing unless a reserve
      currency drifted or the call is forced. */
  lemma RepeatedProfileIsSkipped(cfg: BotConfig, profile: Profile, balances: map<string, real>,
                                 tickers: Tickers, btcPrice: real, reply: nat -> Option<int>)
    requires cfg.priceTolerance >= 0.0 && cfg.amountTolerance >= 0.0
    requires forall j :: 0 <= j < |profile| ==> Lookup(profile, profile[j].0) == Some(profile[j].1)
    requires forall j, k :: 0 <= j < |profile| && 0 <= k < |profile[j].1.buyLimit| ==>
               profile[j].1.buyLimit[k].price > 0.0
    requires forall j, k :: 0 <= j < |profile| && 0 <= k < |profile[j].1.sellLimit| ==>
               profile[j].1.sellLimit[k].price > 0.0
    requires !ReserveDrift(cfg.currencyReserves, balances, tickers, btcPrice, cfg.reserveThreshUsd)
    ensures Rebalance(cfg, Some(profile), profile, false, balances, tickers, btcPrice, reply)
            == Outcome(Ok(()), [], Some(profile))
  {
    SameProfileNeverTrips(profile, 0, cfg.priceTolerance, cfg.amountTolerance);
  }

  /** Reading the first fatal reply off a run of accepted ones. */
  lemma StoppedAt(reply: nat -> Option<int>, k: nat, n: nat)
    requires k <= n
    requires forall j :: 0 <= j < k ==> !IsFatal(reply(j))
    requires k < n ==> IsFatal(reply(k))
    ensures FirstFatalFrom(reply, 0, n) == k
  {
  }

  lemma FrontOf(plan: seq<ApiCall>, front: seq<ApiCall>, rest: seq<ApiCall>)
    requires plan == front + rest
    ensures |front| <= |plan| && plan[..|front|] == front
  {
  }

  /** Dispatching has reached the end of the profile with no fatal reply. */
  lemma FullPlanIsSendPlan(profile: Profile, reply: nat -> Option<int>, k: nat)
    requires k == |Placements(profile)|
    requires forall j :: 0 <= j < k ==> !IsFatal(reply(j))
    ensures SendPlan(profile, reply) == (Ok(()), Placements(profile))
  {
    StoppedAt(reply, k, k);
  }

  /** A fatal reply to the request of the stop-th buy order of market m ends
      the dispatch with everything sent up to and including that request. */
  lemma BuyStopEndsSendPlan(profile: Profile, reply: nat -> Option<int>, m: nat, stop: nat, fatal: nat)
    requires m < |profile| && stop < |profile[m].1.buyLimit|
    requires fatal + 1 == |PlacementsUpTo(profile, m)| + |LadderCalls(profile[m].0, BuyLimit, profile[m].1.buyLimit, stop + 1)|
    requires forall j :: 0 <= j < fatal ==> !IsFatal(reply(j))
    requires IsFatal(reply(fatal))
    ensures SendPlan(profile, reply) ==
            (Err(ApiError(reply(fatal).value)),
             PlacementsUpTo(profile, m) + LadderCalls(profile[m].0, BuyLimit, profile[m].1.buyLimit, stop + 1))
  {
    var front := PlacementsUpTo(profile, m) + LadderCalls(profile[m].0, BuyLimit, profile[m].1.buyLimit, stop + 1);
    var rest := BuyProgressBegins(profile, m, stop + 1);
    FrontOf(Placements(profile), front, rest);
    StoppedAt(reply, fatal, |Placements(profile)|);
  }

  /** As BuyStopEndsSendPlan, for the sell ladder of market m. */
  lemma SellStopEndsSendPlan(profile: Profile, reply: nat -> Option<int>, m: nat, stop: nat, fatal: nat)
    requires m < |profile| && stop < |profile[m].1.sellLimit|
    requires fatal + 1 == |PlacementsUpTo(profile, m)| +
                           |LadderCalls(profile[m].0, BuyLimit, profile[m].1.buyLimit, |profile[m].1.buyLimit|)| +
                           |LadderCalls(profile[m].0, SellLimit, profile[m].1.sellLimit, stop + 1)|
    requires forall j :: 0 <= j < fatal ==> !IsFatal(reply(j))
    requires IsFatal(reply(fatal))
    ensures SendPlan(profile, reply) ==
            (Err(ApiError(reply(fatal).value)),
             PlacementsUpTo(profile, m) +
             LadderCalls(profile[m].0, BuyLimit, profile[m].1.buyLimit, |profile[m].1.buyLimit|) +
             LadderCalls(profile[m].0, SellLimit, profile[m].1.sellLimit, stop + 1))
  {
    var front := PlacementsUpTo(profile, m) +
                 LadderCalls(profile[m].0, BuyLimit, profile[m].1.buyLimit, |profile[m].1.buyLimit|) +
                 LadderCalls(profile[m].0, SellLimit, profile[m].1.sellLimit, stop + 1);
    var rest := SellProgressBegins(profile, m, stop + 1);
    FrontOf(Placements(profile), front, rest);
    StoppedAt(reply, fatal, |Placements(profile)|);
  }

  lemma NextMarketCalls(profile: Profile, m: nat)
    requires m < |profile|
    ensures PlacementsUpTo(profile, m + 1) ==
            PlacementsUpTo(profile, m) +
            LadderCalls(profile[m].0, BuyLimit, profile[m].1.buyLimit, |profile[m].1.buyLimit|) +
            LadderCalls(profile[m].0, SellLimit, profile[m].1.sellLimit, |profile[m].1.sellLimit|)
  {
  }
}
