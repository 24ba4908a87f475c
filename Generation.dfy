/** generate_orders before the dispatch: the quote each allocated market is
    priced against, and the allocation profile built market by market. */
module Generation {
  import opened Common
  import opened Config
  import opened Allocation
  import opened Ladder
  import opened Conversion
  import opened Decision

  const Bittrex := "bittrex"
  const Ccxt := "ccxt"

  /** The bid/ask generate_orders prices a market against: the bittrex table
      first, then the ccxt table; None when neither quotes the market, which
      skips it. Indexing a table the snapshot lacks raises a KeyError. */
  function GenerationQuote(tickers: Tickers, market: string): (r: Result<Option<Quote>>)
    ensures r.Ok? <==> Bittrex in tickers && (market in tickers[Bittrex] || Ccxt in tickers)
    ensures Bittrex !in tickers ==> r == Err(MissingKey(Bittrex))
    ensures HasQuote(tickers, Bittrex, market) ==> r == Ok(Some(tickers[Bittrex][market]))
    ensures r.Ok? && !HasQuote(tickers, Bittrex, market) ==>
              r.value == (if market in tickers[Ccxt] then Some(tickers[Ccxt][market]) else None)
  {
    if Bittrex !in tickers then Err(MissingKey(Bittrex))
    else if market in tickers[Bittrex] then Ok(Some(tickers[Bittrex][market]))
    else if Ccxt !in tickers then Err(MissingKey(Ccxt))
    else if market in tickers[Ccxt] then Ok(Some(tickers[Ccxt][market]))
    else Ok(None)
  }

  /** One ladder as allocate_orders and price_orders together build it. */
  function PricedLadder(ref: real, alloc: real, tiers: seq<Tier>, buy: bool): seq<PricedOrder>
  {
    seq(|tiers|, k requires 0 <= k < |tiers| =>
      PricedOrder(if buy then BuyPrice(ref, tiers[k].slip) else SellPrice(ref, tiers[k].slip),
                  TierAmount(alloc, tiers[k].ratio)))
  }

  /** price_orders(allocate_orders(market_amount, base_amount, market), bid, ask). */
  function MarketBook(market: string, e: Earmark, q: Quote, configs: Entries<MarketConfig>): Result<Book<PricedOrder>>
  {
    var mc := Lookup(configs, market);
    if mc.None? then Err(MissingKey(market))
    else
      var ladders := Ladders(mc.value);
      if ladders.Err? then Err(ladders.error)
      else
        var (buy, sell) := ladders.value;
        Ok(Book(PricedLadder(q.bid, e.baseAmount, buy, true), PricedLadder(q.ask, e.marketAmount, sell, false)))
  }

  /** The allocation profile built from the first n allocations. */
  function ProfileUpTo(allocs: Entries<Earmark>, n: nat, tickers: Tickers, configs: Entries<MarketConfig>): Result<Profile>
    requires n <= |allocs|
  {
    if n == 0 then Ok([])
    else
      var prev := ProfileUpTo(allocs, n - 1, tickers, configs);
      if prev.Err? then prev
      else
        var (market, e) := allocs[n - 1];
        var q := GenerationQuote(tickers, market);
        if q.Err? then Err(q.error)
        else if q.value.None? then prev
        else
          var b := MarketBook(market, e, q.value.value, configs);
          if b.Err? then Err(b.error)
          else Ok(prev.value + [(market, b.value)])
  }

  /** The profile generate_orders hands to rebalance_orders. */
  function GeneratedProfile(configs: Entries<MarketConfig>, balancesMerged: map<string, real>,
                            reserves: map<string, real>, markets: map<string, MarketInfo>,
                            tickers: Tickers): (r: Result<Profile>)
    ensures Allocations(configs, balancesMerged, reserves, markets).Err? ==>
              r == Err(Allocations(configs, balancesMerged, reserves, markets).error)
    ensures Allocations(configs, balancesMerged, reserves, markets).Ok? ==>
              var allocs := Allocations(configs, balancesMerged, reserves, markets).value;
              (r.Ok? <==> forall i :: 0 <= i < |allocs| ==> MarketBuilds(allocs, i, tickers, configs))
    ensures r.Ok? ==>
              var allocs := Allocations(configs, balancesMerged, reserves, markets).value;
              && Keys(r.value) == QuotedMarkets(allocs, |allocs|, tickers)
              && BooksFitAllocations(r.value, allocs, |allocs|, tickers, configs)
  {
    var allocs := Allocations(configs, balancesMerged, reserves, markets);
    if allocs.Err? then Err(allocs.error)
    else
      ProfileSucceedsIff(allocs.value, |allocs.value|, tickers, configs);
      var p := ProfileUpTo(allocs.value, |allocs.value|, tickers, configs);
      if p.Err? then p
      else
        GeneratedMarketsAreQuoted(allocs.value, |allocs.value|, tickers, configs);
        GeneratedBooksFitMarkets(allocs.value, |allocs.value|, tickers, configs);
        p
  }

  /** Allocation i can be turned into a book: its quote lookup succeeds, and
      when a table quotes the market, its ladders can be built. */
  predicate MarketBuilds(allocs: Entries<Earmark>, i: nat, tickers: Tickers, configs: Entries<MarketConfig>)
    requires i < |allocs|
  {
    var q := GenerationQuote(tickers, allocs[i].0);
    q.Ok? && (q.value.Some? ==> MarketBook(allocs[i].0, allocs[i].1, q.value.value, configs).Ok?)
  }

  /** Building the profile from the first n allocations succeeds exactly when
      every one of them builds. */
  lemma {:induction false} ProfileSucceedsIff(allocs: Entries<Earmark>, n: nat, tickers: Tickers,
                                              configs: Entries<MarketConfig>)
    requires n <= |allocs|
    ensures ProfileUpTo(allocs, n, tickers, configs).Ok? <==>
            forall i :: 0 <= i < n ==> MarketBuilds(allocs, i, tickers, configs)
  {
    if n > 0 {
      ProfileSucceedsIff(allocs, n - 1, tickers, configs);
      if ProfileUpTo(allocs, n - 1, tickers, configs).Err? {
        assert ProfileUpTo(allocs, n, tickers, configs).Err?;
      } else {
        assert ProfileUpTo(allocs, n, tickers, configs).Ok? <==> MarketBuilds(allocs, n - 1, tickers, configs);
      }
    }
  }

  /** The markets among the first n allocations that some table quotes. */
  function QuotedMarkets(allocs: Entries<Earmark>, n: nat, tickers: Tickers): seq<string>
    requires n <= |allocs|
  {
    if n == 0 then []
    else
      var q := GenerationQuote(tickers, allocs[n - 1].0);
      QuotedMarkets(allocs, n - 1, tickers) + (if q.Ok? && q.value.Some? then [allocs[n - 1].0] else [])
  }

  /** A priced book fits its market and earmark: the market is quoted and
      configured with ladders, one entry per configured tier, each priced off
      the quote with that tier's slippage and sized from the earmark with that
      tier's ratio (buys from the base amount, sells from the market amount). */
  predicate BookFitsMarket(market: string, book: Book<PricedOrder>, e: Earmark, tickers: Tickers,
                           configs: Entries<MarketConfig>)
  {
    var q := GenerationQuote(tickers, market);
    var mc := Lookup(configs, market);
    && q.Ok? && q.value.Some? && mc.Some? && Ladders(mc.value).Ok?
    && var (buy, sell) := Ladders(mc.value).value;
       && |book.buyLimit| == |buy| && |book.sellLimit| == |sell|
       && (forall k :: 0 <= k < |buy| ==>
             book.buyLimit[k] == PricedOrder(BuyPrice(q.value.value.bid, buy[k].slip), TierAmount(e.baseAmount, buy[k].ratio)))
       && (forall k :: 0 <= k < |sell| ==>
             book.sellLimit[k] == PricedOrder(SellPrice(q.value.value.ask, sell[k].slip), TierAmount(e.marketAmount, sell[k].ratio)))
  }

  /** Every book of the profile fits its market and the earmark allocated to
      that market among the first n allocations. */
  predicate BooksFitAllocations(p: Profile, allocs: Entries<Earmark>, n: nat, tickers: Tickers,
                                configs: Entries<MarketConfig>)
    requires n <= |allocs|
  {
    forall j :: 0 <= j < |p| ==>
      exists i :: 0 <= i < n && allocs[i].0 == p[j].0 && BookFitsMarket(p[j].0, p[j].1, allocs[i].1, tickers, configs)
  }

  /** A generated profile lists exactly the quoted markets, in allocation
      order: unquoted markets are skipped, never priced. */
  lemma {:induction false} GeneratedMarketsAreQuoted(allocs: Entries<Earmark>, n: nat, tickers: Tickers,
                                                     configs: Entries<MarketConfig>)
    requires n <= |allocs|
    requires ProfileUpTo(allocs, n, tickers, configs).Ok?
    ensures Keys(ProfileUpTo(allocs, n, tickers, configs).value) == QuotedMarkets(allocs, n, tickers)
  {
    if n > 0 {
      GeneratedMarketsAreQuoted(allocs, n - 1, tickers, configs);
    }
  }

  /** Every book of a generated profile fits its market and the earmark
      allocated to that market. */
  lemma {:induction false} GeneratedBooksFitMarkets(allocs: Entries<Earmark>, n: nat, tickers: Tickers,
                                                    configs: Entries<MarketConfig>)
    requires n <= |allocs|
    requires ProfileUpTo(allocs, n, tickers, configs).Ok?
    ensures BooksFitAllocations(ProfileUpTo(allocs, n, tickers, configs).value, allocs, n, tickers, configs)
  {
    if n > 0 {
      GeneratedBooksFitMarkets(allocs, n - 1, tickers, configs);
      var prev := ProfileUpTo(allocs, n - 1, tickers, configs).value;
      var p := ProfileUpTo(allocs, n, tickers, configs).value;
      forall j | 0 <= j < |p|
        ensures exists i :: 0 <= i < n && allocs[i].0 == p[j].0 && BookFitsMarket(p[j].0, p[j].1, allocs[i].1, tickers, configs)
      {
        if j < |prev| {
          assert p[j] == prev[j];
          var i :| 0 <= i < n - 1 && allocs[i].0 == prev[j].0 && BookFitsMarket(prev[j].0, prev[j].1, allocs[i].1, tickers, configs);
        } else {
          assert p[j].0 == allocs[n - 1].0;
          assert BookFitsMarket(p[j].0, p[j].1, allocs[n - 1].1, tickers, configs);
        }
      }
    }
  }

  lemma {:induction false} ProfileErrorSticks(allocs: Entries<Earmark>, n: nat, m: nat, tickers: Tickers,
                                              configs: Entries<MarketConfig>)
    requires n <= m <= |allocs|
    requires ProfileUpTo(allocs, n, tickers, configs).Err?
    ensures ProfileUpTo(allocs, m, tickers, configs) == ProfileUpTo(allocs, n, tickers, configs)
    decreases m - n
  {
    if n < m {
      ProfileErrorSticks(allocs, n, m - 1, tickers, configs);
    }
  }

  /** The loop of generate_orders that prices each allocated market. */
  method BuildProfile(allocs: Entries<Earmark>, tickers: Tickers, configs: Entries<MarketConfig>)
    returns (r: Result<Profile>)
    ensures r == ProfileUpTo(allocs, |allocs|, tickers, configs)
  {
    var profile: Profile := [];
    for i := 0 to |allocs|
      invariant ProfileUpTo(allocs, i, tickers, configs) == Ok(profile)
    {
      var market := allocs[i].0;
      var e := allocs[i].1;
      var q := GenerationQuote(tickers, market);
      if q.Err? {
        ProfileErrorSticks(allocs, i + 1, |allocs|, tickers, configs);
        return Err(q.error);
      }
      if q.value.Some? {
        var orders := AllocateOrders(e.marketAmount, e.baseAmount, market, configs);
        if orders.Err? {
          ProfileErrorSticks(allocs, i + 1, |allocs|, tickers, configs);
          return Err(orders.error);
        }
        var priced := PriceOrders(orders.value, q.value.value.bid, q.value.value.ask);
        var (buy, sell) := Ladders(Lookup(configs, market).value).value;
        assert priced.buyLimit == PricedLadder(q.value.value.bid, e.baseAmount, buy, true);
        assert priced.sellLimit == PricedLadder(q.value.value.ask, e.marketAmount, sell, false);
        profile := profile + [(market, priced)];
      }
    }
    return Ok(profile);
  }
}
