/** compute_allocations and its inner allocate_coin: how much of each market's
    two currencies is earmarked for orders, from the merged balances, the
    currency reserves and the markets' allocation fractions. */
module Allocation {
  import opened Common
  import opened Config

  /** The market metadata the exchange client holds per market (api.markets). */
  datatype MarketInfo = MarketInfo(marketCurrency: string, baseCurrency: string)

  /** The amounts earmarked for one market: (market_amount, base_amount). */
  datatype Earmark = Earmark(marketAmount: real, baseAmount: real)

  /** The balance snapshot after every reserve currency the account has never
      held has been added with balance 0. */
  function PadBalances(balances: map<string, real>, reserves: map<string, real>): (b: map<string, real>)
    ensures b.Keys == balances.Keys + reserves.Keys
    ensures forall c :: c in balances ==> b[c] == balances[c]
    ensures forall c :: c in reserves && c !in balances ==> b[c] == 0.0
  {
    balances + map c | c in reserves && c !in balances :: 0.0
  }

  function Max0(x: real): real { if x > 0.0 then x else 0.0 }

  /** allocate_coin: the surplus above the reserve, times the market's fraction,
      floored at zero. The reserve is looked up first, then the fraction, then
      the balance. */
  function AllocateCoin(coin: string, balances: map<string, real>, reserves: map<string, real>,
                        mc: MarketConfig): (r: Result<real>)
    ensures r.Ok? <==> coin in reserves && AllocationFraction(mc, coin).Ok? && coin in balances
    ensures coin !in reserves ==> r == Err(MissingKey(coin))
    ensures r.Ok? ==> r.value >= 0.0
    ensures r.Ok? ==> var pct := AllocationFraction(mc, coin).value;
              r.value >= (balances[coin] - reserves[coin]) * pct &&
              (r.value == 0.0 || r.value == (balances[coin] - reserves[coin]) * pct)
  {
    if coin !in reserves then Err(MissingKey(coin))
    else
      var pct := AllocationFraction(mc, coin);
      if pct.Err? then Err(pct.error)
      else if coin !in balances then Err(MissingKey(coin))
      else Ok(Max0((balances[coin] - reserves[coin]) * pct.value))
  }

  /** With padded balances, a reserve currency the account does not hold is
      allocated as if its balance were 0: never a missing-balance error. */
  lemma AbsentReserveCurrencyCountsAsZero(coin: string, balances: map<string, real>,
                                          reserves: map<string, real>, mc: MarketConfig)
    requires coin in reserves && coin !in balances
    requires AllocationFraction(mc, coin).Ok?
    ensures AllocateCoin(coin, PadBalances(balances, reserves), reserves, mc)
            == Ok(Max0((0.0 - reserves[coin]) * AllocationFraction(mc, coin).value))
  {
  }

  /** For a fraction in [0, 1], a market never receives more than the surplus
      above the reserve, and nothing when there is no surplus. */
  lemma AllocationWithinSurplus(coin: string, balances: map<string, real>,
                                reserves: map<string, real>, mc: MarketConfig)
    requires AllocateCoin(coin, balances, reserves, mc).Ok?
    requires 0.0 <= AllocationFraction(mc, coin).value <= 1.0
    ensures AllocateCoin(coin, balances, reserves, mc).value <= Max0(balances[coin] - reserves[coin])
    ensures balances[coin] <= reserves[coin] ==> AllocateCoin(coin, balances, reserves, mc).value == 0.0
  {
    FractionOfSurplus(balances[coin] - reserves[coin], AllocationFraction(mc, coin).value);
  }

  lemma FractionOfSurplus(surplus: real, pct: real)
    requires 0.0 <= pct <= 1.0
    ensures Max0(surplus * pct) <= Max0(surplus)
    ensures surplus <= 0.0 ==> Max0(surplus * pct) == 0.0
  {
    if surplus > 0.0 {
      assert surplus - surplus * pct == surplus * (1.0 - pct);
    }
  }

  /** One entry of compute_allocations: the market's metadata is looked up,
      then its market currency is allocated, then its base currency. */
  function EarmarkFor(name: string, mc: MarketConfig, balances: map<string, real>,
                      reserves: map<string, real>, markets: map<string, MarketInfo>): (r: Result<Earmark>)
    ensures r.Ok? <==> name in markets &&
                       AllocateCoin(markets[name].marketCurrency, balances, reserves, mc).Ok? &&
                       AllocateCoin(markets[name].baseCurrency, balances, reserves, mc).Ok?
    ensures name !in markets ==> r == Err(MissingKey(name))
    ensures name in markets && AllocateCoin(markets[name].marketCurrency, balances, reserves, mc).Err? ==>
              r == Err(AllocateCoin(markets[name].marketCurrency, balances, reserves, mc).error)
    ensures name in markets && AllocateCoin(markets[name].marketCurrency, balances, reserves, mc).Ok? &&
            AllocateCoin(markets[name].baseCurrency, balances, reserves, mc).Err? ==>
              r == Err(AllocateCoin(markets[name].baseCurrency, balances, reserves, mc).error)
    ensures r.Ok? ==> r.value.marketAmount >= 0.0 && r.value.baseAmount >= 0.0
    ensures r.Ok? ==>
              AllocateCoin(markets[name].marketCurrency, balances, reserves, mc) == Ok(r.value.marketAmount) &&
              AllocateCoin(markets[name].baseCurrency, balances, reserves, mc) == Ok(r.value.baseAmount)
  {
    if name !in markets then Err(MissingKey(name))
    else
      var m := AllocateCoin(markets[name].marketCurrency, balances, reserves, mc);
      if m.Err? then Err(m.error)
      else
        var b := AllocateCoin(markets[name].baseCurrency, balances, reserves, mc);
        if b.Err? then Err(b.error)
        else Ok(Earmark(m.value, b.value))
  }

  /** The allocations of the first n configured markets, computed in order; the
      first failure is the one raised. */
  function AllocationsUpTo(configs: Entries<MarketConfig>, n: nat, balances: map<string, real>,
                           reserves: map<string, real>, markets: map<string, MarketInfo>): Result<Entries<Earmark>>
    requires n <= |configs|
  {
    if n == 0 then Ok([])
    else
      var prev := AllocationsUpTo(configs, n - 1, balances, reserves, markets);
      if prev.Err? then prev
      else
        var e := EarmarkFor(configs[n - 1].0, configs[n - 1].1, balances, reserves, markets);
        if e.Err? then Err(e.error)
        else Ok(prev.value + [(configs[n - 1].0, e.value)])
  }

  /** compute_allocations: the balances are padded, then every configured
      market is allocated in order. */
  function Allocations(configs: Entries<MarketConfig>, balances: map<string, real>,
                       reserves: map<string, real>, markets: map<string, MarketInfo>): (r: Result<Entries<Earmark>>)
    ensures r.Ok? <==> forall i :: 0 <= i < |configs| ==>
              EarmarkFor(configs[i].0, configs[i].1, PadBalances(balances, reserves), reserves, markets).Ok?
    ensures r.Ok? ==> Keys(r.value) == Keys(configs)
    ensures r.Ok? ==> forall i :: 0 <= i < |configs| ==>
              Ok(r.value[i].1) == EarmarkFor(configs[i].0, configs[i].1, PadBalances(balances, reserves), reserves, markets)
  {
    var padded := PadBalances(balances, reserves);
    AllocationsSucceedIff(configs, |configs|, padded, reserves, markets);
    var a := AllocationsUpTo(configs, |configs|, padded, reserves, markets);
    if a.Err? then a
    else
      AllocationsShape(configs, |configs|, padded, reserves, markets);
      a
  }

  /** A successful allocation has one entry per configured market, in
      configuration order, each the market's allocate_coin results. */
  lemma {:induction false} AllocationsShape(configs: Entries<MarketConfig>, n: nat, balances: map<string, real>,
                                            reserves: map<string, real>, markets: map<string, MarketInfo>)
    requires n <= |configs|
    requires AllocationsUpTo(configs, n, balances, reserves, markets).Ok?
    ensures var a := AllocationsUpTo(configs, n, balances, reserves, markets).value;
            && |a| == n
            && forall i :: 0 <= i < n ==>
                 a[i].0 == configs[i].0 &&
                 Ok(a[i].1) == EarmarkFor(configs[i].0, configs[i].1, balances, reserves, markets)
  {
    if n > 0 {
      AllocationsShape(configs, n - 1, balances, reserves, markets);
    }
  }

  /** The first failure is final: later markets are never looked at. */
  lemma {:induction false} AllocationsErrorSticks(configs: Entries<MarketConfig>, n: nat, m: nat, balances: map<string, real>,
                                                  reserves: map<string, real>, markets: map<string, MarketInfo>)
    requires n <= m <= |configs|
    requires AllocationsUpTo(configs, n, balances, reserves, markets).Err?
    ensures AllocationsUpTo(configs, m, balances, reserves, markets) == AllocationsUpTo(configs, n, balances, reserves, markets)
    decreases m - n
  {
    if n < m {
      AllocationsErrorSticks(configs, n, m - 1, balances, reserves, markets);
    }
  }

  /** compute_allocations succeeds exactly when every configured market's
      lookups succeed: a missing market, reserve or fraction anywhere is raised. */
  lemma {:induction false} AllocationsSucceedIff(configs: Entries<MarketConfig>, n: nat, balances: map<string, real>,
                                                 reserves: map<string, real>, markets: map<string, MarketInfo>)
    requires n <= |configs|
    ensures AllocationsUpTo(configs, n, balances, reserves, markets).Ok? <==>
            forall i :: 0 <= i < n ==> EarmarkFor(configs[i].0, configs[i].1, balances, reserves, markets).Ok?
  {
    if n > 0 {
      AllocationsSucceedIff(configs, n - 1, balances, reserves, markets);
    }
  }

  /** compute_allocations, one loop over the market configurations. */
  method ComputeAllocations(configs: Entries<MarketConfig>, balancesMerged: map<string, real>,
                            reserves: map<string, real>, markets: map<string, MarketInfo>)
    returns (r: Result<Entries<Earmark>>)
    ensures r == Allocations(configs, balancesMerged, reserves, markets)
    ensures r.Ok? ==> |r.value| == |configs|
    ensures r.Ok? ==> forall i :: 0 <= i < |configs| ==>
              (r.value[i].0 == configs[i].0 &&
               r.value[i].1.marketAmount >= 0.0 && r.value[i].1.baseAmount >= 0.0)
  {
    var balances := PadBalances(balancesMerged, reserves);
    var allocs: Entries<Earmark> := [];
    var i := 0;
    while i < |configs|
      invariant 0 <= i <= |configs|
      invariant AllocationsUpTo(configs, i, balances, reserves, markets) == Ok(allocs)
    {
      var e := EarmarkFor(configs[i].0, configs[i].1, balances, reserves, markets);
      if e.Err? {
        r := Err(e.error);
        AllocationsErrorSticks(configs, i + 1, |configs|, balances, reserves, markets);
        return;
      }
      allocs := allocs + [(configs[i].0, e.value)];
      i := i + 1;
    }
    r := Ok(allocs);
    AllocationsShape(configs, |configs|, balances, reserves, markets);
  }
}
