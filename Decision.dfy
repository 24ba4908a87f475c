/** check_for_rebalance as a function of its inputs: the previously dispatched
    profile, the freshly priced profile, the tolerances and the reserve policy,
    the balance snapshot, the ticker snapshot and the BTC price. */
module Decision {
  import opened Common
  import opened Money
  import opened Config
  import opened Ladder
  import opened Conversion

  /** An allocation profile: market -> priced buy and sell ladders, in order. */
  type Profile = Entries<Book<PricedOrder>>

  /** (new - old) / new */
  function RelativeChange(n: real, o: real): real
    requires n != 0.0
  {
    (n - o) / n
  }

  /** One zipped pair of tiers: the price check first, which raises when the new
      price is 0; then, unless the new amount is 0, the amount check. */
  function TierTrips(market: string, n: PricedOrder, o: PricedOrder, priceTol: real, amountTol: real): (r: Result<bool>)
    ensures r.Err? <==> n.price == 0.0
    ensures r.Err? ==> r.error == DivisionByZero(market)
    ensures r == Ok(true) <==>
              n.price != 0.0 &&
              (RelativeChange(n.price, o.price) > priceTol ||
               (n.amount != 0.0 && RelativeChange(n.amount, o.amount) > amountTol))
  {
    if n.price == 0.0 then Err(DivisionByZero(market))
    else if RelativeChange(n.price, o.price) > priceTol then Ok(true)
    else if n.amount == 0.0 then Ok(false)
    else Ok(RelativeChange(n.amount, o.amount) > amountTol)
  }

  /** The loop over zip(new, old) from position i: pairs are taken positionally
      and stop at the end of the shorter ladder. */
  function LadderTripsFrom(market: string, ns: seq<PricedOrder>, os: seq<PricedOrder>, i: nat,
                           priceTol: real, amountTol: real): Result<bool>
    decreases |ns| - i
  {
    if i >= |ns| || i >= |os| then Ok(false)
    else
      var t := TierTrips(market, ns[i], os[i], priceTol, amountTol);
      if t.Err? || t.value then t
      else LadderTripsFrom(market, ns, os, i + 1, priceTol, amountTol)
  }

  /** One market: the buy_limit ladder, then the sell_limit ladder. */
  function BookTrips(market: string, n: Book<PricedOrder>, o: Book<PricedOrder>,
                     priceTol: real, amountTol: real): Result<bool>
  {
    var b := LadderTripsFrom(market, n.buyLimit, o.buyLimit, 0, priceTol, amountTol);
    if b.Err? || b.value then b
    else LadderTripsFrom(market, n.sellLimit, o.sellLimit, 0, priceTol, amountTol)
  }

  /** The markets of the new profile from position m, each compared with the
      previous profile's entry for it (a KeyError when there is none). */
  function ProfileTripsFrom(profile: Profile, prev: Profile, m: nat, priceTol: real, amountTol: real): Result<bool>
    decreases |profile| - m
  {
    if m >= |profile| then Ok(false)
    else
      var o := Lookup(prev, profile[m].0);
      if o.None? then Err(MissingKey(profile[m].0))
      else
        var t := BookTrips(profile[m].0, profile[m].1, o.value, priceTol, amountTol);
        if t.Err? || t.value then t
        else ProfileTripsFrom(profile, prev, m + 1, priceTol, amountTol)
  }

  /** balances.get(coin, 0) */
  function BalanceOrZero(balances: map<string, real>, coin: string): real
  {
    if coin in balances then balances[coin] else 0.0
  }

  /** One reserve currency's USD balance is outside reserve_usd +/- thresh. */
  predicate OutOfBand(coin: string, reserve: real, balances: map<string, real>, tickers: Tickers,
                      btcPrice: real, thresh: real)
  {
    var balanceUsd := CoinToUsd(tickers, coin, BalanceOrZero(balances, coin), btcPrice);
    var reserveUsd := CoinToUsd(tickers, coin, reserve, btcPrice);
    balanceUsd > reserveUsd + thresh || balanceUsd < reserveUsd - thresh
  }

  /** Some reserve currency has drifted out of its band. */
  predicate ReserveDrift(reserves: map<string, real>, balances: map<string, real>, tickers: Tickers,
                         btcPrice: real, thresh: real)
  {
    exists coin :: coin in reserves && OutOfBand(coin, reserves[coin], balances, tickers, btcPrice, thresh)
  }

  /** check_for_rebalance: always on a cold start; otherwise the tolerance
      checks, market by market, and only when none trips, the reserve drift. */
  function RebalanceNeeded(prev: Option<Profile>, profile: Profile, cfg: BotConfig,
                           balances: map<string, real>, tickers: Tickers, btcPrice: real): (r: Result<bool>)
    ensures prev.None? ==> r == Ok(true)
    ensures prev.Some? ==>
              (r == Ok(false) <==>
                 ProfileTripsFrom(profile, prev.value, 0, cfg.priceTolerance, cfg.amountTolerance) == Ok(false) &&
                 !ReserveDrift(cfg.currencyReserves, balances, tickers, btcPrice, cfg.reserveThreshUsd))
    ensures prev.Some? && r.Err? ==>
              r == ProfileTripsFrom(profile, prev.value, 0, cfg.priceTolerance, cfg.amountTolerance)
    ensures prev.Some? && ProfileTripsFrom(profile, prev.value, 0, cfg.priceTolerance, cfg.amountTolerance).Err? ==>
              r == ProfileTripsFrom(profile, prev.value, 0, cfg.priceTolerance, cfg.amountTolerance)
  {
    if prev.None? then Ok(true)
    else
      var t := ProfileTripsFrom(profile, prev.value, 0, cfg.priceTolerance, cfg.amountTolerance);
      if t.Err? || t.value then t
      else Ok(ReserveDrift(cfg.currencyReserves, balances, tickers, btcPrice, cfg.reserveThreshUsd))
  }

  /** With no previous profile every profile is dispatched. */
  lemma ColdStartAlwaysRebalances(profile: Profile, cfg: BotConfig, balances: map<string, real>,
                                  tickers: Tickers, btcPrice: real)
    ensures RebalanceNeeded(None, profile, cfg, balances, tickers, btcPrice) == Ok(true)
  {
  }

  /** For a positive new price, the price check trips exactly when the old price
      lies strictly below new - tol * new: a move of exactly the tolerance does
      not trip. */
  lemma PriceTripBoundary(n: real, o: real, tol: real)
    requires n > 0.0
    ensures RelativeChange(n, o) > tol <==> o < n - tol * n
    ensures o == n - tol * n ==> RelativeChange(n, o) == tol
  {
    assert (n - o) / n * n == n - o;
    if RelativeChange(n, o) > tol {
      ScaleStrict(tol, RelativeChange(n, o), n);
    }
    if o < n - tol * n {
      assert tol * n < n - o;
      DivideStrict(tol * n, n - o, n);
      assert tol * n / n == tol;
    }
  }

  lemma ScaleStrict(a: real, b: real, s: real)
    requires s > 0.0 && a < b
    ensures a * s < b * s
  {
    assert b * s - a * s == (b - a) * s;
  }

  lemma DivideStrict(a: real, b: real, s: real)
    requires s > 0.0 && a < b
    ensures a / s < b / s
  {
    assert b / s - a / s == (b - a) / s;
  }

  /** No positional pair trips when every new price is positive and no higher
      than the old one, and every new amount is 0 or a positive amount no higher
      than the old one, for non-negative tolerances: decreases never trip. */
  lemma {:induction false} DecreasesNeverTrip(market: string, ns: seq<PricedOrder>, os: seq<PricedOrder>, i: nat,
                                              priceTol: real, amountTol: real)
    requires priceTol >= 0.0 && amountTol >= 0.0
    requires forall k :: 0 <= k < |ns| && k < |os| ==>
               0.0 < ns[k].price <= os[k].price &&
               (ns[k].amount == 0.0 || 0.0 < ns[k].amount <= os[k].amount)
    ensures LadderTripsFrom(market, ns, os, i, priceTol, amountTol) == Ok(false)
    decreases |ns| - i
  {
    if i < |ns| && i < |os| {
      NonIncreaseIsNonPositive(ns[i].price, os[i].price);
      if ns[i].amount != 0.0 {
        NonIncreaseIsNonPositive(ns[i].amount, os[i].amount);
      }
      DecreasesNeverTrip(market, ns, os, i + 1, priceTol, amountTol);
    }
  }

  lemma NonIncreaseIsNonPositive(n: real, o: real)
    requires 0.0 < n <= o
    ensures RelativeChange(n, o) <= 0.0
  {
    assert n - o <= 0.0;
  }

  /** zip stops at the shorter ladder: extra tiers at the end of the old ladder
      are never compared. */
  lemma {:induction false} ExtraOldTiersIgnored(market: string, ns: seq<PricedOrder>, os: seq<PricedOrder>,
                                                extra: seq<PricedOrder>, i: nat, priceTol: real, amountTol: real)
    requires |ns| <= |os|
    ensures LadderTripsFrom(market, ns, os + extra, i, priceTol, amountTol)
            == LadderTripsFrom(market, ns, os, i, priceTol, amountTol)
    decreases |ns| - i
  {
    if i < |ns| {
      assert (os + extra)[i] == os[i];
      ExtraOldTiersIgnored(market, ns, os, extra, i + 1, priceTol, amountTol);
    }
  }

  /** zip stops at the shorter ladder: extra tiers at the end of the new ladder
      are never compared, so a grown ladder alone never trips. */
  lemma {:induction false} ExtraNewTiersIgnored(market: string, ns: seq<PricedOrder>, os: seq<PricedOrder>,
                                                extra: seq<PricedOrder>, i: nat, priceTol: real, amountTol: real)
    requires |os| <= |ns|
    ensures LadderTripsFrom(market, ns + extra, os, i, priceTol, amountTol)
            == LadderTripsFrom(market, ns, os, i, priceTol, amountTol)
    decreases |os| - i
  {
    if i < |os| {
      assert (ns + extra)[i] == ns[i];
      ExtraNewTiersIgnored(market, ns, os, extra, i + 1, priceTol, amountTol);
    }
  }

  /** A profile compared with itself (every price positive) never trips, so a
      repeated profile is only re-dispatched because of reserve drift. */
  lemma {:induction false} SameProfileNeverTrips(profile: Profile, m: nat, priceTol: real, amountTol: real)
    requires priceTol >= 0.0 && amountTol >= 0.0
    requires forall j :: 0 <= j < |profile| ==> Lookup(profile, profile[j].0) == Some(profile[j].1)
    requires forall j, k :: 0 <= j < |profile| && 0 <= k < |profile[j].1.buyLimit| ==>
               profile[j].1.buyLimit[k].price > 0.0
    requires forall j, k :: 0 <= j < |profile| && 0 <= k < |profile[j].1.sellLimit| ==>
               profile[j].1.sellLimit[k].price > 0.0
    ensures ProfileTripsFrom(profile, profile, m, priceTol, amountTol) == Ok(false)
    decreases |profile| - m
  {
    if m < |profile| {
      var b := profile[m].1;
      SelfNeverTrips(profile[m].0, b.buyLimit, 0, priceTol, amountTol);
      SelfNeverTrips(profile[m].0, b.sellLimit, 0, priceTol, amountTol);
      SameProfileNeverTrips(profile, m + 1, priceTol, amountTol);
    }
  }

  lemma {:induction false} SelfNeverTrips(market: string, ns: seq<PricedOrder>, i: nat, priceTol: real, amountTol: real)
    requires priceTol >= 0.0 && amountTol >= 0.0
    requires forall k :: 0 <= k < |ns| ==> ns[k].price > 0.0
    ensures LadderTripsFrom(market, ns, ns, i, priceTol, amountTol) == Ok(false)
    decreases |ns| - i
  {
    if i < |ns| {
      assert RelativeChange(ns[i].price, ns[i].price) == 0.0;
      assert ns[i].amount != 0.0 ==> RelativeChange(ns[i].amount, ns[i].amount) == 0.0;
      SelfNeverTrips(market, ns, i + 1, priceTol, amountTol);
    }
  }

  /** A non-BTC reserve currency that no source quotes converts to 0 on both
      sides, so with a non-negative threshold it never drifts. */
  lemma UnquotedReserveNeverDrifts(coin: string, reserve: real, balances: map<string, real>,
                                   tickers: Tickers, btcPrice: real, thresh: real)
    requires coin != "BTC" && BtcBid(tickers, coin).None? && thresh >= 0.0
    ensures !OutOfBand(coin, reserve, balances, tickers, btcPrice, thresh)
  {
  }

  /** For example, with a tolerance of 0.1 and a new price of 1, an old price
      of 0.9 sits on the boundary and does not trip, 0.89 does. */
  lemma PriceToleranceExample()
    ensures TierTrips("DOGE_BTC", PricedOrder(1.0, 0.0), PricedOrder(0.9, 0.0), 0.1, 0.0) == Ok(false)
    ensures TierTrips("DOGE_BTC", PricedOrder(1.0, 0.0), PricedOrder(0.89, 0.0), 0.1, 0.0) == Ok(true)
  {
  }

  /** A market of the new profile that the remembered profile lacks (one that
      had no quote when the last dispatch happened) is never passed: the check
      either trips on an earlier market or raises a KeyError for it, so it can
      never answer "no rebalance". */
  lemma {:induction false} UnrememberedMarketNeverPasses(profile: Profile, prev: Profile, m: nat, j: nat,
                                                         priceTol: real, amountTol: real)
    requires m <= j < |profile| && Lookup(prev, profile[j].0).None?
    ensures ProfileTripsFrom(profile, prev, m, priceTol, amountTol) != Ok(false)
    decreases j - m
  {
    if m < j {
      var o := Lookup(prev, profile[m].0);
      if o.Some? {
        UnrememberedMarketNeverPasses(profile, prev, m + 1, j, priceTol, amountTol);
      }
    }
  }

  /** The smallest case: a market dispatched for the first time after a profile
      without it was remembered makes the check raise. */
  lemma UnrememberedMarketExample(market: string, book: Book<PricedOrder>, cfg: BotConfig,
                                  balances: map<string, real>, tickers: Tickers, btcPrice: real)
    ensures RebalanceNeeded(Some([]), [(market, book)], cfg, balances, tickers, btcPrice) == Err(MissingKey(market))
  {
  }
}
