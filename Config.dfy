/** The manager's configuration. A market's configuration is a mapping of
    currency codes to allocation fractions, plus an `intervals` entry holding the
    `buy_limit` and `sell_limit` tier ladders; `MarketConfig` lays one market's
    mapping over the `default` entry's with a shallow dict update. */
module Config {
  import opened Common

  /** One tier of a ladder: the slippage ratio (the ladder's key, kept as a
      label) and the fraction of the earmarked amount it receives. */
  datatype Tier = Tier(slip: real, ratio: real)

  /** A value in a market's configuration mapping. */
  datatype Setting =
    | Fraction(value: real)                               // currency code -> allocation fraction
    | Intervals(buyLimit: Option<seq<Tier>>,                // the `intervals` entry; a ladder
                sellLimit: Option<seq<Tier>>)              // may be missing from it

  type Settings = map<string, Setting>

  const IntervalsKey := "intervals"
  const BuyLimitKey := "buy_limit"
  const SellLimitKey := "sell_limit"
  const DefaultKey := "default"

  /** A resolved market configuration (MarketConfig: a dict with a market_string). */
  datatype MarketConfig = MarketConfig(marketString: string, settings: Settings)

  /** The options of the `orderbook_manager` section the engine reads. */
  datatype BotConfig = BotConfig(
    dryRunMode: bool,
    priceTolerance: real,
    amountTolerance: real,
    reserveThreshUsd: real,
    currencyReserves: map<string, real>,
    costBasisBtc: real)

  /** MarketConfig.__init__: update(default) then update(config). The merge is
      shallow: a market that sets `intervals` replaces both default ladders. */
  function MergeConfig(marketString: string, config: Settings, default: Settings): (mc: MarketConfig)
    ensures mc.marketString == marketString
    ensures mc.settings.Keys == default.Keys + config.Keys
    ensures forall k :: k in config ==> mc.settings[k] == config[k]
    ensures forall k :: k in default && k !in config ==> mc.settings[k] == default[k]
  {
    MarketConfig(marketString, default + config)
  }

  /** Market names other than `default`, in configuration order. */
  function TradedMarkets(markets: Entries<Settings>): (names: seq<string>)
    ensures forall i :: 0 <= i < |names| ==> names[i] != DefaultKey
    ensures |names| <= |markets|
    ensures forall i :: 0 <= i < |markets| && markets[i].0 != DefaultKey ==> markets[i].0 in names
  {
    assert forall i :: 1 <= i < |markets| ==> markets[i] == markets[1..][i - 1];
    if |markets| == 0 then []
    else if markets[0].0 == DefaultKey then TradedMarkets(markets[1..])
    else [markets[0].0] + TradedMarkets(markets[1..])
  }

  /** Every traded market name is the name of an entry of the configuration. */
  lemma {:induction false} TradedMarketsAreEntries(markets: Entries<Settings>)
    ensures forall i :: 0 <= i < |TradedMarkets(markets)| ==>
              exists j :: 0 <= j < |markets| && markets[j].0 == TradedMarkets(markets)[i]
  {
    if |markets| == 0 {
      assert TradedMarkets(markets) == [];
    } else {
      var tail := markets[1..];
      TradedMarketsAreEntries(tail);
      var names := TradedMarkets(markets);
      var rest := TradedMarkets(tail);
      forall i | 0 <= i < |names|
        ensures exists j :: 0 <= j < |markets| && markets[j].0 == names[i]
      {
        if markets[0].0 == DefaultKey {
          assert names == rest;
          var j :| 0 <= j < |tail| && tail[j].0 == rest[i];
          assert markets[j + 1] == tail[j];
        } else if i == 0 {
          assert markets[0].0 == names[0];
        } else {
          assert names == [markets[0].0] + rest;
          assert names[i] == rest[i - 1];
          var j :| 0 <= j < |tail| && tail[j].0 == rest[i - 1];
          assert markets[j + 1] == tail[j];
        }
      }
    }
  }

  /** The market_configs comprehension of OrderbookManager.__init__: every entry
      but `default`, each merged over `default`. When `default` is absent the
      comprehension passes None to dict.update, which raises as soon as there is
      one market to build. */
  function ResolveMarkets(markets: Entries<Settings>): (r: Result<Entries<MarketConfig>>)
    ensures r.Err? <==> Lookup(markets, DefaultKey).None? && |TradedMarkets(markets)| > 0
    ensures r.Err? ==> r.error == NoDefaultConfig
    ensures r.Ok? ==> Keys(r.value) == TradedMarkets(markets)
    ensures r.Ok? ==> forall i :: 0 <= i < |r.value| ==>
              exists j :: 0 <= j < |markets| && markets[j].0 == r.value[i].0 &&
                r.value[i].1 == MergeConfig(markets[j].0, markets[j].1, Lookup(markets, DefaultKey).value)
  {
    ResolveFromResolves(markets, Lookup(markets, DefaultKey));
    ResolveFromMerges(markets, Lookup(markets, DefaultKey));
    ResolveFrom(markets, Lookup(markets, DefaultKey))
  }

  function ResolveFrom(markets: Entries<Settings>, default: Option<Settings>): Result<Entries<MarketConfig>>
  {
    if |markets| == 0 then Ok([])
    else
      var rest := ResolveFrom(markets[1..], default);
      if markets[0].0 == DefaultKey then rest
      else if default.None? then Err(NoDefaultConfig)
      else if rest.Err? then rest
      else
        var name := markets[0].0;
        Ok([(name, MergeConfig(name, markets[0].1, default.value))] + rest.value)
  }

  lemma {:induction false} ResolveFromResolves(markets: Entries<Settings>, default: Option<Settings>)
    ensures var r := ResolveFrom(markets, default);
            && (r.Err? <==> default.None? && |TradedMarkets(markets)| > 0)
            && (r.Err? ==> r.error == NoDefaultConfig)
            && (r.Ok? ==> Keys(r.value) == TradedMarkets(markets))
  {
    if |markets| > 0 {
      var tail := markets[1..];
      ResolveFromResolves(tail, default);
      var rest := ResolveFrom(tail, default);
      var r := ResolveFrom(markets, default);
      if r.Ok? && rest.Ok? && markets[0].0 != DefaultKey {
        assert Keys(r.value) == [markets[0].0] + Keys(rest.value);
      }
    }
  }

  /** Every resolved market is some configuration entry merged over `default`. */
  lemma {:induction false} ResolveFromMerges(markets: Entries<Settings>, default: Option<Settings>)
    ensures var r := ResolveFrom(markets, default);
            r.Ok? && default.Some? ==> forall i :: 0 <= i < |r.value| ==>
              exists j :: 0 <= j < |markets| && markets[j].0 == r.value[i].0 &&
                r.value[i].1 == MergeConfig(markets[j].0, markets[j].1, default.value)
  {
    if |markets| > 0 {
      var tail := markets[1..];
      ResolveFromMerges(tail, default);
      var rest := ResolveFrom(tail, default);
      var r := ResolveFrom(markets, default);
      if r.Ok? && rest.Ok? && default.Some? {
        forall i | 0 <= i < |r.value|
          ensures exists j :: 0 <= j < |markets| && markets[j].0 == r.value[i].0 &&
                    r.value[i].1 == MergeConfig(markets[j].0, markets[j].1, default.value)
        {
          if markets[0].0 == DefaultKey {
            var j :| 0 <= j < |tail| && tail[j].0 == r.value[i].0 &&
                     r.value[i].1 == MergeConfig(tail[j].0, tail[j].1, default.value);
            assert markets[j + 1] == tail[j];
          } else if i == 0 {
            assert markets[0].0 == r.value[0].0;
          } else {
            assert r.value[i] == rest.value[i - 1];
            var j :| 0 <= j < |tail| && tail[j].0 == rest.value[i - 1].0 &&
                     rest.value[i - 1].1 == MergeConfig(tail[j].0, tail[j].1, default.value);
            assert markets[j + 1] == tail[j];
          }
        }
      }
    }
  }

  /** market_alloc[coin] read as a Decimal fraction. */
  function AllocationFraction(mc: MarketConfig, coin: string): (r: Result<real>)
    ensures r.Ok? <==> coin in mc.settings && mc.settings[coin].Fraction?
    ensures r.Ok? ==> r.value == mc.settings[coin].value
    ensures coin !in mc.settings ==> r == Err(MissingKey(coin))
  {
    if coin !in mc.settings then Err(MissingKey(coin))
    else match mc.settings[coin]
      case Fraction(f) => Ok(f)
      case Intervals(_, _) => Err(NotAFraction(coin))
  }

  /** mc['intervals']['sell_limit'] and mc['intervals']['buy_limit']: the
      (buy_limit, sell_limit) ladders. The sell ladder is read first, so a
      missing sell ladder is the KeyError raised even when both are missing. */
  function Ladders(mc: MarketConfig): (r: Result<(seq<Tier>, seq<Tier>)>)
    ensures r.Ok? <==> IntervalsKey in mc.settings && mc.settings[IntervalsKey].Intervals? &&
                       mc.settings[IntervalsKey].buyLimit.Some? && mc.settings[IntervalsKey].sellLimit.Some?
    ensures r.Ok? ==> r.value == (mc.settings[IntervalsKey].buyLimit.value, mc.settings[IntervalsKey].sellLimit.value)
    ensures IntervalsKey !in mc.settings ==> r == Err(MissingKey(IntervalsKey))
    ensures IntervalsKey in mc.settings && mc.settings[IntervalsKey].Intervals? ==>
              (mc.settings[IntervalsKey].sellLimit.None? ==> r == Err(MissingKey(SellLimitKey))) &&
              (mc.settings[IntervalsKey].sellLimit.Some? && mc.settings[IntervalsKey].buyLimit.None? ==>
                 r == Err(MissingKey(BuyLimitKey)))
  {
    if IntervalsKey !in mc.settings then Err(MissingKey(IntervalsKey))
    else match mc.settings[IntervalsKey]
      case Intervals(buy, sell) =>
        if sell.None? then Err(MissingKey(SellLimitKey))
        else if buy.None? then Err(MissingKey(BuyLimitKey))
        else Ok((buy.value, sell.value))
      case Fraction(_) => Err(NoIntervals(IntervalsKey))
  }
}
