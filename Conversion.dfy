/** Converting amounts to BTC and USD for the reserve-drift check and the
    account estimates. Ticker snapshots come from several data sources, tried in
    a fixed priority order; the BTC price in USD is an input read from the
    exchange. */
module Conversion {
  import opened Common
  import opened Money

  /** One market's top of book as a data source reports it. */
  datatype Quote = Quote(bid: real, ask: real)

  /** A snapshot of the ticker cache: data source -> market string -> quote. */
  type Tickers = map<string, map<string, Quote>>

  /** The sources coin_to_btc consults, highest priority first. */
  const PriceSources: seq<string> := ["bittrex", "ccxt", "qtrade"]

  predicate HasQuote(tickers: Tickers, source: string, market: string)
  {
    source in tickers && market in tickers[source]
  }

  /** The bid of the first source in `sources` that quotes `market`. */
  function FirstBid(tickers: Tickers, sources: seq<string>, market: string): (r: Option<real>)
    ensures r.None? <==> forall i :: 0 <= i < |sources| ==> !HasQuote(tickers, sources[i], market)
    ensures r.Some? ==> exists i :: (0 <= i < |sources| && HasQuote(tickers, sources[i], market)
              && r.value == tickers[sources[i]][market].bid
              && forall j :: 0 <= j < i ==> !HasQuote(tickers, sources[j], market))
  {
    if |sources| == 0 then None
    else if HasQuote(tickers, sources[0], market) then Some(tickers[sources[0]][market].bid)
    else
      var r := FirstBid(tickers, sources[1..], market);
      assert forall i :: 1 <= i < |sources| ==> sources[i] == sources[1..][i - 1];
      if r.Some? then
        var i :| 0 <= i < |sources[1..]| && HasQuote(tickers, sources[1..][i], market)
                 && r.value == tickers[sources[1..][i]][market].bid
                 && forall j :: 0 <= j < i ==> !HasQuote(tickers, sources[1..][j], market);
        assert forall j :: 0 <= j < i + 1 ==> !HasQuote(tickers, sources[j], market);
        r
      else r
  }

  /** The bid coin_to_btc uses for coin: that of COIN_BTC at the first source quoting it. */
  function BtcBid(tickers: Tickers, coin: string): Option<real>
  {
    FirstBid(tickers, PriceSources, coin + "_BTC")
  }

  /** (Decimal(amt) * Decimal(bid)).quantize(COIN) */
  function PriceInBtc(amt: real, bid: real): real
  {
    QuantizeCoin(amt * bid)
  }

  /** coin_to_btc: amt times the COIN_BTC bid of the first source quoting it,
      quantized; 0 when no source quotes the pair. */
  function CoinToBtc(tickers: Tickers, coin: string, amt: real): (r: real)
    ensures OnGrid(r, Coin)
    ensures BtcBid(tickers, coin).None? ==> r == 0.0
    ensures BtcBid(tickers, coin).Some? ==> r == PriceInBtc(amt, BtcBid(tickers, coin).value)
  {
    assert OnGrid(0.0, Coin);
    var bid := BtcBid(tickers, coin);
    if bid.Some? then PriceInBtc(amt, bid.value) else 0.0
  }

  /** btc_to_usd: amt times the BTC price, unrounded, so nothing is lost: the
      amount can be read back from the USD value, and its sign is kept at a
      positive price. */
  function BtcToUsd(amt: real, btcPrice: real): (r: real)
    ensures btcPrice != 0.0 ==> r / btcPrice == amt
    ensures btcPrice > 0.0 ==> (r > 0.0 <==> amt > 0.0) && (r == 0.0 <==> amt == 0.0)
    ensures btcPrice == 0.0 ==> r == 0.0
  {
    ProductSign(amt, btcPrice);
    ProductSign(-amt, btcPrice);
    amt * btcPrice
  }

  /** coin_to_usd: BTC converts directly and is not rounded; any other coin goes
      through coin_to_btc and is rounded to cents. */
  function CoinToUsd(tickers: Tickers, coin: string, amt: real, btcPrice: real): (r: real)
    ensures coin == "BTC" ==> r == BtcToUsd(amt, btcPrice)
    ensures coin != "BTC" ==> OnGrid(r, Perc)
    ensures coin != "BTC" ==> -HalfStep(Perc) <= r - BtcToUsd(CoinToBtc(tickers, coin, amt), btcPrice) <= HalfStep(Perc)
    ensures coin != "BTC" && BtcBid(tickers, coin).None? ==> r == 0.0
  {
    if coin == "BTC" then BtcToUsd(amt, btcPrice)
    else
      assert OnGrid(0.0, Perc);
      QuantizePerc(BtcToUsd(CoinToBtc(tickers, coin, amt), btcPrice))
  }

  /** estimate_account_gain: the gain over the cost basis in BTC (to the
      satoshi) and in USD (to the cent). A balance at or above the cost basis
      never shows a loss, and one at or below never shows a gain. */
  function EstimateAccountGain(btcBal: real, costBasis: real, btcPrice: real): (r: (real, real))
    ensures OnGrid(r.0, Coin) && OnGrid(r.1, Perc)
    ensures -HalfStep(Coin) <= r.0 - (btcBal - costBasis) <= HalfStep(Coin)
    ensures btcBal >= costBasis ==> r.0 >= 0.0
    ensures btcBal <= costBasis ==> r.0 <= 0.0
    ensures btcPrice >= 0.0 && btcBal >= costBasis ==> r.1 >= 0.0
    ensures btcPrice >= 0.0 && btcBal <= costBasis ==> r.1 <= 0.0
    ensures -HalfStep(Perc) <= r.1 - BtcToUsd(r.0, btcPrice) <= HalfStep(Perc)
  {
    var gain := Quantize(btcBal - costBasis, Coin);
    var usd := BtcToUsd(gain, btcPrice);
    QuantizeKeepsSign(btcBal - costBasis, Coin);
    ProductSign(gain, btcPrice);
    QuantizeKeepsSign(usd, Perc);
    (gain, QuantizePerc(usd))
  }

  lemma ProductSign(a: real, b: real)
    ensures a >= 0.0 && b >= 0.0 ==> a * b >= 0.0
    ensures a <= 0.0 && b >= 0.0 ==> a * b <= 0.0
  {
  }

  /** The BTC value of the first n balances: BTC counts as it is, every other
      coin through coin_to_btc. */
  function BtcValueUpTo(tickers: Tickers, balances: Entries<real>, n: nat): real
    requires n <= |balances|
  {
    if n == 0 then 0.0
    else
      var (coin, bal) := balances[n - 1];
      BtcValueUpTo(tickers, balances, n - 1) + (if coin == "BTC" then bal else CoinToBtc(tickers, coin, bal))
  }

  /** With non-negative balances and bids the account is never worth less than
      its BTC holdings. */
  lemma {:induction false} BtcValueAtLeastBtcHoldings(tickers: Tickers, balances: Entries<real>, n: nat)
    requires n <= |balances|
    requires forall i :: 0 <= i < |balances| ==> balances[i].1 >= 0.0
    requires forall s, m :: s in tickers && m in tickers[s] ==> tickers[s][m].bid >= 0.0
    ensures BtcValueUpTo(tickers, balances, n) >= BtcHoldingsUpTo(balances, n)
  {
    if n > 0 {
      BtcValueAtLeastBtcHoldings(tickers, balances, n - 1);
      var (coin, bal) := balances[n - 1];
      if coin != "BTC" {
        var b := BtcBid(tickers, coin);
        if b.Some? {
          assert b.value >= 0.0;
          ProductSign(bal, b.value);
          QuantizeKeepsSign(bal * b.value, Coin);
        }
      }
    }
  }

  /** The BTC balances alone among the first n. */
  function BtcHoldingsUpTo(balances: Entries<real>, n: nat): real
    requires n <= |balances|
  {
    if n == 0 then 0.0
    else BtcHoldingsUpTo(balances, n - 1) + (if balances[n - 1].0 == "BTC" then balances[n - 1].1 else 0.0)
  }

  /** estimate_account_value: the BTC value of every merged balance, and its
      USD value rounded to the cent. */
  method EstimateAccountValue(tickers: Tickers, balances: Entries<real>, btcPrice: real)
    returns (btc: real, usd: real)
    ensures btc == BtcValueUpTo(tickers, balances, |balances|)
    ensures usd == QuantizePerc(BtcToUsd(btc, btcPrice))
  {
    btc := 0.0;
    for i := 0 to |balances|
      invariant btc == BtcValueUpTo(tickers, balances, i)
    {
      var (coin, bal) := balances[i];
      if coin == "BTC" {
        btc := btc + bal;
      } else {
        btc := btc + CoinToBtc(tickers, coin, bal);
      }
    }
    usd := QuantizePerc(BtcToUsd(btc, btcPrice));
  }
}
