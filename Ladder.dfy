/** allocate_orders and price_orders: an earmarked amount becomes one order per
    configured tier, and each tier's slippage becomes an absolute limit price. */
module Ladder {
  import opened Common
  import opened Money
  import opened Config

  /** A tier before pricing: (slippage label, quantized amount). */
  datatype TierOrder = TierOrder(slip: real, amount: real)

  /** A priced order: (price, amount); on the buy side the amount is the base
      currency value to spend, on the sell side the market currency to sell. */
  datatype PricedOrder = PricedOrder(price: real, amount: real)

  /** {'buy_limit': [...], 'sell_limit': [...]} */
  datatype Book<T> = Book(buyLimit: seq<T>, sellLimit: seq<T>)

  /** The amount a tier receives: (alloc * ratio).quantize(COIN). */
  function TierAmount(alloc: real, ratio: real): (a: real)
    ensures OnGrid(a, Coin)
    ensures -HalfStep(Coin) <= a - alloc * ratio <= HalfStep(Coin)
    ensures alloc >= 0.0 && ratio >= 0.0 ==> a >= 0.0
  {
    assert alloc >= 0.0 && ratio >= 0.0 ==> alloc * ratio >= 0.0;
    QuantizeKeepsSign(alloc * ratio, Coin);
    Quantize(alloc * ratio, Coin)
  }

  /** A buy tier's price: (bid - bid * slip).quantize(COIN). */
  function BuyPrice(bid: real, slip: real): (p: real)
    ensures OnGrid(p, Coin)
    ensures -HalfStep(Coin) <= p - (bid - bid * slip) <= HalfStep(Coin)
  {
    QuantizeCoin(bid - bid * slip)
  }

  /** A sell tier's price: (ask + ask * slip).quantize(COIN). */
  function SellPrice(ask: real, slip: real): (p: real)
    ensures OnGrid(p, Coin)
    ensures -HalfStep(Coin) <= p - (ask + ask * slip) <= HalfStep(Coin)
  {
    QuantizeCoin(ask + ask * slip)
  }

  /** For a non-negative slippage and a bid already on the coin grid, a buy
      tier is never priced above the bid. */
  lemma BuyPriceAtMostBid(bid: real, slip: real)
    requires bid >= 0.0 && slip >= 0.0 && OnGrid(bid, Coin)
    ensures BuyPrice(bid, slip) <= bid
  {
    assert bid * slip >= 0.0;
    QuantizeBelowGridPoint(bid - bid * slip, bid, Coin);
  }

  /** For a non-negative slippage and an ask already on the coin grid, a sell
      tier is never priced below the ask. */
  lemma SellPriceAtLeastAsk(ask: real, slip: real)
    requires ask >= 0.0 && slip >= 0.0 && OnGrid(ask, Coin)
    ensures SellPrice(ask, slip) >= ask
  {
    assert ask * slip >= 0.0;
    QuantizeAboveGridPoint(ask + ask * slip, ask, Coin);
  }

  /** Larger slippage never moves a buy tier closer to (or past) the bid, nor a
      sell tier closer to the ask: the ladder fans out from the reference. */
  lemma LadderFansOut(ref: real, slip1: real, slip2: real)
    requires ref >= 0.0 && slip1 <= slip2
    ensures BuyPrice(ref, slip2) <= BuyPrice(ref, slip1)
    ensures SellPrice(ref, slip1) <= SellPrice(ref, slip2)
  {
    ScaleMonotone(ref, slip1, slip2);
    BuyFansOut(ref, slip1, slip2);
    SellFansOut(ref, slip1, slip2);
  }

  lemma BuyFansOut(ref: real, slip1: real, slip2: real)
    requires ref * slip1 <= ref * slip2
    ensures BuyPrice(ref, slip2) <= BuyPrice(ref, slip1)
  {
    var a, b := ref * slip1, ref * slip2;
    QuantizeMonotone(ref - b, ref - a, Coin);
  }

  lemma SellFansOut(ref: real, slip1: real, slip2: real)
    requires ref * slip1 <= ref * slip2
    ensures SellPrice(ref, slip1) <= SellPrice(ref, slip2)
  {
    var a, b := ref * slip1, ref * slip2;
    QuantizeMonotone(ref + a, ref + b, Coin);
  }

  lemma ScaleMonotone(ref: real, slip1: real, slip2: real)
    requires ref >= 0.0 && slip1 <= slip2
    ensures ref * slip1 <= ref * slip2
  {
    assert ref * slip2 - ref * slip1 == ref * (slip2 - slip1);
  }

  /** One side of allocate_orders: a loop appending (slip, amount) per tier. */
  method AllocateSide(alloc: real, tiers: seq<Tier>) returns (orders: seq<TierOrder>)
    ensures |orders| == |tiers|
    ensures forall i :: 0 <= i < |tiers| ==>
              orders[i] == TierOrder(tiers[i].slip, TierAmount(alloc, tiers[i].ratio))
  {
    orders := [];
    for i := 0 to |tiers|
      invariant |orders| == i
      invariant forall k :: 0 <= k < i ==> orders[k] == TierOrder(tiers[k].slip, TierAmount(alloc, tiers[k].ratio))
    {
      var amount := TierAmount(alloc, tiers[i].ratio);
      orders := orders + [TierOrder(tiers[i].slip, amount)];
    }
  }

  /** allocate_orders: the sell ladder from the market-currency amount, the buy
      ladder from the base-currency amount, one entry per configured tier in
      ladder order (zero amounts included). */
  method AllocateOrders(marketAlloc: real, baseAlloc: real, marketString: string,
                        configs: Entries<MarketConfig>) returns (r: Result<Book<TierOrder>>)
    ensures r.Ok? <==> Lookup(configs, marketString).Some? && Ladders(Lookup(configs, marketString).value).Ok?
    ensures Lookup(configs, marketString).None? ==> r == Err(MissingKey(marketString))
    ensures Lookup(configs, marketString).Some? && Ladders(Lookup(configs, marketString).value).Err? ==>
              r == Err(Ladders(Lookup(configs, marketString).value).error)
    ensures r.Ok? ==>
              var (buy, sell) := Ladders(Lookup(configs, marketString).value).value;
              && |r.value.sellLimit| == |sell|
              && |r.value.buyLimit| == |buy|
              && (forall i :: 0 <= i < |sell| ==>
                    r.value.sellLimit[i] == TierOrder(sell[i].slip, TierAmount(marketAlloc, sell[i].ratio)))
              && (forall i :: 0 <= i < |buy| ==>
                    r.value.buyLimit[i] == TierOrder(buy[i].slip, TierAmount(baseAlloc, buy[i].ratio)))
  {
    var mc := Lookup(configs, marketString);
    if mc.None? {
      return Err(MissingKey(marketString));
    }
    var ladders := Ladders(mc.value);
    if ladders.Err? {
      return Err(ladders.error);
    }
    var sellAllocs := AllocateSide(marketAlloc, ladders.value.1);
    var buyAllocs := AllocateSide(baseAlloc, ladders.value.0);
    r := Ok(Book(buyAllocs, sellAllocs));
  }

  /** One side of price_orders: the amounts are kept and each slippage label is
      replaced by the price it gives against the reference. */
  method PriceSide(tiers: seq<TierOrder>, ref: real, buy: bool) returns (priced: seq<PricedOrder>)
    ensures |priced| == |tiers|
    ensures forall i :: 0 <= i < |tiers| ==>
              priced[i].amount == tiers[i].amount &&
              priced[i].price == (if buy then BuyPrice(ref, tiers[i].slip) else SellPrice(ref, tiers[i].slip))
  {
    priced := [];
    for i := 0 to |tiers|
      invariant |priced| == i
      invariant forall k :: 0 <= k < i ==>
                  priced[k].amount == tiers[k].amount &&
                  priced[k].price == (if buy then BuyPrice(ref, tiers[k].slip) else SellPrice(ref, tiers[k].slip))
    {
      var price := if buy then BuyPrice(ref, tiers[i].slip) else SellPrice(ref, tiers[i].slip);
      priced := priced + [PricedOrder(price, tiers[i].amount)];
    }
  }

  /** price_orders: sells are priced off the ask, buys off the bid. */
  method PriceOrders(orders: Book<TierOrder>, bid: real, ask: real) returns (r: Book<PricedOrder>)
    ensures |r.buyLimit| == |orders.buyLimit| && |r.sellLimit| == |orders.sellLimit|
    ensures forall i :: 0 <= i < |orders.sellLimit| ==>
              r.sellLimit[i] == PricedOrder(SellPrice(ask, orders.sellLimit[i].slip), orders.sellLimit[i].amount)
    ensures forall i :: 0 <= i < |orders.buyLimit| ==>
              r.buyLimit[i] == PricedOrder(BuyPrice(bid, orders.buyLimit[i].slip), orders.buyLimit[i].amount)
  {
    var sells := PriceSide(orders.sellLimit, ask, false);
    var buys := PriceSide(orders.buyLimit, bid, true);
    r := Book(buys, sells);
  }

  /** Every price and amount of a priced ladder built from allocated tiers is on
      the coin grid, so quantizing any of them again changes nothing. */
  lemma PricedLadderIsQuantized(orders: Book<TierOrder>, bid: real, ask: real, r: Book<PricedOrder>)
    requires forall i :: 0 <= i < |orders.buyLimit| ==> OnGrid(orders.buyLimit[i].amount, Coin)
    requires forall i :: 0 <= i < |orders.sellLimit| ==> OnGrid(orders.sellLimit[i].amount, Coin)
    requires |r.buyLimit| == |orders.buyLimit| && |r.sellLimit| == |orders.sellLimit|
    requires forall i :: 0 <= i < |orders.sellLimit| ==>
               r.sellLimit[i] == PricedOrder(SellPrice(ask, orders.sellLimit[i].slip), orders.sellLimit[i].amount)
    requires forall i :: 0 <= i < |orders.buyLimit| ==>
               r.buyLimit[i] == PricedOrder(BuyPrice(bid, orders.buyLimit[i].slip), orders.buyLimit[i].amount)
    ensures forall i :: 0 <= i < |r.buyLimit| ==>
              QuantizeCoin(r.buyLimit[i].price) == r.buyLimit[i].price &&
              QuantizeCoin(r.buyLimit[i].amount) == r.buyLimit[i].amount
    ensures forall i :: 0 <= i < |r.sellLimit| ==>
              QuantizeCoin(r.sellLimit[i].price) == r.sellLimit[i].price &&
              QuantizeCoin(r.sellLimit[i].amount) == r.sellLimit[i].amount
  {
  }
}
