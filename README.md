# Order-book manager: a Dafny model

This project models the rebalancing engine of a market-making bot,
`orderbook_manager.py`. The engine keeps ladders of limit orders on an
exchange. Each tick of its monitor loop does the following:

- It earmarks part of each market's two currency balances, after setting aside
  the configured reserves (`compute_allocations`).
- It splits each earmarked amount over the configured slippage tiers
  (`allocate_orders`).
- It prices every tier off the market's bid or ask (`price_orders`).
- It compares the new allocation profile with the last one dispatched, using a
  price tolerance, an amount tolerance and a USD band around each reserve
  (`check_for_rebalance`).
- When something tripped, it cancels every order and places the new ladders
  (`rebalance_orders`, `place_order`).
- It advances the trade-id watermark (`boot_trades`, `check_for_trades`).

The modules follow the program's structure:

- `Common`: Option and Result, the errors the manager can raise, and ordered
  dictionaries as sequences of pairs.
- `Money`: Python `Decimal` as an exact `real`, and `quantize` with half-to-even
  rounding on the COIN (1e-8) and PERC (1e-2) grids.
- `Config`: `MarketConfig`'s shallow merge over `default`, and the market
  configuration comprehension of `__init__`.
- `Allocation`: `compute_allocations` and `allocate_coin`.
- `Ladder`: `allocate_orders` and `price_orders`.
- `Conversion`: `coin_to_btc`, `btc_to_usd`, `coin_to_usd`,
  `estimate_account_value` and `estimate_account_gain`.
- `Decision`: `check_for_rebalance` as a function.
- `Dispatch`: the requests `rebalance_orders` sends, as values. It also holds
  the function `Rebalance`, which gives the result, the requests and the
  remembered profile of one call.
- `Generation`: the quote lookup and profile construction of `generate_orders`.
- `Manager`: the class `OrderbookManager`, whose methods run the source's loops
  and update its fields. Its fields are `prevAllocProfile`,
  `mostRecentTradeId` and `calls`, the log of requests sent to the exchange.

Each method is proved equal to a specification function. The lemmas about
those functions state what the engine promises.

The exchange is represented by the inputs each operation is given:

- merged balances, plain balances, market metadata and a ticker snapshot;
- the BTC price in USD;
- the exchange's reply to the k-th order request of a dispatch (`reply(k)`):
  None means success, Some(code) means an `APIException` with that code.

Every exception these operations raise from their inputs is an `Err`:

- a missing dictionary key, including a missing `sell_limit` or `buy_limit`
  under `intervals`;
- a division by zero in the tolerance check;
- `max` of no trade ids;
- the watermark read before it was booted;
- an exchange rejection other than code 400.

The options of the bot's own configuration section are always present in the
model (see "## Left out").

How the code behaves at points worth knowing:

- `allocate_coin` reads `currency_reserves[coin]` for both currencies of
  every market (orderbook_manager.py:59). A market or base currency without a
  configured reserve therefore raises a KeyError, and `AllocateCoin` returns
  `Err(MissingKey(coin))`.
- The monitor's failure handler sends `cancel_market_orders` in dry-run mode
  too (orderbook_manager.py:325-331). `MonitorTick` models it that way.
- `generate_orders` consults only the bittrex and ccxt tables, in that order.
  It raises a KeyError when the bittrex table is absent, or when the ccxt table
  is absent and bittrex does not quote the market. `coin_to_btc` tries bittrex,
  ccxt and qtrade and swallows every KeyError.
- `check_for_rebalance` is evaluated even when the rebalance is forced, so its
  errors propagate then too.
- A market skipped for lack of a quote is missing from the remembered profile.
  When it is quoted again, the check raises a KeyError for it unless an earlier
  market trips (orderbook_manager.py:167). Until an earlier market trips, the
  remembered profile does not change, so each pass fails the same way
  (`Decision.UnrememberedMarketNeverPasses`).
- `boot_trades` runs before the monitor's `try` (orderbook_manager.py:313), so
  an account with no trades stops the monitor (`BootWatermark` returns
  `Err(NoTradeIds)`).

## Model

| member | source | states |
|---|---|---|
| Common.Lookup | orderbook_manager.py:167 | a dictionary lookup is None exactly when no entry has the key; otherwise it is the value of an entry with that key |
| Money.RoundHalfEven | orderbook_manager.py:90 | the result is within 0.5 of the input, a tie goes to the even neighbour, and an integer maps to itself |
| Money.Quantize | orderbook_manager.py:90 | quantize lands on the grid, within half a step of its input, and leaves a value already on the grid unchanged |
| Money.QuantizeTiesToEven | orderbook_manager.py:90 | a value exactly halfway between two grid points goes to the one with an even number of steps |
| Money.QuantizeMonotone | orderbook_manager.py:114-118 | quantizing never reverses the order of two values |
| Money.QuantizeIdempotent | orderbook_manager.py:90 | quantizing twice is quantizing once |
| Money.QuantizeKeepsSign | orderbook_manager.py:267 | quantizing never flips the sign of a value |
| Config.MergeConfig | orderbook_manager.py:19-24 | the merged keys are the default's plus the market's; the market's value wins, and a default value survives only where the market has none |
| Config.TradedMarkets | orderbook_manager.py:33-36 | no traded market is named `default`, and every entry not named `default` is a traded market (that every traded market is an entry is `Config.TradedMarketsAreEntries`) |
| Config.TradedMarketsAreEntries | orderbook_manager.py:33-36 | every traded market name is the name of some entry of the configuration |
| Config.ResolveMarkets | orderbook_manager.py:29-36 | the comprehension fails exactly when `default` is absent and a traded market exists; otherwise its keys are the traded markets in order, each merged over `default` |
| Config.ResolveFromResolves | orderbook_manager.py:33-36 | for any suffix of the configuration: the comprehension fails, with the missing-default error, exactly when there is no default and some market to build; otherwise it lists the traded markets |
| Config.ResolveFromMerges | orderbook_manager.py:33-36 | for any suffix of the configuration, every resolved market is an entry of that suffix merged over the default |
| Config.AllocationFraction | orderbook_manager.py:60 | a coin's fraction is read exactly when the coin is configured with a number; a missing coin is a KeyError |
| Config.Ladders | orderbook_manager.py:87-92 | the ladders are read exactly when `intervals` holds both; a missing `intervals`, `sell_limit` or `buy_limit` is a KeyError, and the sell ladder is looked up first |
| Allocation.PadBalances | orderbook_manager.py:46-49 | every reserve currency gets a balance: existing balances are kept, and missing ones are 0 |
| Allocation.AllocateCoin | orderbook_manager.py:55-63 | succeeds exactly when the reserve, the fraction and the balance exist; a missing reserve is a KeyError; the result is non-negative; it is the surplus times the fraction, or 0 when that is negative |
| Allocation.AbsentReserveCurrencyCountsAsZero | orderbook_manager.py:46-63 | after padding, a reserve currency the account never held is allocated as if its balance were 0 |
| Allocation.AllocationWithinSurplus | orderbook_manager.py:62-63 | for a fraction in [0, 1] a market never gets more than the surplus above the reserve, and gets nothing without one |
| Allocation.EarmarkFor | orderbook_manager.py:53-66 | succeeds exactly when the market's metadata and both allocate_coin calls succeed; a missing market is a KeyError, and the market currency's error comes before the base currency's; both amounts are non-negative, and each is the allocate_coin of that currency |
| Allocation.AllocationsShape | orderbook_manager.py:51-71 | a successful allocation has one entry per configured market, in order, each the market's earmark |
| Allocation.AllocationsErrorSticks | orderbook_manager.py:52-70 | the first failure is the one raised; later markets change nothing |
| Allocation.AllocationsSucceedIff | orderbook_manager.py:52-70 | compute_allocations succeeds exactly when every market's earmark does |
| Allocation.Allocations | orderbook_manager.py:38-71 | compute_allocations succeeds exactly when every market's earmark over the padded balances does; it then has the configured markets as keys, in order, each with its earmark |
| Allocation.ComputeAllocations | orderbook_manager.py:38-71 | the loop computes the allocation function; on success it returns one non-negative pair per market, in configuration order |
| Ladder.TierAmount | orderbook_manager.py:89-95 | a tier amount is on the COIN grid, within half a step of alloc times ratio, and non-negative for non-negative inputs |
| Ladder.BuyPrice | orderbook_manager.py:118 | a buy price is on the COIN grid and within half a satoshi of bid minus bid times slippage |
| Ladder.SellPrice | orderbook_manager.py:114 | a sell price is on the COIN grid and within half a satoshi of ask plus ask times slippage |
| Ladder.BuyPriceAtMostBid | orderbook_manager.py:116-119 | with non-negative slippage a buy tier is never priced above the bid |
| Ladder.SellPriceAtLeastAsk | orderbook_manager.py:112-115 | with non-negative slippage a sell tier is never priced below the ask |
| Ladder.LadderFansOut | orderbook_manager.py:112-119 | more slippage never moves a buy price up or a sell price down |
| Ladder.AllocateSide | orderbook_manager.py:88-95 | one entry per tier, in tier order, each the tier's slip and quantized amount |
| Ladder.AllocateOrders | orderbook_manager.py:73-96 | fails exactly when the market or its ladders are missing, with the same error; otherwise one entry per configured tier on each side; sells come from the market amount and buys from the base amount |
| Ladder.PriceSide | orderbook_manager.py:112-119 | lengths and amounts are kept, and each slip is replaced by its price |
| Ladder.PriceOrders | orderbook_manager.py:98-120 | both lengths and amounts are kept; sells are priced off the ask and buys off the bid |
| Ladder.PricedLadderIsQuantized | orderbook_manager.py:88-120 | every price and amount of a generated ladder is already quantized |
| Conversion.FirstBid | orderbook_manager.py:270-279 | the bid comes from the first source in priority order that quotes the market; None exactly when none does |
| Conversion.CoinToBtc | orderbook_manager.py:270-279 | the amount times that bid, quantized to COIN; 0 when no source quotes COIN_BTC |
| Conversion.BtcToUsd | orderbook_manager.py:281-284 | the conversion is exact: at a nonzero price the amount can be read back, and at a positive price the sign is kept, and at price 0 the value is 0 |
| Conversion.CoinToUsd | orderbook_manager.py:286-289 | BTC converts at the BTC price unrounded; any other coin is within half a cent of the USD value of its coin_to_btc, on the cent grid, and 0 when unquoted |
| Conversion.EstimateAccountGain | orderbook_manager.py:265-268 | the BTC gain is within half a satoshi of balance minus cost basis; both parts are on their grids; a balance at or above the basis never shows a loss, and one at or below never shows a gain; the USD gain is within half a cent of the BTC gain times the price |
| Conversion.BtcValueAtLeastBtcHoldings | orderbook_manager.py:253-263 | with non-negative balances and bids the account is worth at least its BTC holdings |
| Conversion.EstimateAccountValue | orderbook_manager.py:253-263 | the loop sums BTC as it is and every other coin through coin_to_btc; the USD value is that sum at the BTC price, to the cent |
| Decision.RebalanceNeeded | orderbook_manager.py:161-204 | a cold start rebalances; otherwise the answer is no exactly when no market trips and no reserve drifts, and a failure comes from the market comparison; a failing market comparison is always the result |
| Decision.TierTrips | orderbook_manager.py:170-191 | a tier pair fails exactly when the new price is 0; it trips exactly when the price change exceeds the tolerance, or the amount is nonzero and its change exceeds the tolerance; both comparisons are strict |
| Decision.ColdStartAlwaysRebalances | orderbook_manager.py:161-164 | with no previous profile the check returns true |
| Decision.PriceTripBoundary | orderbook_manager.py:170-172 | for a positive new price the price check trips exactly when the old price is below n - tol*n; a move of exactly the tolerance does not trip |
| Decision.DecreasesNeverTrip | orderbook_manager.py:169-191 | prices and amounts that fall or stay the same never trip |
| Decision.ExtraOldTiersIgnored | orderbook_manager.py:169 | zip ignores tiers past the end of the new ladder |
| Decision.ExtraNewTiersIgnored | orderbook_manager.py:169 | zip ignores tiers past the end of the old ladder |
| Decision.SameProfileNeverTrips | orderbook_manager.py:166-191 | a profile compared with itself never trips |
| Decision.SelfNeverTrips | orderbook_manager.py:169-191 | a ladder compared with itself never trips |
| Decision.UnquotedReserveNeverDrifts | orderbook_manager.py:193-203 | a non-BTC reserve currency that no source quotes never drifts |
| Decision.PriceToleranceExample | orderbook_manager.py:170-179 | at tolerance 0.1 and new price 1, an old price of 0.9 does not trip and 0.89 does |
| Decision.UnrememberedMarketNeverPasses | orderbook_manager.py:166-167 | a market absent from the remembered profile makes the check trip earlier or raise, never answer no |
| Decision.UnrememberedMarketExample | orderbook_manager.py:166-167 | a first market missing from an empty remembered profile raises a KeyError |
| Dispatch.OrderCall | orderbook_manager.py:146-154 | a buy request carries the quantity as its value, and a sell request as its amount |
| Dispatch.FirstFatalFrom | orderbook_manager.py:152-159 | gives the first request whose reply is re-raised: not success and not code 400 |
| Dispatch.LadderCallsArePositiveOrders | orderbook_manager.py:141-143 | every request of a ladder is an order for that market and side with positive quantity |
| Dispatch.LadderCallsAreItsPositiveOrders | orderbook_manager.py:135-143 | every order of positive quantity is sent with its own price and quantity, and every request is one of those |
| Dispatch.LadderCallsCount | orderbook_manager.py:135-143 | a ladder sends exactly as many requests as it has orders of positive quantity |
| Dispatch.PlacementsArePositiveOrders | orderbook_manager.py:132-143 | the dispatch plan never holds a cancel or an order of quantity <= 0 |
| Dispatch.SendPlan | orderbook_manager.py:134-159 | the requests sent are a prefix of the plan; all of it exactly when no reply is fatal; otherwise the last request sent is the first fatal one, whose code is the error |
| Dispatch.Rebalance | orderbook_manager.py:122-139 | the remembered profile stays or becomes the new one; anything sent starts with cancel-all; dry-run mode sends and remembers nothing; a failed check sends nothing and propagates; a dry run, or a check answering no without force, succeeds with nothing sent and the profile kept |
| Dispatch.DryRunSendsNothing | orderbook_manager.py:126-130 | dry-run mode sends nothing and remembers nothing; on a cold start it succeeds |
| Dispatch.SentIsCancelThenPlanPrefix | orderbook_manager.py:122-159 | something is sent exactly when a dispatch happens: one cancel-all, then a prefix of the plan of positive orders |
| Dispatch.DispatchCompletesIffNoFatalReply | orderbook_manager.py:134-159 | a dispatch completes exactly when no reply is fatal; it then sends the whole plan and remembers the profile; otherwise it stops right after the first fatal request, with its code, and keeps the old profile |
| Dispatch.ProfileRecordedOnlyAfterFullDispatch | orderbook_manager.py:134-139 | the remembered profile changes only after a complete dispatch |
| Dispatch.RepeatedProfileIsSkipped | orderbook_manager.py:122-124 | re-generating the last dispatched profile sends nothing unless a reserve drifted |
| Generation.GenerationQuote | orderbook_manager.py:237-245 | bittrex first, then ccxt, None when neither quotes the market; a missing table is a KeyError |
| Generation.GeneratedMarketsAreQuoted | orderbook_manager.py:236-249 | the generated profile lists exactly the quoted markets, in allocation order |
| Generation.GeneratedBooksFitMarkets | orderbook_manager.py:236-249 | every generated book has one order per configured tier, each priced off its market's quote with its tier's slippage and sized from that market's earmark with its tier's ratio |
| Generation.GeneratedProfile | orderbook_manager.py:233-249 | an allocation failure propagates; after a successful allocation the profile is built exactly when every market builds; a built profile lists exactly the quoted markets, and every book fits its market and earmark |
| Generation.ProfileSucceedsIff | orderbook_manager.py:236-249 | building from the first n allocations succeeds exactly when each of them has a quote lookup that succeeds and, when quoted, ladders that build |
| Generation.ProfileErrorSticks | orderbook_manager.py:236-249 | the first failure while building the profile is the one raised |
| Generation.BuildProfile | orderbook_manager.py:235-249 | the loop computes the profile function |
| Manager.MaxId | orderbook_manager.py:295 | max returns one of the ids, and no id is larger |
| Manager.BootWatermark | orderbook_manager.py:291-295 | the watermark is the newest trade id; no trades raise |
| Manager.NextWatermark | orderbook_manager.py:298-306 | fails before boot; no new trades keep the watermark; otherwise it becomes the largest new id |
| Manager.NewerTradesAdvanceWatermark | orderbook_manager.py:298-306 | trades newer than the watermark never move it back, and any new trade moves it forward |
| Manager.WatermarkExample | orderbook_manager.py:303-306 | new trades 45 and 43 after 40 give 45; no trades keep 45 |
| Manager.GenerateOutcome | orderbook_manager.py:233-251 | the remembered profile stays or becomes the generated one; anything sent starts with cancel-all and needs a built profile; dry-run mode sends and remembers nothing; a failed generation returns its error with nothing sent, and a built profile goes to `Dispatch.Rebalance` |
| Manager.FailedGenerationSendsNothing | orderbook_manager.py:233-251 | a profile that cannot be built sends nothing and remembers nothing |
| Manager.CheckLadder | orderbook_manager.py:169-191 | the zip loop computes the ladder comparison |
| Manager.CheckReserves | orderbook_manager.py:193-204 | the reserve loop is true exactly when some reserve currency is out of band |
| Manager.NewManager | orderbook_manager.py:29-36 | construction fails exactly when resolving the market configurations does; otherwise the manager starts with no remembered profile, no watermark and nothing sent |
| Manager.OrderbookManager.constructor | orderbook_manager.py:29-36 | the manager starts with no remembered profile, no watermark and nothing sent |
| Manager.OrderbookManager.CheckForRebalance | orderbook_manager.py:161-204 | the loops compute the decision on the manager's remembered profile |
| Manager.OrderbookManager.PlaceOrder | orderbook_manager.py:141-159 | nothing is sent for a quantity <= 0; otherwise one order request is sent, and it fails exactly when the reply is fatal |
| Manager.OrderbookManager.PlaceLadder | orderbook_manager.py:135-138 | one ladder's requests are appended, up to and including the first fatal one |
| Manager.OrderbookManager.PlaceMarket | orderbook_manager.py:134-138 | one market's buy then sell requests are appended; a fatal reply ends the dispatch as the plan function says |
| Manager.OrderbookManager.PlaceProfile | orderbook_manager.py:134-138 | the requests appended and the result are those of the plan function |
| Manager.OrderbookManager.RebalanceOrders | orderbook_manager.py:122-139 | the result, the requests appended and the new remembered profile are those of `Rebalance` |
| Manager.OrderbookManager.GenerateOrders | orderbook_manager.py:233-251 | allocation, profile building and dispatch together, as `GenerateOutcome` says |
| Manager.OrderbookManager.BootTrades | orderbook_manager.py:291-296 | the watermark becomes the newest trade id; with no trades it raises and nothing changes |
| Manager.OrderbookManager.CheckForTrades | orderbook_manager.py:298-306 | the watermark moves as `NextWatermark` says; on failure it is unchanged |
| Manager.OrderbookManager.MonitorTick | orderbook_manager.py:314-331 | one pass completes exactly when generation and the trade poll succeed; any failure appends one cancel_market_orders request, in dry-run mode too, and leaves the watermark unchanged |

## Left out

- The monitor runs forever; only one pass of its loop is modelled, and the start-up sleep and the sleep between passes are left out.
- HTTP, the exchange client and connectivity exceptions are left out. Only `APIException` from `api.order` is modelled, through its code.
- `get_orders` is left out. `generate_orders` passes its result to `rebalance_orders`, which never reads it.
- The global ticker cache is one snapshot per pass. The source reads a cache that scrapers update concurrently.
- The BTC price is one input per pass. The source fetches it again on each `btc_to_usd` call.
- Logging is left out, including the "higher"/"lower" wording of the trip messages. That wording is chosen by comparing the old price with the relative change (orderbook_manager.py:173) and affects only the log.
- The `nlargest(10)` in `boot_trades` feeds only the log, and the max of the ten largest ids is the max of all ids.
- The account value and gain estimates in the monitor pass feed only the log. They are modelled as separate operations.
- Decimal's 28-digit context precision is not modelled; arithmetic is exact.
- Floats read from YAML and passed to `Decimal` are not modelled; every number is an exact rational.
- A ticker entry without a `bid` or `ask` field is not modelled.
- The `prevent_taker=False` argument of every order request is a constant and is not part of `ApiCall`.
- The options of the bot's configuration section (`dry_run_mode`, `price_tolerance`, `amount_tolerance`, `reserve_thresh_usd`, `currency_reserves`, `cost_basis_btc`) are read lazily by the source and raise a KeyError when missing (orderbook_manager.py:126, 171, 183, 197, 266). `BotConfig` always holds them, so that KeyError is not modelled.
- The other files of the repository (exchange clients, data scrapers, the volume bot, entry points, authentication) are not part of this model.
- Config.TradedMarkets: its own contract leaves the direction "every traded market is an entry" to the lemma `Config.TradedMarketsAreEntries`. Stated on the function itself, that existential makes the proofs about the comprehension too costly for the solver.
- Config.ResolveFromMerges: stated when a default is present. Without one, a successful comprehension has no market to merge.
- Money.Quantize: its own contract leaves the half-to-even tie rule to the lemma `Money.QuantizeTiesToEven`. Stated on `Quantize` itself, it makes the proofs about ladder prices too costly for the solver.
- BuyPriceAtMostBid: stated for a bid already on the COIN grid. Quantizing an off-grid bid with zero slippage can round it up.
- SellPriceAtLeastAsk: stated for an ask already on the COIN grid, for the same reason.
- DecreasesNeverTrip: stated for positive new prices, since a zero new price raises instead of comparing.
- RepeatedProfileIsSkipped: stated for profiles with distinct market names and positive prices, and non-negative tolerances.
