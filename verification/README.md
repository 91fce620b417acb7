# Per-user trading engine, modelled in Dafny

This project models the trading engine of `server.js`, the single-process
Node server behind TradingBot Pro. Every user who starts a bot gets a
`UserTradingBot`. Each trading cycle the bot does the following for every
configured symbol:

- fetches a quote;
- appends it to a price history capped at 100 samples;
- asks one of four threshold strategies for a buy, sell or hold signal;
- buys `floor(tradeAmount / price)` shares or sells the oldest open long;
- runs a stop-loss/take-profit check over that symbol's positions.

A cycle is skipped once the day's trade count has reached `maxTrades`. The
`userBots` map holds at most one bot per user. The start-bot, stop-bot and
bot-status handlers replace, remove and report those bots.

The modules follow the program's structure:

- `Wrappers`: `Option`, standing for JavaScript's `undefined`.
- `Indicators`: `TechnicalIndicators.sma` and `rsi`. `Sma` and `Rsi` are loop
  methods, proved against the functions `SmaValues` and `RsiValue`.
- `Strategies`: the four strategies and `getTradeSignal`. These are pure
  functions, and JavaScript's comparisons with `undefined` are kept.
- `History`: the capped per-symbol price history.
- `Ledger`: positions, in insertion order like the JavaScript `Map`, plus
  counters. It specifies buy, sell and the risk check as functions on a
  value `Book`, with the lemmas that state what each does.
- `Bot`: the configuration and one cycle as a specification over
  `Engine` (histories plus book). It also holds the class `UserTradingBot`,
  whose methods update its fields in place and are proved equal to that
  specification.
- `Registry`: the class `BotRegistry` around the `userBots` map.

Inputs the engine takes from the outside world are parameters:

- Quotes are arguments of type `Price`, a positive `real`.
- The broker's answer to the n-th order a bot submits is `broker(n)`. Orders
  reach the broker only in `live` mode. In any other mode they are simulated
  and always fill (`Bot.Fills`).
- The bot's order counter `orders` numbers the orders. It stands for the
  order ids that come from the broker or from `Date.now()`.

A missing API key and an empty one are both the empty string.

The model follows `server.js` as written, including these details:

- Mean reversion uses strict thresholds (`< -0.03`, `> 0.03`).
- `rsi` has no guard for a zero average loss.
- The strategy map has only four identifiers. Any other, such as
  `ema_crossover` or `bollinger_bands`, holds.
- No code resets `dailyPL`, `monthlyPL` or `dailyTrades`. `Ledger.NeverReset`
  records that they always equal the totals.

## Model

| member | source | states |
|---|---|---|
| Indicators.SumSign | server.js:20 | the fold of a window is non-negative over non-negative samples and positive over a non-empty positive window |
| Indicators.Sma | server.js:17-24 | returns `max(0, n - period + 1)` values, the j-th being the arithmetic mean of `prices[j .. j + period)` |
| Indicators.RsiInRange | server.js:36-40 | when the average loss over the first `period` steps is positive, the index lies in [0, 100) and is 0 exactly when no step rose |
| Indicators.Rsi | server.js:26-41 | the loop's per-step gains and losses give exactly the specified index, which lies in [0, 100) |
| Indicators.DivCompare | server.js:79-82 | comparing a quotient with a threshold is comparing the dividend with threshold times the positive divisor (used for every strategy threshold) |
| Strategies.SmaValuesLast | server.js:52-55 | the moving average `back` places from the end is the mean of the window ending `back` samples before the last one |
| Strategies.CrossoverInputs | server.js:49-55 | the four averages the crossover compares; the previous 50-sample mean is undefined at exactly 50 samples |
| Strategies.SmaCrossoverRule | server.js:46-61 | buy iff more than 50 samples and the 20-sample mean crosses from at-or-below to above the 50-sample mean; sell iff the mirror cross; so hold at 50 samples |
| Strategies.MomentumRule | server.js:75-85 | buy iff at least 10 samples and the last price is more than 2% above the price 10 samples back; sell iff more than 2% below |
| Strategies.MeanReversionRule | server.js:87-100 | buy iff at least 20 samples and the last price is more than 3% below the 20-sample mean; sell iff more than 3% above |
| Strategies.RsiOversoldHolds | server.js:63-73 | `rsi` returns one number, `rsi[rsi.length - 1]` reads `undefined` from it, and neither `< 30` nor `> 70` holds, so the strategy holds for every history |
| Strategies.TradeSignalActsOnlyWhenKnown | server.js:248-260 | an unknown strategy id and `rsi_oversold` always hold; a buy or sell needs one of the three other ids and at least 50, 10 or 20 samples |
| History.Recent | server.js:211-214 | the kept history never exceeds 100 samples |
| History.AppendedBounded | server.js:204-214 | one quote on a history of at most 100: at most 100 remain, the last is the new quote, and a full history drops exactly its oldest sample with the rest in order |
| History.RecentOfRecent | server.js:211-214 | trimming to the last 100 before appending more changes nothing |
| History.AppendedAllIsRecent | server.js:204-214 | after any number of quotes the history is the most recent 100 of all quotes seen |
| Ledger.FirstOpen | server.js:320-325 | the index of the oldest open long in the symbol: every earlier position belongs to another symbol or side |
| Ledger.OldestOpenIsHead | server.js:320-325 | `openPositions[0]` is the position at `FirstOpen`, and the filter is empty iff there is none |
| Ledger.DeleteKeyAt | server.js:363 | deleting the key `${symbol}_${orderId}` removes exactly that one position when order ids are distinct |
| Ledger.RemoveKeepsOthers | server.js:363 | removing a position of one symbol leaves every other symbol's positions as they were, in order |
| Ledger.FilterConcat | server.js:320-321 | filtering a concatenation filters each part |
| Ledger.QuantityIsLargestAffordable | server.js:263 | `floor(tradeAmount / price)` is the largest share count whose cost does not exceed `tradeAmount` |
| Ledger.QuantityExamples | server.js:263-264 | $1000 buys 2 shares at $334 and $100 buys none |
| Ledger.BuyOpensOnePosition | server.js:262-316 | a buy keeps the book valid and other symbols untouched; with at least one share and a fill it appends one position (that quantity, entry at the price, side buy) and counts one total and one daily trade, leaving wins, losses and P&L; otherwise positions and counters are unchanged |
| Ledger.SellClosesOldest | server.js:318-383 | a sell keeps the book valid, never changes the trade count or other symbols; with no open long nothing changes; on a failed order positions and counters stay; on a fill exactly the oldest open long is removed, its P&L added to total, daily and monthly P&L, and a win counted iff the P&L is positive, a loss otherwise |
| Ledger.SellRemovesAt | server.js:351-363 | on a fill the new positions are the old ones without the oldest open long |
| Ledger.RemoveKeepsWellFormed | server.js:363 | removing any position keeps quantities, sides and distinct order ids |
| Ledger.RiskBoundsInclusive | server.js:390-400 | the stop-loss fires iff the price is at or below `entry * (1 - stopLoss/100)`, the take-profit iff at or above `entry * (1 + takeProfit/100)` |
| Ledger.RiskBoundExamples | server.js:394-400 | with entry 100, stop-loss 5% fires at 95 and 94.99 but not 95.01; take-profit 10% fires at 110 and 110.01 but not 109.99 |
| Ledger.CheckRiskClosesAtMostTriggers | server.js:385-405 | the check over the snapshot keeps the book valid, closes at most as many positions as checks fire and opens none, leaves the trade count and other symbols alone, and adds exactly one win or loss per close |
| Ledger.QuietCheckChangesNothing | server.js:389-404 | when no check fires, nothing changes |
| Ledger.StopLossMayCloseAnotherPosition | server.js:394-395 | the sell a stop-loss triggers closes the oldest open long, which can be a different, profitable position |
| Bot.ActOnKeepsValid | server.js:219-223 | acting on any signal keeps the book valid and the other symbols' positions, and counts at most one trade |
| Bot.SymbolStepKeepsValid | server.js:200-227 | one symbol step keeps all histories within 100 and the book valid; the symbol's history is the last 100 quotes ending with the new one; other histories and positions are unchanged; at most one trade is counted |
| Bot.CycleStepsKeepValid | server.js:186-198 | a cycle keeps histories and the book valid and counts at most one trade per symbol |
| Bot.CycleMayExceedDailyLimit | server.js:182-190 | the daily limit is checked once per cycle: with `maxTrades` 1 a cycle over two rising symbols makes two trades |
| Bot.UserTradingBot.constructor | server.js:105-119 | a new bot is inactive, with zero counters, no positions and no history |
| Bot.UserTradingBot.Start | server.js:135-138 | the bot is active afterwards and no trading state changes; on an active bot nothing changes |
| Bot.UserTradingBot.Stop | server.js:155-156 | the bot is inactive afterwards and no trading state changes |
| Bot.UserTradingBot.RecordPrice | server.js:204-214 | the symbol's history becomes the last 100 of the old history plus the quote; no other history changes; the cap is kept |
| Bot.UserTradingBot.ExecuteBuy | server.js:262-316 | the holdings become `AfterBuy` of the old holdings (see `Ledger.BuyOpensOnePosition`), and the bot stays valid |
| Bot.UserTradingBot.ExecuteSell | server.js:318-383 | the holdings become `AfterSell` of the old holdings (see `Ledger.SellClosesOldest`), and the bot stays valid |
| Bot.UserTradingBot.CheckPositions | server.js:385-405 | the loop over the snapshot leaves the holdings at `AfterCheck` of the old holdings (see `Ledger.CheckRiskClosesAtMostTriggers`) |
| Bot.UserTradingBot.ProcessSymbol | server.js:200-227 | the state becomes `SymbolStep` of the old state (see `Bot.SymbolStepKeepsValid`) |
| Bot.UserTradingBot.ProcessTradingCycle | server.js:180-198 | no change when the daily count has reached `maxTrades` or the bot is inactive; otherwise every symbol is processed in order (see `Bot.CycleStepsKeepValid`) |
| Bot.UserTradingBot.GetStats | server.js:417-424 | the counters, flag, open-position count and symbols, with wins + losses + open positions equal to total trades |
| Registry.BotRegistry.ValidHasOneActivePerUser | server.js:12 | no user ever has two active bots, counting replaced and stopped ones |
| Registry.BotRegistry.constructor | server.js:12 | the registry starts empty |
| Registry.BotRegistry.StartBot | server.js:428-455 | a missing key is rejected and changes nothing: the map, the configurations and the previous bot (still active, same trading state) stay; otherwise the previous bot is only stopped (its trading state unchanged) and exactly one new, empty, active bot with this configuration is registered for the user |
| Registry.BotRegistry.StopBot | server.js:457-471 | the user's bot is stopped, with its trading state unchanged, and its entry removed; an unknown user changes nothing |
| Registry.BotRegistry.Status | server.js:473-487 | a registered bot's statistics, else inactive with zero trades and zero P&L; the reply is active exactly when the user has a bot |

## Left out

- Alpaca quotes and orders and Telegram messages: quotes and broker answers
  are parameters. Message text, `toFixed` formatting and the win-rate string
  are not modelled.
- The `tradingLoop` `while`/`setTimeout` loop, the 2-5 minute jitter, the
  5-minute error back-off and the 5 s delay between symbols: one cycle is one
  method call, and the `isActive` flag is a plain guard.
- Paper-mode random prices and the 100 fallback price: the quote is a
  parameter.
- `Date.now()` order ids: the order counter stands for them. Two paper
  orders in the same millisecond would share a `Map` key. The model's ids are
  always distinct, so that key collision is not modelled.
- Bot.UserTradingBot.ExecuteBuy, Bot.UserTradingBot.ExecuteSell: a failed
  order advances the model's order counter, which the source does not have.
  Positions and statistics are unchanged, as in the source.
- IEEE double arithmetic: exact `real` arithmetic is used. Rounding,
  NaN and Infinity are not modelled.
- Indicators.Rsi: requires a positive average loss, because with a zero
  average loss the source divides by zero into Infinity or NaN. The only
  caller, `rsiOversold`, discards the value anyway.
- Indicators.Sma: requires a positive period. The source only calls it with
  20 and 50.
- Strategy ids that name inherited object members (`toString`, ...) are
  treated like any other unknown id.
- An undefined `maxTrades` is not modelled. In the source it never stops a
  cycle, because comparing with `undefined` is false.
- Exceptions thrown inside `processSymbol` are not modelled. The source logs
  them and moves on to the next symbol.
- `userConfigs` is kept only as far as start-bot writes it. The save-config
  and load-config handlers and their file persistence are not modelled.
  Neither are the Express routing, the health endpoint and the SIGTERM
  shutdown.
- server/classes/TradingBot.js, server/server.js and public/assets/js/app.js
  are not part of this model.
