# Stock price simulation — a Dafny model

This project models the core of a stock-trading demo application: the
back-end service that runs a simulated market, the administration endpoints
that control it, its settings record, and the computational helpers of three
web pages (portfolio, stocks, dashboard).

- **Settings** (`config.dfy`, module `Config`): the `StockSimulationConfig`
  record with its defaults (3 s interval, change bounds -5 % .. 5 %, price floor
  0.01, enabled). The record ties no field to another, so sane bounds and a usable
  interval are stated where they are needed, never assumed of the record.
- **Price formula** (`pricing.dfy`, module `Pricing`): the change
  `(r * (Max - Min) + Min) / 100` for a sample `r`, the raw price
  `price * (1 + change)`, `Math.Round(decimal, 2)` written out as
  round-half-to-even, and the clamp to the floor `MinPrice`.
- **Control state** (`control.dfy`, module `Control`): the `_isRunning` flag and
  the `_timer` field as a value, with the transitions of `StartSimulation`,
  `StopSimulation` and `Dispose` as functions, and sequences of start/stop calls.
- **Update cycle** (`price_cycle.dfy`, module `PriceCycle`): what one tick does to
  the stock table, as a specification, and the broadcast list it produces.
- **The service** (`stock_price_service.dfy`, class
  `PriceService.StockPriceService`): the same state as fields of a class. Its
  methods are proved against the two specifications above. `UpdatePrices` is the
  `foreach` loop over the table, with invariants.
- **Administration endpoints** (`admin_controller.dfy`, class
  `Admin.AdminController`): the status view, and restart/stop/start as service
  calls whose exceptions become status 500 replies.
- **Web pages** (`positions.dfy`, `quantity.dfy`, `portfolio_page.dfy`,
  `stocks_page.dfy`, `dashboard.dfy`): the live-price merge, totals and
  percentages, the search filter, the owned quantity, the popular-stocks slice and
  the buy/sell dialog. The portfolio and stocks pages each keep their state
  in a class whose handlers step the quantity and the balance; the dashboard
  is functions only.

The model keeps two behaviours of the service that are easy to miss, one of
`StartSimulation` and one of `Dispose`. First, `StartSimulation` sets
`_isRunning` before it builds the timer. The timer
constructor throws for a negative period or for one above 4294967294 ms.
Under such an interval a start throws, and the engine is then left reporting
"running" with no live timer (`Control.RefusedIntervalBreaksConsistency`).
Second, `Dispose` disposes the timer but leaves the flag. So "a live timer
exists exactly when running" is proved for every sequence of start and stop
calls under a start that cannot throw (`Control.RunKeepsConsistent`), and no
more.

Inputs the program takes from the world are parameters: the random sample and
the clock reading for each stock, whether the save and the broadcast complete,
the server's answers to the web pages, and the parse of a typed quantity.

## Model

| member | source | states |
|---|---|---|
| `Config.DefaultsAreSane` | backend/StockTrader.API/Models/StockSimulationConfig.cs:7-11 | defaults are interval 3 (positive and accepted by the timer), Min -5 <= Max 5, floor 0.01 > 0, enabled |
| `Config.RecordEnforcesNoConstraint` | backend/StockTrader.API/Models/StockSimulationConfig.cs:7-11 | a record with a non-positive interval and Min > Max is a value of the type |
| `Pricing.RoundHalfEvenInt` | backend/StockTrader.API/Services/StockPriceService.cs:89 | the result is within 1/2 of the input and is even on an exact tie |
| `Pricing.RoundHalfEven2` | backend/StockTrader.API/Services/StockPriceService.cs:89 | the result is a whole number of cents within half a cent of the input, and an input exactly half a cent from it goes to the even cent |
| `Pricing.RoundKeepsCents` | backend/StockTrader.API/Services/StockPriceService.cs:89 | a whole number of cents is left unchanged by the rounding |
| `Pricing.RoundIdempotent` | backend/StockTrader.API/Services/StockPriceService.cs:89 | rounding twice equals rounding once |
| `Pricing.RoundMonotone` | backend/StockTrader.API/Services/StockPriceService.cs:89 | rounding preserves order |
| `Pricing.HalfEvenScenario` | backend/StockTrader.API/Services/StockPriceService.cs:89 | midpoints go to the even cent: 1.125 to 1.12, 1.135 to 1.14 |
| `Config.Default` | backend/StockTrader.API/Models/StockSimulationConfig.cs:7-11 | the default settings have a positive interval the timer accepts, Min <= Max, a positive floor, and are enabled |
| `Pricing.ChangeFraction` | backend/StockTrader.API/Services/StockPriceService.cs:84-85 | for r in [0, 1] and Min <= Max the change fraction lies in [Min/100, Max/100]; r = 0 gives Min/100 and r = 1 gives Max/100 |
| `Pricing.RawPrice` | backend/StockTrader.API/Services/StockPriceService.cs:86 | for a non-negative price, r in [0, 1] and Min <= Max, the unrounded price lies between price x (1 + Min/100) and price x (1 + Max/100) |
| `Pricing.NextPrice` | backend/StockTrader.API/Services/StockPriceService.cs:84-89 | the new price is at or above MinPrice and is whole cents unless it is the floor itself |
| `Pricing.ChangeFractionInRange` | backend/StockTrader.API/Services/StockPriceService.cs:84-85 | for 0 <= r < 1 and Min <= Max the change is in [Min/100, Max/100], strictly below Max/100 when Min < Max |
| `Pricing.NextPriceBounds` | backend/StockTrader.API/Services/StockPriceService.cs:86-89 | the new price is the rounded raw price when that reaches the floor, the floor otherwise, and within half a cent of the raw price unless it is the floor |
| `Pricing.NextPriceMonotone` | backend/StockTrader.API/Services/StockPriceService.cs:86-89 | with a non-negative multiplier, a higher old price never gives a lower new price |
| `Pricing.DefaultScenarios` | backend/StockTrader.API/Services/StockPriceService.cs:84-89 | with default bounds, 100.00 goes to 100.00 for r = 0.5, 95.00 for r = 0 and 104.99 for r = 0.999 |
| `Pricing.FloorScenario` | backend/StockTrader.API/Services/StockPriceService.cs:89 | 0.02 with a -90 % change rounds to 0.00 and is clamped to the floor 0.01 |
| `Control.StartStep` | backend/StockTrader.API/Services/StockPriceService.cs:33-43 | no change when running or disabled; afterwards running iff it was running or is enabled; throws exactly when it takes effect and the timer refuses the interval, and then keeps the old timer field; otherwise a taking-effect start installs a live timer due at 0 with period interval x 1000 ms |
| `Control.StopStep` | backend/StockTrader.API/Services/StockPriceService.cs:45-52 | not running and no live timer afterwards; a timer field is present afterwards iff it was before (disposed, not cleared) |
| `Control.DisposeStep` | backend/StockTrader.API/Services/StockPriceService.cs:116-119 | the flag is kept, no live timer remains, and the timer field is present iff it was before |
| `Control.StartNoOp` | backend/StockTrader.API/Services/StockPriceService.cs:35 | start changes nothing and completes when running or disabled |
| `Control.StartFromStopped` | backend/StockTrader.API/Services/StockPriceService.cs:37-39 | from stopped and enabled, start sets running and installs one live timer with due time 0 and period interval x 1000 ms; it throws exactly when the timer refuses the interval |
| `Control.StopStops` | backend/StockTrader.API/Services/StockPriceService.cs:45-52 | stop leaves not running with no live timer from any state, and stopping twice equals stopping once |
| `Control.StartTwiceIsStartOnce` | backend/StockTrader.API/Services/StockPriceService.cs:33-43 | a second start right after a start changes nothing |
| `Control.RestartRunsIffEnabled` | backend/StockTrader.API/Services/StockPriceService.cs:35-47 | stop then start leaves running exactly when IsEnabled, from any state |
| `Control.ApplyKeepsConsistent` | backend/StockTrader.API/Services/StockPriceService.cs:33-52 | one start or stop keeps "running iff a live timer exists" and the timer matching the configuration, when start cannot throw |
| `Control.RunKeepsConsistent` | backend/StockTrader.API/Services/StockPriceService.cs:33-52 | any sequence of start and stop calls keeps "running iff a live timer exists", when start cannot throw |
| `Control.FromInitial` | backend/StockTrader.API/Services/StockPriceService.cs:17-19 | from the initial state (no timer, not running) the consistency holds after any call sequence |
| `Control.RefusedIntervalBreaksConsistency` | backend/StockTrader.API/Services/StockPriceService.cs:37-39 | with a refused interval, start from the initial state throws and leaves running with no timer, and a later start is a no-op |
| `Control.DisposeKeepsFlag` | backend/StockTrader.API/Services/StockPriceService.cs:116-119 | dispose leaves no live timer and keeps the flag, so a running engine is no longer consistent |
| `PriceCycle.UpdateStock` | backend/StockTrader.API/Services/StockPriceService.cs:80-90 | one stock keeps id, symbol and name, its previous price becomes its old price, its price becomes the formula on the old price (at or above the floor), and it takes the clock reading |
| `PriceCycle.Cycle` | backend/StockTrader.API/Services/StockPriceService.cs:78-101 | the table keeps its length, every stock keeps its id, and every new price is at or above the floor |
| `PriceCycle.Dtos` | backend/StockTrader.API/Services/StockPriceService.cs:92-100 | one broadcast record per stock, in table order, with the stock's fields |
| `PriceCycle.CycleAt` | backend/StockTrader.API/Services/StockPriceService.cs:78-101 | stock k after the cycle is stock k updated with sample k and clock reading k |
| `PriceCycle.CycleProperties` | backend/StockTrader.API/Services/StockPriceService.cs:78-101 | after a cycle every stock keeps id/symbol/name, its previous price is its old price, its price is the formula on the old price and at or above the floor, and it carries its clock reading |
| `PriceCycle.CyclePrefix` | backend/StockTrader.API/Services/StockPriceService.cs:78-101 | stocks are updated one after the other in table order |
| `PriceService.StockPriceService.constructor` | backend/StockTrader.API/Services/StockPriceService.cs:17-31 | a new service is not running, has no timer, has sent nothing and captures its settings once |
| `PriceService.StockPriceService.StartSimulation` | backend/StockTrader.API/Services/StockPriceService.cs:33-43 | the new state is the start transition of the old one; exactly one timer is built when start takes effect and completes; consistency is kept when start cannot throw |
| `PriceService.StockPriceService.StopSimulation` | backend/StockTrader.API/Services/StockPriceService.cs:45-52 | the new state is the stop transition: not running, no live timer |
| `PriceService.StockPriceService.IsRunning` | backend/StockTrader.API/Services/StockPriceService.cs:61-64 | returns the running flag |
| `PriceService.StockPriceService.Dispose` | backend/StockTrader.API/Services/StockPriceService.cs:116-119 | the timer is disposed and the flag kept |
| `PriceService.StockPriceService.UpdatePrices` | backend/StockTrader.API/Services/StockPriceService.cs:66-114 | not running: nothing changes and nothing is sent; running: the table becomes the cycle's result only if the save succeeds, and the list of one record per updated stock is sent only if both the save and the send succeed |
| `Admin.StatusOf` | backend/StockTrader.API/Controllers/AdminController.cs:29-40 | the status reports the live running flag as isEnabled and copies the four other settings from the snapshot |
| `Admin.Reply` | backend/StockTrader.API/Controllers/AdminController.cs:45-57 | success with the action's message exactly when the service call completed, status 500 with the failure message when it threw |
| `Admin.AdminController.constructor` | backend/StockTrader.API/Controllers/AdminController.cs:18-26 | the controller holds the request's settings snapshot and the service |
| `Admin.AdminController.GetSimulationConfig` | backend/StockTrader.API/Controllers/AdminController.cs:29-40 | returns the status view of the snapshot and the service's live flag |
| `Admin.AdminController.RestartSimulation` | backend/StockTrader.API/Controllers/AdminController.cs:43-58 | the service undergoes stop then start, ends running iff its IsEnabled, and the reply is success unless the start threw |
| `Admin.AdminController.StopSimulation` | backend/StockTrader.API/Controllers/AdminController.cs:61-74 | the service undergoes stop and the reply is success |
| `Admin.AdminController.StartSimulation` | backend/StockTrader.API/Controllers/AdminController.cs:77-90 | the service undergoes start; the reply is success whenever the start did not throw, including when it was a no-op |
| `Positions.TotalValue` | frontend/src/pages/Portfolio.tsx:89-93 | sum of current price x quantity; non-negative when all prices and quantities are |
| `Positions.TotalInvested` | frontend/src/pages/Portfolio.tsx:102-106 | sum of average price x quantity; non-negative when all costs and quantities are |
| `Positions.ChangePercentage` | frontend/src/pages/Portfolio.tsx:127 | 0 when invested is not positive; otherwise pct x invested = change x 100, with the sign of the change |
| `Positions.InvestedDependsOnCosts` | frontend/src/pages/Portfolio.tsx:102-106 | positions agreeing on quantity and average price have the same invested total |
| `Quantity.ParsedOrOne` | frontend/src/pages/Portfolio.tsx:351 | never 0; a non-zero parse is kept; unparsable text or a parsed 0 becomes 1 |
| `Quantity.TypedQuantity` | frontend/src/pages/Portfolio.tsx:350-354 | at least 1 when buying, at most owned when selling, in [1, owned] when owned >= 1; an acceptable typed value is kept; unparsable text or a value below 1 gives 1; when selling, a value above owned gives owned |
| `Quantity.Decremented` | frontend/src/pages/Portfolio.tsx:339 | never below 1, one less when the quantity is at least 2 |
| `Quantity.Incremented` | frontend/src/pages/Portfolio.tsx:358-361 | one more when buying; when selling never above owned, and one more while below owned |
| `Quantity.InitialSellQuantity` | frontend/src/pages/Stocks.tsx:161 | a sell dialog opens with 1 when something is owned, never above owned |
| `Quantity.ControlsKeepRange` | frontend/src/pages/Stocks.tsx:203-224 | for an owned quantity of at least 1, minus, plus and typing keep the quantity in [1, owned] when selling and >= 1 when buying, and both dialogs open in range |
| `Quantity.BalanceAfter` | frontend/src/pages/Stocks.tsx:54-60 | a buy lowers the balance by the total, a sell raises it by the total |
| `Quantity.BuyThenSellRestoresBalance` | frontend/src/pages/Stocks.tsx:54-60 | buying and then selling for the same total gives back the balance |
| `PortfolioPage.FindQuote` | frontend/src/pages/Portfolio.tsx:31 | None exactly when no live stock has the id; otherwise the first live stock with that id |
| `PortfolioPage.MergeLivePrices` | frontend/src/pages/Portfolio.tsx:29-44 | same length and order; every position keeps id, stockId, quantity, average price and stock id/symbol/name; a position with a matching live stock takes its three price fields, one without is unchanged |
| `PortfolioPage.MergeIdempotent` | frontend/src/pages/Portfolio.tsx:29-44 | merging the same live list twice equals merging it once |
| `PortfolioPage.MergeKeepsInvested` | frontend/src/pages/Portfolio.tsx:29-44 | live prices do not change the invested total |
| `PortfolioPage.ItemChange` | frontend/src/pages/Portfolio.tsx:108-110 | a position's change is its value less its cost |
| `PortfolioPage.ItemChangePercentage` | frontend/src/pages/Portfolio.tsx:112-114 | a number exactly when the average price is non-zero, and then pct x average = (current - average) x 100 |
| `PortfolioPage.TotalChange` | frontend/src/pages/Portfolio.tsx:95-100 | the sum of per-position changes equals total value less total invested |
| `PortfolioPage.TotalChangePercentage` | frontend/src/pages/Portfolio.tsx:124-127 | 0 when the invested total is not positive; otherwise pct x invested = (value - invested) x 100 |
| `PortfolioPage.PortfolioScreen.constructor` | frontend/src/pages/Portfolio.tsx:12-20 | empty portfolio, no dialog, quantity 1, buying |
| `PortfolioPage.PortfolioScreen.ApplyLivePrices` | frontend/src/pages/Portfolio.tsx:27-47 | the portfolio becomes the merge with the live list; with either list empty it is unchanged |
| `PortfolioPage.PortfolioScreen.LoadPortfolio` | frontend/src/pages/Portfolio.tsx:49-59 | a fetched list replaces the portfolio; a failed fetch keeps it |
| `PortfolioPage.PortfolioScreen.OpenBuy` | frontend/src/pages/Portfolio.tsx:265-269 | the dialog opens on the position for buying with quantity 1 |
| `PortfolioPage.PortfolioScreen.OpenSell` | frontend/src/pages/Portfolio.tsx:277-281 | the dialog opens on the position for selling with quantity min(1, held) |
| `PortfolioPage.PortfolioScreen.Decrement` | frontend/src/pages/Portfolio.tsx:339 | quantity steps down, never below 1, and stays in range |
| `PortfolioPage.PortfolioScreen.Increment` | frontend/src/pages/Portfolio.tsx:358-361 | quantity steps up, capped at the held quantity when selling, and stays in range |
| `PortfolioPage.PortfolioScreen.TypeQuantity` | frontend/src/pages/Portfolio.tsx:350-354 | quantity becomes the typed value clamped to [1, held] when selling and to >= 1 when buying |
| `PortfolioPage.PortfolioScreen.SellAll` | frontend/src/pages/Portfolio.tsx:370 | quantity becomes the held quantity |
| `PortfolioPage.PortfolioScreen.Cancel` | frontend/src/pages/Portfolio.tsx:393 | the dialog closes |
| `PortfolioPage.PortfolioScreen.HandleTransaction` | frontend/src/pages/Portfolio.tsx:61-87 | no-op without a selection, a user or a positive quantity, or when the request fails; otherwise the balance moves by the total, the dialog closes, quantity resets to 1 and the portfolio is reloaded if the fetch succeeds |
| `StocksPage.Lower` | frontend/src/pages/Stocks.tsx:23 | same length, each character lowercased |
| `StocksPage.Includes` | frontend/src/pages/Stocks.tsx:23-24 | the empty term is included in every string, and an included term is never longer than the string |
| `StocksPage.IncludesAt` | frontend/src/pages/Stocks.tsx:23-24 | `includes` holds exactly when the term occurs at some offset |
| `StocksPage.FilterStocks` | frontend/src/pages/Stocks.tsx:22-25 | a stock is kept iff its lowercased symbol or name contains the lowercased term; never longer than the list |
| `StocksPage.FilterIsSubsequence` | frontend/src/pages/Stocks.tsx:22-25 | the filtered list is an order-preserving sublist of the stocks |
| `StocksPage.EmptyTermKeepsAll` | frontend/src/pages/Stocks.tsx:22-25 | an empty search keeps every stock |
| `StocksPage.OwnedQuantity` | frontend/src/pages/Stocks.tsx:41-44 | the quantity of the first position of the stock, 0 when there is none |
| `StocksPage.SellEnabled` | frontend/src/pages/Stocks.tsx:163 | the sell button is enabled only for a stock that has a position in the loaded portfolio |
| `StocksPage.StocksScreen.constructor` | frontend/src/pages/Stocks.tsx:15-20 | empty portfolio, no dialog, quantity 1, buying |
| `StocksPage.StocksScreen.LoadPortfolio` | frontend/src/pages/Stocks.tsx:28-38 | a fetched list replaces the portfolio; a failed fetch keeps it |
| `StocksPage.StocksScreen.OpenBuy` | frontend/src/pages/Stocks.tsx:147-151 | the dialog opens on the stock for buying with quantity 1 |
| `StocksPage.StocksScreen.OpenSell` | frontend/src/pages/Stocks.tsx:158-163 | reachable only when something is owned; the dialog opens for selling with quantity min(1, owned) = 1 |
| `StocksPage.StocksScreen.Decrement` | frontend/src/pages/Stocks.tsx:203 | quantity steps down, never below 1, and stays in range |
| `StocksPage.StocksScreen.Increment` | frontend/src/pages/Stocks.tsx:222-225 | quantity steps up, capped at the owned quantity when selling, and stays in range |
| `StocksPage.StocksScreen.TypeQuantity` | frontend/src/pages/Stocks.tsx:214-218 | quantity becomes the typed value clamped to [1, owned] when selling and to >= 1 when buying |
| `StocksPage.StocksScreen.SellAll` | frontend/src/pages/Stocks.tsx:234 | quantity becomes the owned quantity |
| `StocksPage.StocksScreen.Cancel` | frontend/src/pages/Stocks.tsx:255 | the dialog closes |
| `StocksPage.StocksScreen.HandleTransaction` | frontend/src/pages/Stocks.tsx:46-75 | no-op without a selection, a user or a positive quantity, or when the request fails; otherwise the balance moves by the total, the dialog closes, quantity resets to 1 and the portfolio is reloaded if the fetch succeeds |
| `Dashboard.InitialStats` | frontend/src/pages/Dashboard.tsx:19-24 | the statistics before loading are those of an empty portfolio |
| `Dashboard.ComputeStats` | frontend/src/pages/Dashboard.tsx:33-47 | value is the sum of price x quantity, value less change is the invested sum, the percentage is 0 when nothing is invested and change/invested x 100 otherwise, the count is the portfolio length |
| `Dashboard.LoadStats` | frontend/src/pages/Dashboard.tsx:28-53 | a failed fetch keeps the statistics; a fetched portfolio gives all four statistics of that portfolio (value, change, percentage, count) |
| `Dashboard.DashboardAgreesWithPortfolioPage` | frontend/src/pages/Dashboard.tsx:39-40 | the dashboard's change and percentage equal the portfolio page's for the same positions |
| `Dashboard.PopularStocks` | frontend/src/pages/Dashboard.tsx:60 | the first min(6, n) stocks, as a prefix of the list |

## Left out

- Timer scheduling and threading: `System.Threading.Timer` firing, the `async void` callback and the unsynchronised flag shared by the timer thread and the callers. A tick is an explicit call of `UpdatePrices`; no claim is made about interleavings or tick counts.
- Randomness: `Random.NextDouble` is a parameter, one sample per stock.
- Floating point: the double percent arithmetic, its cast to decimal, and decimal's 28-digit precision and overflow are modelled as exact real arithmetic. Only the rounding to cents is written out.
- Clock: `DateTime.UtcNow` is a parameter, one reading per stock. Time stamps are not claimed to increase.
- Storage: the table read (`ToListAsync`) always succeeds; a failing read would be caught and do nothing. `GetCurrentPrices` only reads the table and is not modelled.
- SignalR: the broadcast to the "StockPrices" group is an append to a ghost list of sent messages.
- Configuration reload: the service keeps the settings it was built with. The controller's per-request snapshot is a separate value.
- HTTP and logging: routing, authorisation, log lines and the reply wrappers beyond success versus status 500.
- Front-end plumbing: rendering, toasts, navigation, the API client, effect scheduling, the loading and in-progress flags, and number formatting.
- The page for the administrator: it only renders and calls the endpoints.
- Button enabling: the buy button is disabled when price x quantity exceeds the balance. The minus button is disabled at quantity 1. Neither is modelled; the sell button's condition is `StocksPage.SellEnabled`.
- The front-end types file is not part of this model. Positions and stocks carry only the fields the pages use, and time stamps are integers.
- StocksPage.Lower: lowercases only the letters A to Z, not the full Unicode mapping of `toLowerCase`.
- Quantity.ParsedOrOne: takes the result of `parseInt` as a parameter and does not model parsing the text.
- JavaScript numbers are exact reals. A division by zero in the item percentage is represented as a non-number value, not as the sign of the infinity.
