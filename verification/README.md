# The trading cycle, modelled and proved

This project models the trading bot as a state machine over its committed tables and
proves what its design promises over whole runs. One step is one invocation: fetch
market data, evaluate the moving average crossover, load cash and position, apply the
risk policy, submit, fold the fills into the ledger, write one equity snapshot, and
commit all of it or nothing.

`dafny verify dfyconfig.toml` checks the whole project.

## How to read it

| file | what it holds |
|---|---|
| `Decimals`, `Results`, `Text` | exact decimals with the roundings the bot performs; options and results; numerals |
| `Timeframes`, `CycleIds` | bar durations, bar alignment, and the ids derived from bars |
| `Market`, `Orders`, `Portfolio`, `Ledger` | the domain values and the fold of fills into cash and position |
| `SmaCrossover`, `Policy`, `Simulator` | strategy, risk policy, simulated venue |
| `Repository`, `Cycle` | the tables, a session on them, the cycle, and the process around it |
| `Runs` | serial runs of cycles of any number of bots, and the part of the tables (the book) one symbol sees |
| `Guards` | why a cycle ends early, and what it has seen when it sends an order |
| `Caches`, `Conservation`, `Limits`, `Solvency`, `Days`, `Bars`, `Isolation`, `Recovery` | the properties of whole runs |
| `Examples` | concrete runs on which a promise of the design ends |

Code that the bot runs step by step is a method proved against a function: the ledger
loop, the candle loop, the policy branches that append to a shared list of checks, the
session's writes, the cycle itself. The properties are lemmas about those functions.

Amounts are reals, so division and multiplication are exact; every explicit
`quantize` is written out, and so is the rounding of the NUMERIC(38, 18) columns.
`CENT`, `LOT` and `COLUMN` name a grid by its units per one. Moments are microseconds
from the epoch in UTC. The strategy's BUY and SELL are called `GoLong` and `GoFlat`, to
keep them apart from the sides of an order. The venue's answers, the clocks, the kill
switch and the generator's draws are parameters.

## Assumptions of the run theorems

- `Serial`: cycles of one symbol start at strictly increasing times; cycles of
  different symbols may start in any order. Commits are one after the other.
- `TradedBy`: one bot configuration per symbol.
- The gateway answers for the symbol and timeframe asked, with a valid snapshot.
- `PreciseRun`, only where money is compared exactly: the initial cash is on the cash
  grid, and a sandbox venue reports quantities in eight decimals and prices and fees on
  the price scale. Simulated fills need no such assumption.
- The position limit assumes of a sandbox venue that it fills no more than was asked.
- `Recovery` assumes neither clocks nor a single bot. It assumes a venue that executes
  an id at most once and, when its answer arrives, answers with what it executed, in
  quantities that the columns hold.

## Where the code and its documentation part

- The simulator says that slippage always works against the bot. Rounding to cents
  breaks that for reference prices off the cent grid (`SubCentMarkIsBoughtBelow`);
  `SlippageCostsExactlyWhen` says exactly when it holds, and `SlippageCosts` that it
  always does for prices in cents.
- The database is called the authoritative ledger, derived from recorded fills. Its
  caches are the fold of those fills exactly as long as the columns can hold what is
  saved: `CashKeptExactlyWhen` and `AverageKeptExactlyWhen` give the condition for one
  execution. Cash and quantity keep it in every precise run; the average price, a
  quotient, need not, and stays within a known distance (`CachesNeverDrift`).
  `ColumnsCanRoundCash` and `ColumnsCanRoundAverage` are runs of one and two cycles
  after which the cache is not the fold.
- The daily loss is said to be measured against the day's first snapshot. The first
  cycle measures against its own equity before trading, so it always passes; later
  ones measure against the first snapshot's equity after trading, so the costs of the
  day's first trade never count as a loss.
- The venue's rejection of a repeated client order id prevents a doubled position, and
  with it the lost fill is never recorded: the retry is stored as rejected, and venue
  and database stay apart by that fill (`CrashLosesExecution`). A reply lost in the
  gateway's catch-all has the same effect without any crash, and so has a venue that
  sells more than is held, because the ledger then rolls the cycle back.
- A timeframe followed by one newline is accepted, because the pattern ends in `$`.
- Cycle ids are meant to identify a symbol's bar, but symbols that differ only in
  punctuation or case share them, and the duplicate check looks at all symbols. The
  order of one then keeps the other from trading (`OneSpellingSuppresses`).
  `SuppressedExactlyWhen` says when that happens; with distinct spellings symbols do
  not interfere at all (`SymbolsDoNotInterfere`).

## Model

| member | source | states |
|---|---|---|
| `Decimals.RoundDownIsGreatest` | src/trading_bot/policy/engine.py:224-231 | rounding a size down gives the greatest multiple of the step that does not exceed it |
| `Decimals.RoundHalfUpExactlyWhen` | src/trading_bot/exchange/simulated.py:127-128 | half-up rounding gives a value exactly when that is on the grid and nearest, the one away from zero if two are equally near |
| `Decimals.RoundHalfUpMonotone` | src/trading_bot/exchange/simulated.py:127-128 | half-up rounding keeps the order of prices, so rounded lows, opens, closes and highs stay ordered |
| `Decimals.StoredOnce` | src/trading_bot/persistence/models.py:17-18 | a column value read back and written again does not change; exactly the multiples of 1e-18 are stored without loss |
| `Text.AppendedDigit` | src/trading_bot/exchange/timeframes.py:21 | digits are read by place, in tens |
| `Timeframes.TimeframeReadBack` | src/trading_bot/exchange/timeframes.py:15-25 | every amount of at least one is read as that many minutes, hours, days or weeks, in microseconds, also after leading zeros and with a final newline |
| `Timeframes.OnlyWrittenIsRead` | src/trading_bot/exchange/timeframes.py:15-25 | nothing else is accepted |
| `Timeframes.ParsedTimeframe` | src/trading_bot/exchange/timeframes.py:15-25 | whatever is accepted lasts a minute or more and is spelled without a dash |
| `Timeframes.FloorIsBarStart` | src/trading_bot/exchange/timeframes.py:28-37 | the bar start is the greatest whole multiple of the step since the epoch not after the given moment, less than a step before it |
| `Timeframes.ShiftedFloor` | src/trading_bot/exchange/timeframes.py:28-37 | bars are evenly spaced: shifting by whole steps shifts the bar start by as much |
| `CycleIds.CycleIdIdentifiesBar` | src/trading_bot/cycle.py:46-57 | two cycle ids are equal exactly when condensed symbol and timeframe are and the opening times, in microseconds, fall into one whole second |
| `CycleIds.WholeSeconds` | src/trading_bot/cycle.py:56 | opening times on whole seconds fall into one only if equal, and none two seconds apart do |
| `CycleIds.BarsHaveTheirOwnIds` | src/trading_bot/cycle.py:46-57 | two bars of one aligned series share an id only if they are the same bar |
| `CycleIds.CycleIdOfWholeSecond` | src/trading_bot/cycle.py:55-57 | the id spelled out: condensed symbol, timeframe and seconds since the epoch |
| `CycleIds.CondensedKeeps` | src/trading_bot/cycle.py:55 | the condensed symbol holds exactly the ASCII letters and digits, in order and in capitals |
| `CycleIds.ClientOrderIdIdentifiesOrder` | src/trading_bot/policy/engine.py:209-210 | a client order id determines both the cycle and the side |
| `CycleIds.ClientOrderIdEnds` | src/trading_bot/policy/engine.py:210 | it is the cycle id followed by -buy for a buy and -sell for a sell |
| `Market.CandleValidExactlyWhen` | src/trading_bot/domain/market.py:18-34 | a candle passes exactly when its body lies between a positive low and the high, with a volume that is not negative |
| `Market.SnapshotValidExactlyWhen` | src/trading_bot/domain/market.py:45-68 | a snapshot passes exactly when it has candles, all valid and of its symbol, each opening after the one before |
| `Portfolio.Position.Apply` | src/trading_bot/domain/portfolio.py:18-45 | a fill applies exactly when its symbol matches and it does not sell more than is held; quantity moves by the signed fill; a sale keeps the average price, an exact close resets it; the result is a valid position (what a buy averages to is `HoldingAtCost`) |
| `Ledger.HoldingAtCost` | src/trading_bot/domain/portfolio.py:28-45 | quantity times average price grows by what a buy paid and shrinks by what a sale had cost, across exact closes |
| `Ledger.ApplyExecution` | src/trading_bot/execution/ledger.py:17-42 | the loop over the fills computes their fold, or the first error |
| `Ledger.FoldJoins` | src/trading_bot/execution/ledger.py:34-42 | folding two executions one after the other is folding all their fills |
| `Ledger.FoldConserves` | src/trading_bot/execution/ledger.py:34-42 | cash moves by the sum of the cash flows, quantity by the sum of signed quantities, fees are the sum of the fees |
| `Ledger.RealisedProfitIdentity` | src/trading_bot/domain/portfolio.py:18-45 | cash plus holding at cost is the start plus realised profit minus fees, for every fill sequence that can be applied |
| `Ledger.AverageWithinOpenLots` | src/trading_bot/domain/portfolio.py:28-45 | an open position has a price paid since it was last zero, and all bounds on such prices bound the average price |
| `Ledger.PurchaseOrderIsIrrelevant` | src/trading_bot/execution/ledger.py:34-42 | permuting the fills of an all-buy execution changes neither cash, quantity, average price, fees nor the error |
| `Policy.PolicyEngine.Decide` | src/trading_bot/policy/engine.py:32-98 | the branches that append to one list of checks reach the verdict defined by the first failed check |
| `Policy.PolicyEngine.DecideBuy` | src/trading_bot/policy/engine.py:100-149 | the buy branch extends the list by the buy checks up to the first failure and submits only if there is none |
| `Policy.PolicyEngine.DecideSell` | src/trading_bot/policy/engine.py:151-181 | the sell branch extends the list by the sell checks up to the first failure and submits only if there is none |
| `Policy.PolicyEngine.Finalise` | src/trading_bot/policy/engine.py:183-222 | the last check decides between an intent and a refusal |
| `Policy.AuditTrail` | src/trading_bot/policy/engine.py:42-222 | a decision submits exactly when every recorded check passed; a refusal has one failure, the last; names follow the buy or sell sequence without repeats |
| `Policy.ChecksTellTheTruth` | src/trading_bot/policy/engine.py:42-207 | every recorded check passed exactly when its own condition on the request holds, and a refusal ends with the first condition of the sequence that fails |
| `Policy.SubmittedExactlyWhen` | src/trading_bot/policy/engine.py:44-207 | an order is submitted exactly when nothing has tripped and some order size on the grid fits strength, headroom, cash or holding, and the minimum |
| `Policy.TrippedMeansRefused` | src/trading_bot/policy/engine.py:44-69 | an engaged kill switch or a breached daily loss always refuses |
| `Policy.BuyIsLargestAllowed` | src/trading_bot/policy/engine.py:110-149 | a submitted buy is the greatest multiple of 1e-8 whose notional fits strength times limit, limit minus held notional, and cash; it is at least the minimum and keeps the position within the limit |
| `Policy.SellIsWithinHolding` | src/trading_bot/policy/engine.py:161-181 | a submitted sell is the greatest multiple of 1e-8 within strength times the holding, never more than the holding |
| `SmaCrossover.MeanOfConstant` | src/trading_bot/strategy/sma_crossover.py:9-10 | the mean of one constant is that constant |
| `SmaCrossover.MeanSlides` | src/trading_bot/strategy/sma_crossover.py:9-10 | moving a window of n on by a bar changes n times the mean by the entering close minus the leaving one |
| `SmaCrossover.MeanIgnoresOrder` | src/trading_bot/strategy/sma_crossover.py:9-10 | the mean does not depend on the order of its values |
| `SmaCrossover.SpreadSlides` | src/trading_bot/strategy/sma_crossover.py:59-62 | from bar to bar the spread moves by what enters and leaves the two windows, each over its length |
| `SmaCrossover.OpinionStrength` | src/trading_bot/strategy/sma_crossover.py:49-96 | strength is in [0, 1] and positive exactly when the action is not HOLD |
| `SmaCrossover.OpinionIsOfNewestAverages` | src/trading_bot/strategy/sma_crossover.py:59-96 | the strength of a signal is that of the newest fast and slow average |
| `SmaCrossover.StrengthIsProportional` | src/trading_bot/strategy/sma_crossover.py:87-96 | strength is one exactly from the full relative spread on, and proportional to the spread below it |
| `SmaCrossover.OlderClosesAreIgnored` | src/trading_bot/strategy/sma_crossover.py:50-62 | only the last slow + 1 closes matter |
| `SmaCrossover.PriceUnitIsIrrelevant` | src/trading_bot/strategy/sma_crossover.py:59-96 | multiplying all closes by a positive constant changes neither action nor strength |
| `SmaCrossover.SignalIsTransition` | src/trading_bot/strategy/sma_crossover.py:64-72 | a signal on a bar is exactly a change of side between that bar and the one before |
| `SmaCrossover.ExitIsNeverMissed` | src/trading_bot/strategy/sma_crossover.py:59-72 | from a bar with fast not below slow to a later one with fast below, a SELL fires in between |
| `SmaCrossover.EntryIsNeverMissed` | src/trading_bot/strategy/sma_crossover.py:59-72 | from a bar with fast not above slow to a later one with fast above, a BUY fires in between |
| `SmaCrossover.EntriesAreSeparated` | src/trading_bot/strategy/sma_crossover.py:64-72 | between two BUYs lies a bar with fast not above slow, and a SELL unless the averages were equal somewhere between |
| `SmaCrossover.ExitsAreSeparated` | src/trading_bot/strategy/sma_crossover.py:64-72 | between two SELLs lies a bar with fast not below slow, and a BUY unless the averages were equal somewhere between |
| `Simulator.SimulatedVenue.FetchSnapshot` | src/trading_bot/exchange/simulated.py:59-86 | the candle loop yields exactly `limit` aligned, evenly spaced, valid candles of the walk, each opening at the previous close; mark and closes are the walk in cents; it fails exactly when the limit is not positive or some low rounds away |
| `Simulator.SimulatedVenue.BarHolds` | src/trading_bot/exchange/simulated.py:71-83 | a bar holds open, high, low and close in cents and the drawn volume |
| `Simulator.SimulatedVenue.WalkFollowsShocks` | src/trading_bot/exchange/simulated.py:109-111 | the walk moves by the drawn shock times the volatility, and stays at or above a cent |
| `Simulator.SimulatedVenue.ShadowsAreDrift` | src/trading_bot/exchange/simulated.py:71-80 | high and low lie exactly the drawn drift beyond the bar, so the clamps never cut |
| `Simulator.SimulatedVenue.BarValidity` | src/trading_bot/exchange/simulated.py:71-81 | a rounded bar passes the candle validators exactly when its raw low is at least half a cent |
| `Simulator.SimulatedVenue.ModestDriftNeverFails` | src/trading_bot/exchange/simulated.py:109-114 | with a start price of a cent or more and downward drifts up to one half no bar is invalid, whatever is drawn |
| `Simulator.SimulatedVenue.NewestBarIsFresh` | src/trading_bot/exchange/simulated.py:60-62 | with a gateway clock not behind the cycle clock the newest bar is under two bars old and never stale |
| `Simulator.SimulatedVenue.FillIsOnGrid` | src/trading_bot/exchange/simulated.py:88-107 | prices and fees of fills are whole cents, and an order is answered exactly when its slipped price is at least half a cent |
| `Simulator.SimulatedVenue.AnswerToOrder` | src/trading_bot/exchange/simulated.py:88-107 | the answer is one complete fill under the id, symbol and side of the order, with status filled |
| `Simulator.SimulatedVenue.FillIsNearReference` | src/trading_bot/exchange/simulated.py:89-91 | the fill price is the reference price moved against the side and rounded half up to cents |
| `Simulator.SimulatedVenue.FeeIsNearShare` | src/trading_bot/exchange/simulated.py:92 | the fee is its share of the notional rounded half up to cents |
| `Simulator.SimulatedVenue.SlippageCosts` | src/trading_bot/exchange/simulated.py:116-124 | for reference prices in cents slippage never favours the bot, despite rounding |
| `Simulator.SimulatedVenue.SlippageCostsExactlyWhen` | src/trading_bot/exchange/simulated.py:116-128 | for any reference price, the exact bound on the slipped price under which it does not favour the bot |
| `Simulator.SubCentMarkIsBoughtBelow` | src/trading_bot/exchange/simulated.py:116-128 | the docstring fails off the cent grid: without slippage 0.014 is bought at 0.01 |
| `Repository.LatestSnapshotFor` | src/trading_bot/persistence/repository.py:31-37 | the answer is a snapshot of the symbol and none of the symbol is newer |
| `Repository.FirstSnapshotSince` | src/trading_bot/persistence/repository.py:54-66 | the answer is a snapshot of the symbol since the moment and none such is older |
| `Repository.SignalRowHolds` | src/trading_bot/persistence/repository.py:96-108 | a signal row holds cycle, symbol, action, time, and the strength in five decimals |
| `Repository.OrderRowHolds` | src/trading_bot/persistence/repository.py:111-145 | an order row holds intent, status, venue id and fills, amounts in eighteen decimals |
| `Repository.FillRowHolds` | src/trading_bot/persistence/repository.py:133-142 | a fill row holds the fill, amounts in eighteen decimals |
| `Repository.SnapshotRowHolds` | src/trading_bot/persistence/repository.py:165-182 | a snapshot row holds the snapshot, amounts in eighteen decimals |
| `Repository.Session.RecordSignal` | src/trading_bot/persistence/repository.py:96-108 | appends one signal row, without its texts, and changes no other table |
| `Repository.Session.RecordExecution` | src/trading_bot/persistence/repository.py:111-145 | appends one order row with its fills, without its texts, and changes no other table |
| `Repository.Session.SavePosition` | src/trading_bot/persistence/repository.py:148-162 | overwrites or adds the row of one symbol and changes no other |
| `Repository.Session.RecordEquitySnapshot` | src/trading_bot/persistence/repository.py:165-182 | appends one snapshot row and changes no other table |
| `Cycle.TradingCycle.Run` | src/trading_bot/cycle.py:94-221 | the step by step cycle ends as the cycle function says: the same report and tables, or the same error |
| `Cycle.Database.Invoke` | src/trading_bot/__main__.py:29-40 | a completed cycle is committed, an aborted one leaves the tables as they were |
| `Cycle.SignalFor` | src/trading_bot/strategy/sma_crossover.py:49-85 | every signal is valid and carries the symbol of its snapshot |
| `Guards.EndsEarlyExactlyWhen` | src/trading_bot/cycle.py:94-126 | a cycle ends before the policy exactly when data is missing, the timeframe is not readable, the newest bar opened more than three steps ago, or the account is refused |
| `Guards.EndsAtVenueExactlyWhen` | src/trading_bot/cycle.py:152-171 | the venue is asked exactly for a decided, unseen intent, and only its failure aborts there |
| `Guards.ReportsWhatHappened` | src/trading_bot/cycle.py:152-177 | a completed cycle reports an execution exactly when it sent one, and a suppressed duplicate exactly when its id was used before |
| `Guards.AccountRefusedExactlyWhen` | src/trading_bot/persistence/repository.py:84-93 | in a run loading fails exactly when the day's opening equity is not positive |
| `Guards.SentOrderIsOfThisCycle` | src/trading_bot/cycle.py:94-165 | a sent order was decided on a bar at most three steps old with the kill switch off, at the newest close, on the side the closes call for, under the id of the newest bar |
| `Guards.KillSwitchStopsTrading` | src/trading_bot/policy/engine.py:44-52 | with the kill switch on nothing reaches the venue, and the decision holds that one failed check |
| `Runs.CycleWrites` | src/trading_bot/cycle.py:112-196 | a completed cycle adds one signal and one snapshot, and an order and a position exactly when an unseen intent was answered |
| `Runs.AccountFromBook` | src/trading_bot/persistence/repository.py:69-93 | the loaded account is cash of the newest snapshot, the position row and the first equity of the day, from the rows of the own symbol only; loading fails exactly when that account is not valid |
| `Runs.CycleMovesOneBook` | src/trading_bot/cycle.py:94-196 | a completed cycle advances the book of its symbol and no other |
| `Runs.OtherSymbolsStay` | src/trading_bot/persistence/repository.py:84-93 | cycles for another symbol leave cash, position, orders and snapshots of a symbol unchanged |
| `Runs.RunIsSound` | src/trading_bot/persistence/repository.py:148-182 | in every run snapshots are in time order, no position is negative, and the newest snapshot shows the quantity of the position row |
| `Caches.IntentIsSound` | src/trading_bot/policy/engine.py:209-222 | every intent is valid, on the size grid, at the mark, for the side of its signal, and sells no more than is held |
| `Caches.AverageDoesNotDiverge` | src/trading_bot/domain/portfolio.py:28-45 | two holdings of one size never grow further apart in average price under the same fills |
| `Caches.RunStaysOnGrids` | src/trading_bot/persistence/models.py:17-18 | in every precise run quantities stay multiples of 1e-8 and cash of 1e-10 (cents) or 1e-16 (eight decimals) |
| `Caches.GridStep` | src/trading_bot/cycle.py:172-196 | what a cycle saves of quantity, cash, mark, equity and fills is what it computed |
| `Caches.CachesNeverDrift` | src/trading_bot/persistence/repository.py:76-93 | in every serial run cash and quantity equal the fold of all committed fills; the average price is within half a unit of the 18th decimal per saved order |
| `Caches.LoadedAccountIsTheFold` | src/trading_bot/persistence/repository.py:84-93 | what load_account_state returns after any run is that fold, the average price within that distance |
| `Caches.CashKeptExactlyWhen` | src/trading_bot/persistence/models.py:17-18 | for any venue and any fills, one execution keeps cash equal to the fold exactly when the recorded fills can be applied and move what the column makes of the cash moved; for fills recorded exactly, when the cash moved fits the column |
| `Caches.AverageKeptExactlyWhen` | src/trading_bot/persistence/models.py:83-89 | the same for the average price; for fills recorded exactly it stays the fold exactly when the new average fits the column |
| `Examples.ColumnsCanRoundCash` | src/trading_bot/persistence/models.py:65-77 | a run of one cycle whose fill is stored exactly but whose cash is not |
| `Examples.ColumnsCanRoundAverage` | src/trading_bot/persistence/models.py:83-89 | a run of two cycles, one bought at 1 and two at 2, after which the saved average price is not the fold |
| `Conservation.ExecutionAtMark` | src/trading_bot/execution/ledger.py:34-42 | at the mark an execution costs exactly its slippage and its fees |
| `Conservation.EquityIsConserved` | src/trading_bot/cycle.py:187-195 | every recorded equity is initial cash plus held quantity times mark changes minus slippage minus fees |
| `Conservation.SimulatedRunPaysSlippage` | src/trading_bot/exchange/simulated.py:88-124 | with marks in cents no order of a simulated run has negative slippage |
| `Conservation.TradingNeverGains` | src/trading_bot/exchange/simulated.py:88-124 | so trading alone never raises equity at the mark |
| `Conservation.RunStoresOnGrids` | src/trading_bot/persistence/models.py:92-103 | with marks on the price scale every stored cash and equity is on the cash grid |
| `Limits.HonestFillsFold` | src/trading_bot/domain/portfolio.py:37-45 | fills of the own symbol that sell no more than is held never hit the short-selling error |
| `Limits.SimulatedVenueIsHonest` | src/trading_bot/exchange/simulated.py:93-107 | the simulated venue fills what was asked, on the side asked |
| `Limits.SentOrdersAreNeverRolledBack` | src/trading_bot/cycle.py:165-196 | after the venue has answered a cycle aborts only if the answer exceeded the order, which the simulated venue never does; later validators all pass |
| `Limits.RolledBackExactlyWhen` | src/trading_bot/cycle.py:165-184 | with fills of the order's own symbol and side, as both gateways give, the rollback happens exactly when the answer sells more than is held |
| `Limits.SimulatedOrdersAreHonest` | src/trading_bot/exchange/simulated.py:93-107 | in every simulated run each committed order was filled with what was asked |
| `Limits.PositionStaysWithinLimit` | src/trading_bot/policy/engine.py:110-138 | over any run, held quantity times the mark of the newest executed buy is within the limit; of simulated runs nothing is assumed about fills |
| `Limits.LowestBuyMarkStaysWithinLimit` | src/trading_bot/policy/engine.py:110-138 | over any run, held quantity times the lowest mark bought at is within the limit |
| `Solvency.BuyOverdraws` | src/trading_bot/policy/engine.py:125-140 | a buy sized within limit and cash overdraws by at most the bound from slippage, fee and rounding |
| `Solvency.CashStaysAboveBound` | src/trading_bot/exchange/simulated.py:89-92 | over any simulated run whose sales cover their fees, cash never falls below minus that bound |
| `Solvency.LargeSalesCoverFees` | src/trading_bot/policy/engine.py:194-195 | if minimum notional times (1-s)(1-f) is a cent or more, every committed sale covers its rounded fee |
| `Solvency.SolventConfiguration` | src/trading_bot/policy/engine.py:125-140 | under that configuration and marks in cents, cash is at least -(M((1+s)(1+f)-1) + 0.5M(1+f) + 0.005) in every reachable state |
| `Days.DayStartIsMidnight` | src/trading_bot/persistence/repository.py:40-55 | the start of a day is the multiple of 86400 seconds before, and the moments since are those of that UTC day and later ones |
| `Days.DaysHaveOneOpening` | src/trading_bot/persistence/repository.py:40-66 | all snapshots of a UTC day after the first carry the equity of the first as opening equity |
| `Days.LoadedOpeningIsTheDays` | src/trading_bot/persistence/repository.py:54-93 | in every run a cycle loads the equity of the first snapshot of its UTC day, or what the account is worth if it is the first |
| `Days.FirstCycleOfDayPasses` | src/trading_bot/policy/engine.py:57-58 | the first cycle of a day has zero daily profit and passes the loss check |
| `Days.TripLocks` | src/trading_bot/policy/engine.py:57-69 | a recorded loss failure locks the day at its mark and changes no holding |
| `Days.LockedSendsNothing` | src/trading_bot/policy/engine.py:57-69 | while a day is locked no cycle reaches the venue |
| `Days.LossLimitHoldsAllDay` | src/trading_bot/policy/engine.py:57-69 | a locked day stays locked, with cash, position and orders fixed, while the mark stays at or below the tripping mark |
| `Days.TripLocksTheDay` | src/trading_bot/policy/engine.py:57-69 | from the tripping cycle to the end of its day no cycle sends an order, completed or aborted, and orders, position and cash are those before it |
| `Bars.OrderIdsStayUnique` | src/trading_bot/persistence/models.py:52 | no run violates the unique client order id |
| `Bars.EveryOrderIsDecided` | src/trading_bot/cycle.py:152-177 | every committed order comes from a cycle of its bar, on the side of that cycle's signal |
| `Bars.OneOrderPerBar` | src/trading_bot/cycle.py:46-57 | if the gateway gives the same recent closes for the same bar, no two committed orders share a bar |
| `Bars.OneOrderPerBarAndSide` | src/trading_bot/cycle.py:156-162 | even if it does not, two orders of one bar are on opposite sides |
| `Bars.ReplayChangesNothing` | src/trading_bot/persistence/repository.py:185-201 | in any run, replaying a bar that has a committed order, whatever the strategy says this time, leaves orders, position and cash and adds one signal and one snapshot, or nothing |
| `Bars.DuplicateIsSuppressed` | src/trading_bot/cycle.py:156-162 | without any assumption on the feed, a cycle whose own order is committed adds one signal and one snapshot, or nothing |
| `Isolation.SameIdExactlyWhen` | src/trading_bot/cycle.py:46-57 | a committed order carries the id a cycle is about to use exactly when side, condensed symbol and timeframe agree and the bars opened in one whole second |
| `Isolation.SuppressedExactlyWhen` | src/trading_bot/persistence/repository.py:185-201 | in any run the duplicate check over all orders finds an id exactly when the own book has it or an order of another symbol of the same spelling does |
| `Isolation.SymbolsDoNotInterfere` | src/trading_bot/persistence/repository.py:185-201 | if no other symbol shares its spelling, a symbol's orders, position and snapshots are those of the run without the other symbols |
| `Examples.OneSpellingSuppresses` | src/trading_bot/cycle.py:46-57 | of two symbols spelled alike but for case and punctuation, the order of one suppresses the order of the other |
| `Recovery.StepLoses` | src/trading_bot/cycle.py:152-177 | of what an attempt makes the venue execute, it leaves unrecorded exactly what is lost by a crash after submitting, a lost reply or a rollback |
| `Recovery.StepReconciles` | src/trading_bot/cycle.py:152-177 | every attempt, completed, killed before or after submitting, or with its reply lost, keeps venue and database reconciled |
| `Recovery.VenueAndDatabaseReconcile` | docs/adr/0006-idempotent-cycles.md:16-39 | over every interleaving each id is executed at most once, and venue minus database quantity is exactly the net fills of the attempts that lost them |
| `Recovery.FinishedAttemptLosesExactlyWhen` | src/trading_bot/cycle.py:165-184 | an attempt neither killed nor cut off loses what it executed exactly when the venue sold more than is held |
| `Recovery.HonestLossIsACrash` | docs/adr/0006-idempotent-cycles.md:31-34 | with honest answers only a crash between submit and commit or a lost reply loses |
| `Recovery.CrashFreeRunsAgree` | docs/adr/0006-idempotent-cycles.md:31-34 | without those, venue and database agree on every symbol |
| `Examples.CrashLosesExecution` | docs/adr/0006-idempotent-cycles.md:31-34 | a crash in that window leaves one unit at the venue that the database does not know of, before and after the retry |
| `Recovery.RetryIsRejected` | src/trading_bot/exchange/ccxt_sandbox.py:80-96 | a retry of an executed order is recorded as rejected, without fills, and moves nothing |
| `Recovery.LostFillsAreNeverRecovered` | src/trading_bot/exchange/ccxt_sandbox.py:89-94 | a lost execution is never recorded by any later attempt |
| `Recovery.SimulatedRetryExecutesAgain` | src/trading_bot/exchange/simulated.py:88-107 | the simulated venue has no such defence: a retry after a crash executes the same id, side and quantity again |

## Left out

- Caches.CachesNeverDrift: states equality for cash and quantity and a distance for the average price, because the average price is rounded whenever it is saved.
- Caches.RunStaysOnGrids: for sandbox venues asks for eight decimals in quantity and price; `CashKeptExactlyWhen` and `AverageKeptExactlyWhen` cover the general case one execution at a time.
- Repository.LatestSnapshotFor: of several snapshots taken at one moment it picks the last inserted, where SQL leaves the choice open; strictly increasing times rule such ties out.
- Timeframes.ParsedTimeframe: the model reads ASCII digits only, and does not model the overflow of durations and dates beyond the calendar.
- Cycle.Database.Invoke: does not model failures of the database itself, such as text or numbers too long for their columns.
- Recovery.VenueAndDatabaseReconcile: does not model a venue that answers without an average price although it filled, or that reports fees of a fill later.
- The 28-digit decimal context: products and quotients are exact in the model.
- Time zones other than UTC, and cycles of one symbol that overlap.
- The generator of the price walk: its draws are arbitrary. Successive simulated snapshots restart the same walk, so nothing is claimed about bars shared between them.
- The ccxt client, its testnet guard and its conversion of floats.
- Settings, composition of the application, telemetry, logging and its redaction.
- Repository.Session.RecordSignal: leaves out the strategy's name, reason and context, which nothing reads back.
- Repository.Session.RecordExecution: leaves out the rejection and decision texts, which nothing reads back.
- `drawdown_ratio`, the volume column's use, and load-only helpers: one-line expressions.
- The schema migrations, the infrastructure, the alerts and the dashboard.
