# A verified model of the trading engine's stateful core

This project models, in Dafny, the parts of the trading engine that keep state over time or do bounded
arithmetic, and proves what they keep over every run:

- **Backtest** (`Market`, `Backtest`, `NoLookAhead`, `Ledger`, `Closing`, `Conservation`, `Fills`, `Answers`,
  `Simulation`): a queue of orders filled at the next day's open, a cash and position ledger, and a mark to
  market at the close. `Backtest` gives every client operation as a function on values, `Simulation` the objects
  that change in place, method by method. A strategy is any deterministic function of everything it has been
  answered so far.
- **Risk** (`KillSwitches`, `RiskHalts`, `RiskNumbers`, `RiskManagement`, `Sizing`, `SizingOrder`, `SizeValue`): the
  kill switch shared by several processes through a Redis whose operations may fail, the automaton of portfolio
  stop, circuit breaker and warning phase, both coupled, and the sizing pipeline.
- **In-memory Redis** (`KeyValues`, `KeyLives`, `Leases`, `Buffers`, `Streams`, `LocalState`): keys that expire when
  touched, locks, the rolling price buffer and message streams, each against a simple abstract object.
- **Exit decision** (`IntelligentExit`, `ExitNumbers`), **drawdown** (`Drawdowns`), **secret masking**
  (`SecretMask`), **wash-trade guard** (`Compliance`, `Verdicts`), **throttle** (`Throttle`), **scheduler**
  (`SymbolNames`, `Scheduler`).
- **Trade statistics** (`TradeLearning`, `TradeBook`, `TradeCash`, `TradeRecorder`): running per-symbol figures, the
  confidence adjustment, forgiveness and self-tuning.

Money, prices and times are reals; every reading of a clock is a parameter. Code that updates fields in place is
a class whose methods state their whole new state through a function on values; what the source promises is
proved about that function.

`dafny verify dfyconfig.toml` checks the whole project.

## Where the code differs from its comments, or from the obvious claim

- The portfolio stop is commented as lasting until the session restarts, but `reset_daily_limit` clears the local
  halt (`RiskHalts.DailyResetForgetsStop`). Trading stays refused all the same, because the kill switch still
  remembers (`RiskManagement.StopOutlivesDailyReset`), and so it does after a reset during a breaker halt, until
  the breaker has tripped once more (`RiskManagement.HaltOutlivesDailyReset`).
- A global kill-switch reset leaves the users' Redis keys, and a trip during a halt records nothing
  (`KillSwitches.UserTripThenGlobalReset`).
- Selling more than is held removes the position but pays for the full quantity, and a further sell of a short
  pays without moving the position; `Ledger.PositionFollowsTrades` says exactly which histories are affected.
- `close_all_positions` empties the account only when all positions are long and trade the next day; a short that
  is bought back stays as a position of quantity zero (`Closing.CloseAllFlattensIff`, `Closing.CoveredShortStays`).
- A comment speaks of the last known value for a held symbol without a price, but equity leaves it out
  (`Conservation.EquityIsWorthIff`, `Conservation.DelistedShareIsLost`).
- `delete` counts keys that have expired but were never touched (`KeyValues.DeleteCounts`), and `release_lock`
  deletes whoever's lock it is (`Leases.ReleaseKeepsBackingIff`).
- `get_ohlcv_rolling` with a count of 0 returns everything (`Buffers.ReadIsLastTicks`).
- Without account cash there is no cash cap (`SizingOrder.CashCapHoldsIff`), and a Kelly cap above 1 breaks the other
  caps (`SizingOrder.CapsHoldIffKellyAtMostOne`).
- The drawdown duration counts the days since the peak was set, so a curve that stands still has one without any
  drawdown (`Drawdowns.DurationWithoutDrawdownIff`); as soon as equities may be negative the one-pass drawdown can
  be less than the largest loss (`Drawdowns.OnePassIsMaxIff`).
- The A/B drawdown divides by a running peak of zero, where the other loop skips it (`Drawdowns.MaxDrawdown`).
- The order value check passes a readable quantity with a NaN price, or the other way round (`Compliance.ValueCheckPassesIff`).
- The floor of the confidence adjustment is -0.25 in the code, but -0.1 is the lowest value ever reached
  (`TradeLearning.AdjustedInRange`, `TradeBook.LowestAdjustmentReached`); a win is said to halve a
  penalty, and halves a bonus as well.
- Masking removes every secret that neither starts nor ends with a star nor holds ten in a row, and for any
  other secret there is a text in which it survives (`SecretMask.MaskableIffAlwaysRemoved`).
- The exit decision is monotone only without a profit; at any profit a position can turn from SELL to HOLD on a
  lower price (`IntelligentExit.MonotoneIffNotWinning`).

## Model

| member | source | states |
|---|---|---|
| Market.Tail | core/simulation.py:714-724 | The rows handed out are the last `limit` ones, in order; a negative limit drops that many from the front |
| Market.UpToIsPast | core/simulation.py:714-724 | A strategy sees exactly the rows dated up to the current day |
| Market.UpToFromBefore | core/simulation.py:718-721 | What a strategy sees on a day is fixed by the rows before any later day |
| Answers.UpToIsPrefix | core/simulation.py:718-721 | The visible rows of a frame are its first ones, in its order, up to the last that is not later |
| Answers.BarsAreLatest | core/simulation.py:714-724 | Asked for a number of bars the client shows the latest ones of the frame, today's last, or all there are |
| Answers.BarOnIs | core/simulation.py:604-606 | A day's bar is that of the frame's row of the date |
| Answers.SnapshotsAreToday | core/simulation.py:726-750 | A snapshot is shown of exactly the asked symbols with a row today, and is that row |
| Answers.PositionsAreListed | core/simulation.py:504-516 | Every held symbol is listed once, in key order, with quantity, average price, value and side of its position |
| Answers.AccountIsShown | core/simulation.py:501-502 | The account shown after a close has the client's cash and trades, and its equity is cash plus portfolio value |
| Answers.CloseValues | core/simulation.py:786-802 | After a close the portfolio value is the quantities at the day's closes, equity is cash plus that, positions with a bar are valued at their close, and nothing else changes |
| Answers.PlacedAsAsked | core/simulation.py:542-574 | An accepted order carries what was asked for, today's date and the next number, at the end of the queue |
| Answers.NothingBeforeTheFirstDay | core/simulation.py:548-549 | Before the first day nothing is accepted or shown |
| Answers.PrognosisIsLogged | core/simulation.py:261-315 | The log entry of a fill: the prognosis, its return in percent, and the move in percent to the close five trading days later where both closes are there |
| Answers.CurveIsEquity | core/simulation.py:843-857 | A callback adds the day and the account's equity to the curve exactly if the strategy does not raise |
| Answers.CurveIsOfDays | core/simulation.py:804-861 | The curve of every run holds days of the calendar in order, each with the equity the strategy found on it |
| Backtest.FillsKeepHeld | core/simulation.py:576-588 | Filling a queue keeps the key order of the positions a duplicate-free list of exactly the held symbols, and moves neither date nor index |
| Backtest.CloseEachOnlyQueues | core/simulation.py:702-712 | Closing positions changes only the queue, never cash, positions or trades |
| Backtest.ObeyOnlyQueues | core/simulation.py:501-750 | No call a strategy can make changes anything but the queue: nothing is executed on the day it is ordered |
| NoLookAhead.NoLookAhead | core/simulation.py:763-861 | Two runs of one strategy in markets that agree before day k and on day k's opens have, right after day k's fills, the same cash, positions, trades, queue, order history and equity curve, and have seen the same |
| NoLookAhead.DecisionsAgree | core/simulation.py:804-861 | What the strategy does on day k depends on nothing after day k |
| NoLookAhead.NextFillsAgree | core/simulation.py:763-802 | Agreement after the fills of a day carries over the close, the callback and the next open |
| NoLookAhead.OrderAgrees | core/simulation.py:590-651 | One fill depends only on that day's open and on which symbols trade, not on the rest of the day's bar; the prognosis log does not flow back |
| NoLookAhead.LogStaysOut | core/simulation.py:590-651 | What a fill does to the account, the trades and the queue is the same whatever is in the prognosis log |
| NoLookAhead.CallAgrees | core/simulation.py:702-750 | Every answer a strategy gets, and every order it places, is fixed by the past |
| NoLookAhead.PrognosisLogLooksAhead | core/simulation.py:261-315 | The prognosis log itself does read five trading days ahead: two markets with the same past log differently |
| Ledger.PositionFollowsTrades | core/simulation.py:653-700 | A position equals bought minus sold after every fill if and only if no fill sells more than the long quantity held or sells on top of a short |
| Ledger.OrderlyPosition | core/simulation.py:653-700 | When no sell exceeds what is held, quantity is bought minus sold and quantity times average price is the average-cost basis |
| Ledger.BuyKeepsBooks | core/simulation.py:653-673 | A buy raises the quantity by its size and the cost basis by its cost |
| Ledger.SellKeepsBooks | core/simulation.py:675-700 | A sell takes out its share of the basis, and the position disappears exactly when nothing is left |
| Ledger.OversoldExample | core/simulation.py:688-693 | Overselling leaves no position although two more were sold than bought |
| Closing.CloseAllQueues | core/simulation.py:702-712 | Closing all positions queues exactly one order for each held symbol, of the held size and the opposite side, after the orders that were kept |
| Closing.CloseAllFlattensIff | core/simulation.py:576-712 | After closing everything with the queue cancelled, the next day's fills leave no position if and only if every position was long and its symbol has an opening price that day |
| Closing.ClosesEach | core/simulation.py:576-700 | The closing orders remove exactly the long positions that can be sold |
| Closing.CoveredShortStays | core/simulation.py:653-666 | A short bought back stays as a position of quantity zero with a non-finite average price |
| Conservation.RunConserves | core/simulation.py:763-861 | In every reachable state cash is the initial cash minus all buy costs plus all net proceeds, below zero by at most the commissions of the sells since the last buy, and positions follow from the trade history |
| Conservation.OrdersHandledOnceInOrder | core/simulation.py:542-651 | Order number i leaves the queue exactly once, as the i-th to do so, or still waits at its place; it is cancelled on its own day, or handled on the next trading day: filled at that day's open with slippage exactly if there is an open and a buy is within the cash at that point, else skipped; the trade history is exactly the fills |
| Fills.EveryFillAtOpen | core/simulation.py:607-615 | In every reachable state every buy was filled above its day's open by exactly the slippage on it, every sell below it by as much, any other order at the open |
| Fills.FilledIff | core/simulation.py:590-627 | An order is filled if and only if its symbol has an open that day and, for a buy, the cash covers the quantity at the open, the slippage on it and the commission; a skipped one changes nothing |
| Fills.FillMovesCash | core/simulation.py:590-700 | The cash after a fill, from open, slippage and commission, and the one trade that records it |
| Fills.RoundTripCosts | core/simulation.py:653-700 | Buying and then selling a quantity at one open costs exactly twice the slippage on it and twice the commission |
| Fills.BuyAdds | core/simulation.py:653-673 | A buy adds its quantity and values the holding at the price of the fill |
| Fills.SellTakes | core/simulation.py:675-700 | A sell opens a short, takes off a long, removes it when nothing is left, and leaves a short as it is |
| Fills.OthersUntouched | core/simulation.py:590-651 | No order touches another symbol's position, and one that is neither buy nor sell touches none |
| Conservation.ProcessKeeps | core/simulation.py:590-651 | Handling one order keeps the ledger, the cash floor and the account of all orders |
| Conservation.OpenDayKeeps | core/simulation.py:763-785 | The fills of a new day keep all of it and empty the queue of the day before |
| Conservation.CloseDayKeeps | core/simulation.py:786-802 | Marking to market keeps quantities, average prices, cash and the queue |
| Conservation.ObeyKeeps | core/simulation.py:542-712 | No strategy call breaks the invariant |
| Conservation.CallbackKeeps | core/simulation.py:843-857 | A whole callback keeps it, with any number of calls |
| Conservation.FillsSound | core/simulation.py:763-785 | The invariant holds after the fills of every day of every run |
| Conservation.CallbackSound | core/simulation.py:804-861 | The invariant holds after the callback of every day of every run |
| Conservation.EquityLeavesOutUnpriced | core/simulation.py:118-130 | After a close equity is cash plus stored market values minus those, as before the close, of the held symbols without a bar that day |
| Conservation.EquityIsWorthIff | core/simulation.py:118-130 | With positions of positive worth equity is the whole worth of the account if and only if every held symbol has a bar that day, and less otherwise |
| Conservation.DelistedShareIsLost | core/simulation.py:763-802 | A share bought on its last trading day is still held at its value the day after, while equity has lost all of it, for every price and cash that pays for it |
| Simulation.SimulationAccount.UpdatePortfolioValue | core/simulation.py:118-130 | The loop revalues exactly the priced positions and sums their values |
| Simulation.RealisticSimulationClient.SubmitOrder | core/simulation.py:542-574 | Queues one order dated today under a fresh number, or nothing before the first day |
| Simulation.RealisticSimulationClient.ProcessBuyExecution | core/simulation.py:653-673 | Cash and position after a buy, with the weighted average |
| Simulation.RealisticSimulationClient.ProcessSellExecution | core/simulation.py:675-700 | Cash and position after a sell: short, partial close, full close, or unchanged short |
| Simulation.RealisticSimulationClient.ProcessSingleOrder | core/simulation.py:590-651 | One order is skipped (no bar, no open, not enough cash) or filled with slippage and recorded |
| Simulation.RealisticSimulationClient.LogPrognosis | core/simulation.py:261-315 | Appends one log row, reading the close five trading days ahead where there is one |
| Simulation.RealisticSimulationClient.ExecutePendingOrders | core/simulation.py:576-588 | The whole queue is handled in order, and the queue is empty first |
| Simulation.RealisticSimulationClient.CloseAllPositions | core/simulation.py:702-712 | Queues one closing order for each held symbol, after cancelling the queue if asked |
| Simulation.RealisticSimulationClient.GetBars | core/simulation.py:714-724 | The bars up to the current day, the last `limit` of them |
| Simulation.RealisticSimulationClient.GetSnapshots | core/simulation.py:726-750 | The current day's bar of every asked symbol that trades |
| Simulation.RealisticSimulationClient.ListPositions | core/simulation.py:504-516 | Every position in key order, with its side |
| Simulation.RealisticSimulationClient.ClosingPrices | core/simulation.py:786-799 | The closes of the held symbols that trade today |
| Simulation.RealisticSimulationClient.AdvanceDay | core/simulation.py:763-802 | Fills at the next day's open, then values at its close; on the last day nothing changes |
| Simulation.RealisticSimulationClient.CallStrategy | core/simulation.py:843-857 | The strategy's calls are obeyed and answered in turn; a day without an exception adds its equity to the curve |
| Simulation.RealisticSimulationClient.RunSimulation | core/simulation.py:804-861 | The day loop reaches the state after the last callback, about which the run theorems speak |
| KillSwitches.HaltIsSticky | core/kill_switch.py:56-115 | Once a process has tripped or observed a halt of a scope, it answers "halted" for it after any steps of any processes and any Redis failures, until that process itself resets a covering scope |
| KillSwitches.LookLearns | core/kill_switch.py:56-79 | What a question answers and what the process remembers of it, from its flags, the keys and what Redis answered |
| KillSwitches.ResetClears | core/kill_switch.py:117-128 | A reset makes its process forget the scope, a global one all users too, and deletes just its own key |
| KillSwitches.ResetForgets | core/kill_switch.py:117-128 | A reset makes its process forget an observed scope exactly if it is global, or is of that user and no global halt was observed |
| KillSwitches.FailuresNeverUnhalt | core/kill_switch.py:56-79 | A failing read never turns a known halt into "not halted", and an answered halt is remembered |
| KillSwitches.OneLaunchPerProcess | core/kill_switch.py:89-115 | A process launches at most one mass-cancel for a scope until it resets a covering scope |
| KillSwitches.TripLaunchesIff | core/kill_switch.py:89-115 | A trip launches the mass-cancel exactly if it finds no halt, halts its process, and sets exactly its own key if there is a Redis client and the write arrives |
| KillSwitches.TripReachesEveryone | core/kill_switch.py:56-115 | With a working Redis a trip halts the scope, and a global trip every user's too, in every process, and no process launches a second mass-cancel for it, until the tripped scope itself is reset; a global reset does not lift a user's halt |
| KillSwitches.UserTripThenGlobalReset | core/kill_switch.py:89-128 | A user trip survives a global reset if and only if there is a Redis client, and the key was set already, or no halt was found beforehand and the write arrived |
| KillSwitches.KillSwitch.IsHalted | core/kill_switch.py:56-79 | Answer and remembered flags after local flags, then the global key, then the user's key |
| KillSwitches.KillSwitch.Trip | core/kill_switch.py:89-115 | Flags, shared key and mass-cancel launch of a trip, none of them when already halted |
| KillSwitches.KillSwitch.Reset | core/kill_switch.py:117-128 | A global reset clears all local flags but only the global key |
| RiskHalts.RunExplains | core/risk_manager.py:136-308 | In every state of a run trading is halted exactly when the stop latched or a breaker halt is pending, and the unlock threshold is that of the halt's age |
| RiskHalts.OneCall | core/risk_manager.py:136-308 | One update calls the kill switch at most once: a halt it causes is not lifted by it |
| RiskHalts.UpdatePeak | core/risk_manager.py:136-180 | One update raises the peak to the equity if higher, keeps the session start, and latches the stop exactly when the session is down by the stop percentage |
| RiskHalts.PeakIsHighest | core/risk_manager.py:172-174 | The peak of a run is the highest of the start value and all equities seen |
| RiskHalts.HighestIsHighest | core/risk_manager.py:172-174 | That value bounds all of them and is one of them |
| RiskHalts.StopLatchesWhen | core/risk_manager.py:142-149 | The stop has latched if and only if some update saw the session down by the stop percentage |
| RiskHalts.StopIsLatched | core/risk_manager.py:142-170 | After the stop has latched every later state of the run is stopped and halted |
| RiskHalts.LiftedExactlyWhen | core/risk_manager.py:267-292 | A breaker halt is lifted if and only if the stop has not latched and the drawdown is at most 50%, 30% or 20% of the limit, by the halt's age |
| RiskHalts.ThresholdFalls | core/risk_manager.py:225-292 | Within one breaker halt the threshold never rises, and a fresh halt is never lifted by the update that caused it |
| RiskHalts.RunLifts | core/risk_manager.py:136-308 | Both in every run, with the drawdown from the highest of the start capital and all equities so far |
| RiskHalts.WarningPhase | core/risk_manager.py:176-224 | After an update that leaves trading unhalted: above 60% of the limit means reduced, at most 50% means not reduced, and the drawdown is within the limit |
| RiskHalts.RunWarns | core/risk_manager.py:136-308 | The same in every state of every run, with the peak spelled out |
| RiskHalts.DailyResetForgetsStop | core/risk_manager.py:310-316 | After the daily reset the stop never halts again: over all later updates trading is halted exactly from the first drawdown above the new limit on |
| RiskNumbers.RunDecides | core/risk_manager.py:136-308 | The last update of any run in numbers: halted exactly by a drawdown above the daily share of the start capital or by the stop, the stamp and count of that halt, and the warning flag by six and five tenths of the limit |
| RiskNumbers.StopIffFell | core/risk_manager.py:142-149 | The stop has latched if and only if some equity was down from the start capital by the stop percentage |
| RiskNumbers.LiftedInTenths | core/risk_manager.py:267-292 | A breaker halt is lifted exactly at half the limit, after two hours at three tenths, after four at a fifth |
| RiskNumbers.CallsWhen | core/risk_manager.py:136-308 | The kill switch is tripped exactly by an update that latches the stop or halts, and reset by one that lifts |
| RiskManagement.StopOutlivesDailyReset | core/risk_manager.py:136-316 | Once the stop has latched, new trades stay refused and every size is 0 through any updates, daily resets, other processes and Redis failures, until this process resets the kill switch for a covering scope |
| RiskManagement.HaltOutlivesDailyReset | core/risk_manager.py:225-316 | A breaker halt outlives the daily reset: as long as no state is halted again, trading stays refused by the kill switch however far the equity recovers |
| RiskManagement.RecoveryReopensIff | core/risk_manager.py:267-292 | An update that lifts the halt reopens trading exactly if no global halt remains for a user's scope and the key is gone from Redis, if there is one |
| RiskManagement.OnlyHaltsUnlock | core/risk_manager.py:267-292 | No update resets the kill switch without a local halt |
| RiskManagement.RiskManager.CheckPortfolioStop | core/risk_manager.py:142-170 | Latches and trips once, at the stop percentage |
| RiskManagement.RiskManager.CheckWarningPhase | core/risk_manager.py:172-224 | Peak, then warning phase on and off |
| RiskManagement.RiskManager.CheckCircuitBreaker | core/risk_manager.py:225-265 | Halts, stamps, counts and trips exactly when the drawdown passes the limit unhalted |
| RiskManagement.RiskManager.TryUnlock | core/risk_manager.py:267-308 | Ages the threshold, and lifts halt and switch together |
| RiskManagement.RiskManager.UpdateAccountEquity | core/risk_manager.py:136-308 | One update: the new automaton state, the one kill-switch call it makes with the switch's new state, and whether the breaker asks to close all positions |
| RiskManagement.RiskManager.ResetDailyLimit | core/risk_manager.py:310-316 | New limit from the equity, halt cleared, all else kept |
| RiskManagement.RiskManager.RefusesTrade | core/risk_manager.py:599-603 | A trade is refused exactly when halted locally or by the kill switch, which is asked only if not halted locally and remembers what it found |
| RiskManagement.RiskManager.CalculatePositionSize | core/risk_manager.py:321-586 | The stages, reassigning the number of shares, compute the sizing function, 0 when halted; the kill switch remembers what it found if it was asked |
| RiskManagement.RiskManager.LimitByCapital | core/risk_manager.py:443-470 | Position cap, then cash cap |
| RiskManagement.RiskManager.LimitByExposure | core/risk_manager.py:485-530 | Exposure cap, then Kelly scaling |
| RiskManagement.RiskManager.LimitByStop | core/risk_manager.py:532-541 | Loss cap at the stop |
| RiskManagement.RiskManager.FinishSize | core/risk_manager.py:543-586 | Minimum size, rounding, whole shares and dust filter |
| Sizing.SizeWithinCaps | core/risk_manager.py:321-586 | For a positive price and a Kelly cap absent or at most 1 the size is 0, or at least the dust minimum and within position cap, cash minus 50, remaining exposure and loss at the stop, each with exactly half a unit of the sixth decimal |
| Sizing.CappedWithin | core/risk_manager.py:443-541 | A later cap never undoes an earlier one |
| Sizing.PositionCapBites | core/risk_manager.py:443-456 | The position cap bounds the value |
| Sizing.CashCapBites | core/risk_manager.py:464-470 | With positive cash the value is at most the cash minus 50, or 0 |
| Sizing.ExposureCapBites | core/risk_manager.py:485-518 | With readable positions the value is at most the remaining exposure, or 0 |
| Sizing.LossCapBites | core/risk_manager.py:532-541 | The loss at the stop is at most the maximum, or the size is 0 |
| Sizing.FinishAdds | core/risk_manager.py:543-586 | Thresholds and rounding give 0, or at most half a unit more and at least the dust minimum |
| Sizing.RoundNear | core/risk_manager.py:557-557 | Rounding to six decimals moves a size by at most half a unit |
| Sizing.RoundUp | core/risk_manager.py:557-557 | Rounding keeps the order |
| SizingOrder.SizeUpWithConviction | core/risk_manager.py:390-441 | More conviction never gives a smaller size, through the whole pipeline |
| SizingOrder.SizeDownWithVix | core/risk_manager.py:360-372 | A higher VIX never gives a larger size |
| SizingOrder.ReducedNeverLarger | core/risk_manager.py:381-388 | The warning phase never gives a larger size |
| SizingOrder.PipelineUp | core/risk_manager.py:443-586 | Caps, thresholds, rounding and truncation keep the order of raw sizes |
| SizingOrder.NothingToBuy | core/risk_manager.py:520-554 | A raw size that is not positive, or a negative Kelly cap, ends as 0 |
| SizingOrder.CapsHoldIffKellyAtMostOne | core/risk_manager.py:520-530 | With the repository's settings every request keeps every cap if and only if the Kelly cap is absent or at most 1 |
| SizingOrder.CashCapHoldsIff | core/risk_manager.py:464-470 | With the repository's settings and a Kelly cap of at most 1, every request keeps to the cash minus 50 if and only if there is cash, or the Kelly cap forbids every size |
| SizingOrder.NoKellyNoSize | core/risk_manager.py:520-554 | A Kelly cap of at most 0 makes every size 0 |
| SizingOrder.NoCashNoCap | core/risk_manager.py:464-470 | In particular without cash, or with debts, the full position is sized |
| SizeValue.DynamicSizeIs | core/risk_manager.py:321-586 | Where nothing binds the size is, within half a unit of the sixth decimal, capital times the conviction share, the factors of volatility band, confidence and reduction and the size scaler, over the price |
| SizeValue.RiskSizeIs | core/risk_manager.py:430-441 | Without dynamic sizing: capital times risk share per stock and the factors, over the loss of a share at the stop |
| SizeValue.RiskSizeWithoutPrice | core/risk_manager.py:430-441 | The same where there is no price, with sizes below a thousandth dropped |
| SizeValue.NoRiskNoSize | core/risk_manager.py:438-440 | Without dynamic sizing a share that carries no risk is not bought |
| SizeValue.SizeUpWithConfidence | core/risk_manager.py:374-379 | The size does not fall from low to medium to high confidence, through the whole pipeline |
| SizeValue.CappedIsLargest | core/risk_manager.py:443-541 | Without a Kelly cap the caps leave the largest size within all of them that is not above the wanted one |
| SizeValue.KellyMultiplies | core/risk_manager.py:520-541 | A Kelly cap multiplies what the caps before it leave; only the loss at the stop is checked behind it |
| SizeValue.FinishIs | core/risk_manager.py:543-586 | The end of the pipeline: below one unit of money 0, else the nearest millionth with halves to even, whole shares where fractions are not allowed, and 0 below the dust minimum |
| SizeValue.FinishWithoutPrice | core/risk_manager.py:551-557 | Without a price only sizes below a thousandth are dropped |
| SizeValue.RoundedIs | core/risk_manager.py:557-557 | Rounding takes the nearest number of millionths, and the even one half way |
| KeyValues.LazyAnswersLikeEager | core/local_state_client.py:95-150 | Every sequence of gets, sets and deletes is answered as by a map that drops each key once its deadline has passed, although eviction happens only on touch |
| KeyValues.FreshAnswersLikeEager | core/local_state_client.py:78-150 | A new client answers every sequence like an empty map of that kind |
| KeyLives.LivesFor | core/local_state_client.py:106-129 | With a time to live a value is found until so many milliseconds after it was set, that moment included |
| KeyLives.LivesOn | core/local_state_client.py:106-129 | Without one a key that was not found lives on, and one that was keeps its old deadline |
| KeyLives.SetRefusedIff | core/local_state_client.py:106-129 | A set with `nx` is refused exactly if the key is found at that moment |
| KeyLives.OthersLive | core/local_state_client.py:106-129 | A set changes what is found of no other key |
| KeyLives.DeletedIsGone | core/local_state_client.py:131-150 | A delete takes exactly its keys away |
| KeyLives.FoundUntil | core/local_state_client.py:95-104 | A key is found with its value until its deadline and not afterwards |
| KeyValues.GetStands | core/local_state_client.py:95-104 | A get answers alike and keeps the correspondence |
| KeyValues.SetStands | core/local_state_client.py:106-129 | A set answers alike, with `px` and `nx` in any combination; without `px` a live key keeps its old deadline |
| KeyValues.DeleteStands | core/local_state_client.py:131-150 | A delete leaves the same live keys |
| KeyValues.EvictStands | core/local_state_client.py:239-243 | After the eviction of a key its presence agrees with the eager map |
| KeyValues.DeleteCounts | core/local_state_client.py:131-139 | The count is never less than the eager map's, and equal if and only if no deleted key is stale |
| Leases.AtMostOneHolder | core/redis_client.py:178-206 | If clients release only while their own lease is live, and nobody else writes the lock keys, at most one client holds a live lease of a key at any time, for any time to live |
| Leases.AtMostOneHolderFromStart | core/redis_client.py:178-206 | The same from the start of a new client |
| Leases.AcquireSafe | core/redis_client.py:178-197 | An acquisition keeps every live lease backed by its key |
| Leases.ReleaseSafe | core/redis_client.py:198-206 | A release of one's own live lease keeps the others backed |
| Leases.ElsewhereSafe | core/local_state_client.py:95-150 | Operations on other keys, and reads of lock keys, keep all leases |
| Leases.ReleaseKeepsBackingIff | core/redis_client.py:198-206 | A release is harmless if and only if no other client holds a live lease of the key |
| Leases.LateReleaseBreaksExclusion | core/redis_client.py:198-206 | Releasing after one's lease ran out can leave two holders |
| Buffers.RangeIsRedisRange | core/local_state_client.py:162-180 | The slicing of `ltrim` and `lrange` is Redis's inclusive range for all integer bounds |
| Buffers.BufferIsLast60 | core/redis_client.py:276-298 | After any interleaving of pushes over symbols a buffer is the last 60 ticks of that symbol's history |
| Buffers.ReadIsLastTicks | core/redis_client.py:300-324 | A read returns the last min(count, 60) ticks, oldest first, if and only if the count is at least 1 or minus the count is at least the buffer's length |
| Streams.ReadsExactlyOnce | core/local_state_client.py:187-217 | A reader from "0" that passes on the last id it received has received exactly the first messages, each once and in order, under any interleaved appends and whatever the clock; ids are unique |
| Streams.ReadMakesProgress | core/local_state_client.py:194-217 | A read returns the next min(count, unread) messages |
| Streams.EntriesAreWrites | core/local_state_client.py:187-192 | A stream holds exactly what was written, in order, each under its time and position |
| Streams.NextRead | core/local_state_client.py:194-217 | The next read starts right behind what was received |
| LocalState.LocalStateClient.EvictExpired | core/local_state_client.py:239-243 | Drops value and deadline once the deadline has passed |
| LocalState.LocalStateClient.Get | core/local_state_client.py:95-104 | Evicts the key, then looks it up |
| LocalState.LocalStateClient.Set | core/local_state_client.py:106-129 | Evicts, refuses with `nx` on a present key, stores, and stamps a deadline for a nonzero `px` |
| LocalState.LocalStateClient.Delete | core/local_state_client.py:131-150 | Removes the keys and counts those that were stored |
| LocalState.LocalStateClient.Rpush | core/local_state_client.py:162-166 | Appends all values to that list only, and returns its length |
| LocalState.LocalStateClient.Ltrim | core/local_state_client.py:168-173 | Keeps Redis's inclusive range |
| LocalState.LocalStateClient.Lrange | core/local_state_client.py:175-180 | Returns Redis's inclusive range; a missing list comes into being empty |
| LocalState.LocalStateClient.XAdd | core/local_state_client.py:187-192 | Appends one message whose id holds the clock and the position |
| LocalState.LocalStateClient.XReadOne | core/local_state_client.py:194-216 | What one stream gives after "$", "0" or an id |
| LocalState.LocalStateClient.ReadAfter | core/local_state_client.py:204-214 | The scan for the id returns at most `count` messages behind its first occurrence |
| LocalState.LocalStateClient.XRead | core/local_state_client.py:194-217 | The streams with something to return, in the order asked for |
| LocalState.LocalPipeline.Execute | core/local_state_client.py:46-66 | Carries out the queued commands in order, returns the outcome of each on the lists as it found them, and empties the queue |
| LocalState.SetOhlcvRolling | core/redis_client.py:276-298 | One tick pushed and the list trimmed to 60 |
| LocalState.GetOhlcvRolling | core/redis_client.py:300-324 | The requested ticks; no list changes its contents |
| LocalState.AcquireLock | core/redis_client.py:178-197 | A set-if-absent with a time to live |
| LocalState.ReleaseLock | core/redis_client.py:198-206 | A delete of the key |
| IntelligentExit.AnalyzeExit | core/intelligent_exit.py:117-239 | The early-return code gives the first case that applies of the decision table |
| IntelligentExit.FindTier | core/intelligent_exit.py:288-297 | The search from the top finds the highest tier reached |
| IntelligentExit.ScoresInRange | core/intelligent_exit.py:117-385 | All five scores and the total lie in [0, 100], and SELL is decided exactly when the total reaches 70 |
| IntelligentExit.HardStopAlwaysSells | core/intelligent_exit.py:141-147 | A loss at or beyond the hard stop sells at every hold time |
| IntelligentExit.PanicWindowHolds | core/intelligent_exit.py:140-152 | In the first two hours nothing else sells |
| IntelligentExit.TrailingStopFires | core/intelligent_exit.py:275-310 | After the window the trailing stop fires exactly when a winner, held for its tier's time, has lost its tier's distance |
| IntelligentExit.WorseStillSells | core/intelligent_exit.py:117-385 | For a loser, a deeper loss, longer hold, lower prediction and worse news never turn SELL into HOLD, and never lower the total unless it sells |
| IntelligentExit.MonotoneIffNotWinning | core/intelligent_exit.py:117-385 | At a result of x percent nothing that gets worse turns SELL into HOLD if and only if x is at most 0 |
| IntelligentExit.BreakEvenHolds | core/intelligent_exit.py:200-239 | At break-even nothing sells |
| IntelligentExit.FallenWinnerTurns | core/intelligent_exit.py:275-310 | At every profit a winner that fell far enough is sold, and is held once it has lost the profit too |
| ExitNumbers.LossCutIff | core/intelligent_exit.py:182-188 | After two hours a position is loss-cut exactly at -6 percent, or at -4 percent after a day, or below |
| ExitNumbers.MomentumFadeIff | core/intelligent_exit.py:190-198 | A winner above 5 percent that is not stopped out is sold by the momentum trigger exactly for a prediction below -0.3 that is at most -1/3, or with the last three falling, or below -0.2 on average |
| ExitNumbers.StoppedOutIff | core/intelligent_exit.py:275-310 | A winner is stopped out exactly after the hours and at the distance of its profit's tier |
| ExitNumbers.LosersAreNotStoppedOut | core/intelligent_exit.py:282-283 | Losers and positions at break-even are never stopped out |
| ExitNumbers.NoTriggerUpToFive | core/intelligent_exit.py:190-198 | Up to 5 percent there is no momentum trigger |
| ExitNumbers.WeighedDecision | core/intelligent_exit.py:200-239 | A position that no trigger reaches is sold exactly when the weighted sum of its five scores, each from its numbers, reaches 70; scores, total and confidence are those |
| ExitNumbers.TriggeredTotal | core/intelligent_exit.py:173-198 | The total of a position that a trigger sold: by the distance beyond the stop, by the loss, or by fading momentum |
| ExitNumbers.FirstTwoHours | core/intelligent_exit.py:140-152 | In the first two hours only -8 percent or worse is sold |
| ExitNumbers.PercentagesAre | core/intelligent_exit.py:125-134 | Result and drawdown are the percentages of entry price and high |
| ExitNumbers.HandedOutDistance | core/intelligent_exit.py:409-424 | The distance handed out for logging is the tier's |
| Drawdowns.DrawdownAndDuration | core/performance_metrics.py:90-107 | The loop finds the largest loss from a running peak (without negative equities, over all pairs of days), and the largest distance back to the first day of the running peak |
| Drawdowns.MaxDrawdown | core/ab_testing.py:17-33 | The A/B loop raises exactly when a running peak is zero, and otherwise finds the same loss from a running peak, with the opposite sign; without negative equities it is the maximum over all pairs |
| Drawdowns.MaxPeakLossUnique | core/ab_testing.py:17-33 | That loss is one value, so the two loops agree up to sign on every curve on which the A/B loop returns |
| Drawdowns.PeakLossIsMaxLoss | core/performance_metrics.py:90-104 | Without negative equities the running peak is always the worst day to have started from |
| Drawdowns.MaxLossUnique | core/performance_metrics.py:90-106 | The maximum over all pairs is one value |
| Drawdowns.MaxDurationUnique | core/performance_metrics.py:104-107 | So is the duration |
| Drawdowns.DrawdownPositiveIff | core/performance_metrics.py:90-106 | The drawdown is positive if and only if some later day is below an earlier positive one |
| Drawdowns.DurationZeroIff | core/performance_metrics.py:95-107 | From a positive start the duration is 0 if and only if every day is above the day before |
| Drawdowns.DurationWithoutDrawdownIff | core/performance_metrics.py:95-107 | There is a duration without any drawdown if and only if the curve never falls and stands still on some day |
| Drawdowns.FlatCurveHasDuration | core/performance_metrics.py:104-107 | A flat curve has drawdown 0 but its length as duration |
| Drawdowns.OnePassIsMaxIff | core/performance_metrics.py:90-104 | The one-pass drawdown is the largest loss of every curve that stays at or above a bound if and only if the bound is not negative |
| Drawdowns.PlungeBreaksOnePass | core/performance_metrics.py:90-104 | From a, 2a to -a, for every positive a, the one-pass value is 150% and the largest loss 200% |
| SecretMask.MaskString | core/cloud_logger.py:268-273 | The loop replaces one secret after the other |
| SecretMask.MaskIsComplete | core/cloud_logger.py:268-273 | No maskable secret is left, whatever the order, the overlaps and the other secrets on the list; a later replacement never brings back an earlier secret |
| SecretMask.NothingNew | core/cloud_logger.py:268-273 | A replacement never creates a maskable text that was not there |
| SecretMask.Removed | core/cloud_logger.py:268-273 | A replacement removes a maskable secret |
| SecretMask.MaskIsIdempotent | core/cloud_logger.py:268-273 | Masking twice is masking once |
| SecretMask.CleanTextUnchanged | core/cloud_logger.py:268-273 | Text without any secret is left as it is |
| SecretMask.PiecesAreKept | core/cloud_logger.py:268-273 | Masking keeps everything around a secret: text and masked text are the same pieces, with the secret and with ten stars between them |
| SecretMask.StarFreeIsMaskable | core/cloud_logger.py:268-273 | Every non-empty secret without a star is covered |
| SecretMask.MaskableIffAlwaysRemoved | core/cloud_logger.py:268-273 | A secret is removed from every text if and only if it neither starts nor ends with a star nor holds the whole mask |
| Compliance.ComplianceGuardian.CheckOrder | core/compliance.py:72-145 | The verdict after block list, mandatory fields, wash-trade test and limits, and the trimmed buffer |
| Compliance.ValueCheckPassesIff | core/compliance.py:175-183 | The value check passes exactly the readable orders within the limit and those whose value is minus infinity or not a number |
| Compliance.ComplianceGuardian.DetectWashTrade | core/compliance.py:155-173 | Finds a clash exactly when the buffer holds an opposite trade of symbol and user in the window |
| Compliance.ComplianceGuardian.CleanupRecentTrades | core/compliance.py:225-232 | Keeps exactly the trades of the window |
| Compliance.TrimmingIsInvisible | core/compliance.py:72-145 | Trimming the buffer never changes a verdict compared with keeping all approvals |
| Compliance.NoWashTrades | core/compliance.py:72-145 | No two approved orders of one symbol and user on opposite sides are less than 60 seconds apart, over any run |
| Compliance.FreshGuardian | core/compliance.py:37-145 | Both from the start of a new guardian |
| Verdicts.ApprovedIff | core/compliance.py:72-173 | Over every run of a new guardian an order is approved if and only if its symbol is not blocked, all six fields are there, its value passes, and no order approved before it has the same symbol and user, the opposite side and less than 60 seconds between |
| Verdicts.BlockedIsNeverApproved | core/compliance.py:95-100 | No approval of any run has a blocked symbol |
| Verdicts.HistoryIs | core/compliance.py:124-131 | The history holds exactly what the approved orders left |
| Compliance.SameVerdict | core/compliance.py:72-145 | One order gets the same verdict from buffer and history, and the buffer stays sufficient |
| Throttle.Limiter.WaitIfNeeded | core/alpaca_rate_limiter.py:19-29 | A call within one interval of the last stamp sleeps up to one interval behind it, any other goes on at once; the stamp is the time at its end, at least one interval after the last |
| Throttle.Limiter.Throttle | core/alpaca_rate_limiter.py:58-64 | The same for the wrapper, which reads the clock again in both cases |
| Throttle.GrantsAreSpaced | core/alpaca_rate_limiter.py:19-29 | Consecutive grants of one limiter are at least one interval apart |
| Throttle.WindowBound | core/alpaca_rate_limiter.py:11-29 | A closed window of length L holds at most floor(L/interval)+1 grants |
| Throttle.MinuteBound | core/alpaca_rate_limiter.py:11-29 | A minute holds at most 151 grants, under the documented 200 |
| Throttle.MinuteBoundIsTight | core/alpaca_rate_limiter.py:11-29 | 151 are possible |
| Scheduler.RoundIsFair | core/specialist_registry.py:296-312 | Any n consecutive picks visit each of the n normal symbols exactly once and never a high-priority one |
| Scheduler.RoundIsRotation | core/specialist_registry.py:308-312 | They are the list of normal symbols, rotated |
| Scheduler.PickInRange | core/specialist_registry.py:296-312 | Whatever the sets have become, a pick is a normal symbol, there is one if there are any, and the index stays in range |
| Scheduler.AllRefreshedInTime | core/specialist_registry.py:236-294 | Ticks with a cutoff of their own and a time for each refresh: if refreshes succeed and nothing that is fresh after a tick has expired at the next, max(0, s - 3n) of s stale symbols are left after n ticks, whatever the set order, so all are refreshed within ceil(s/3) ticks |
| Scheduler.SuccessesCount | core/specialist_registry.py:236-294 | Without the success hypothesis: every successful refresh takes exactly one symbol off the stale ones, and a failed one none |
| Scheduler.TickClears | core/specialist_registry.py:236-252 | A tick takes as many symbols out of the stale set as refreshes succeed: three or all of them if none fails |
| Scheduler.RefreshClears | core/specialist_registry.py:239-252 | Refreshing distinct stale symbols clears exactly those whose refresh brought a report |
| Scheduler.ReportsAre | core/specialist_registry.py:314-337 | A successful refresh leaves the report of its time, and all other reports stay |
| Scheduler.PriorityDecides | core/specialist_registry.py:151-157 | After an update of the priorities a full round of picks visits exactly the symbols that no text means, and the next ticks take up exactly the meant ones without a fresh report, until none is left |
| Scheduler.RaisedBy | core/specialist_registry.py:151-157 | A symbol is raised exactly by a text that is not empty and means it in some spelling |
| Scheduler.StockSpecialistRegistry.NextNormalSymbol | core/specialist_registry.py:296-312 | Pick and new rotation index |
| Scheduler.StockSpecialistRegistry.GetStaleHighPriority | core/specialist_registry.py:282-294 | Lists each stale high-priority symbol once, in some order |
| Scheduler.StockSpecialistRegistry.RefreshHighPriority | core/specialist_registry.py:236-253 | One tick refreshes the first three stale symbols, each with a report of its own time or a failure, and creates their agents |
| Scheduler.StockSpecialistRegistry.constructor | core/specialist_registry.py:66-100 | The universe is the cleaned watch list without its empty texts |
| Scheduler.StockSpecialistRegistry.AddSymbol | core/specialist_registry.py:134-139 | Appends a new symbol in its clean spelling; the universe stays duplicate-free and clean |
| Scheduler.StockSpecialistRegistry.RemoveSymbol | core/specialist_registry.py:141-149 | Removes the first occurrence of the clean symbol, its agent and its report; a duplicate-free universe no longer holds it |
| Scheduler.StockSpecialistRegistry.UpdatePriority | core/specialist_registry.py:151-157 | From here on the rotation holds exactly the symbols that no text means, and the stale symbols are exactly the meant ones without a fresh report |
| SymbolNames.CleanIsClean | core/specialist_registry.py:136-136 | A cleaned name has no lower-case letter and no blank at either end |
| SymbolNames.CleanFixesClean | core/specialist_registry.py:136-136 | Cleaning leaves exactly the clean names as they are, so cleaning twice is cleaning once |
| SymbolNames.CleanIsMiddle | core/specialist_registry.py:136-136 | Cleaning capitalises and cuts blanks, and only blanks, off both ends |
| SymbolNames.CapitalOf | core/specialist_registry.py:136-136 | A small letter becomes the capital of the same place in the alphabet |
| SymbolNames.BlanksAre | core/specialist_registry.py:136-136 | Blanks are the ten ASCII characters that stripping cuts |
| TradeLearning.AddTradeDescribes | core/trade_intelligence.py:335-375 | One more trade keeps the statistics an exact description: wins plus losses is the total, count times average is the sum, and the extremes are reached |
| TradeLearning.AdjustedInRange | core/trade_intelligence.py:379-440 | The adjustment stays in [-0.1, 0.35], inside the clamp's [-0.25, 0.35]; after a win it is half the previous one |
| TradeLearning.LowestAdjustedIff | core/trade_intelligence.py:379-440 | It is -0.1 exactly after a loss that follows mostly wins without much churn |
| TradeLearning.AdjustedIs | core/trade_intelligence.py:379-440 | The adjustment in every case, from the weighted shares of wins and churn among the recent trades; the clamp never binds |
| TradeLearning.DecayIs | core/trade_intelligence.py:405-408 | A trade of the moment weighs 1, one of a day ago a half, and from four days on a fifth |
| TradeLearning.LosingStreak | core/trade_intelligence.py:379-440 | Two or more recent losses and no win raise the bar by at least 0.2 whatever the ages: by exactly 0.2 without churn, by the full 0.35 when all were held for under an hour |
| TradeLearning.WeightBounds | core/trade_intelligence.py:398-414 | No trade weighs less than 0.2, and the weight of a kind is between nothing and the total, reached when none or all trades are of it |
| TradeLearning.PenaltyIs | core/trade_intelligence.py:549-557 | After n rounds, at least one, a penalty is exactly itself cut by a fifth n times, or 0 as soon as that is below 0.05 |
| TradeLearning.PenaltyShrinks | core/trade_intelligence.py:549-557 | After n rounds a penalty is at most 0.35 times 0.8 to the power of n, and 0 or at least 0.05 |
| TradeLearning.NineRoundsForgive | core/trade_intelligence.py:549-557 | Nine rounds bring any penalty to exactly 0 and leave a bonus alone |
| TradeLearning.EightRoundsDoNot | core/trade_intelligence.py:549-557 | Eight rounds do not always |
| TradeLearning.TunedInRange | core/trade_intelligence.py:587-645 | Tuned hold stays in [4, 8] hours and the bypass in [8, 12] |
| TradeLearning.TunedMoves | core/trade_intelligence.py:587-645 | Hold time and bypass rise, or fall, exactly under the conditions on counts and P&L of the last 50 trades, short of their bounds, and by how much |
| TradeLearning.LosingCount | core/trade_intelligence.py:598-606 | The counts of losing trades, and of those held for under an hour, are the numbers of such trades |
| TradeLearning.ChurnCount | core/trade_intelligence.py:598-606 | The churn count is the number of trades held for under an hour |
| TradeLearning.WinCount | core/trade_intelligence.py:347-353 | The win count is the number of trades that won |
| TradeBook.StatisticsAreExact | core/trade_intelligence.py:277-377 | After any entries and exits of a fresh instance every symbol's figures describe exactly its completed trades, session P&L is the sum over trades and over symbols, and adjustments and tuning are in range |
| TradeBook.StepKeeps | core/trade_intelligence.py:242-333 | One entry or exit keeps all of that |
| TradeCash.RecordedTradeIs | core/trade_intelligence.py:277-327 | A recorded exit makes one trade: P&L plus cost is what it brought in, the percentage is of the entry price, the hours are from entry to exit; session figures and churn alerts follow it |
| TradeCash.SessionIsTill | core/trade_intelligence.py:242-327 | Over every run session P&L is what the recorded exits brought in minus what their entries cost, folded from the events alone, and so are the counts |
| TradeCash.UnrecordedExit | core/trade_intelligence.py:281-292 | An exit without an entry changes nothing, one with entry price zero only loses the position |
| TradeBook.ExitTimes | core/trade_intelligence.py:533-548 | An exit tunes exactly four hours or more after the last tuning, and notes a forgiveness round exactly two hours or more after the last note |
| TradeBook.UntunedAtFirst | core/trade_intelligence.py:171-181 | A fresh instance holds for 4 hours and bypasses at 8 until an exit four hours or more after its start |
| TradeBook.RoundsTakeTime | core/trade_intelligence.py:533-548 | Forgiveness rounds are at least two hours apart |
| TradeBook.LowestAdjustmentReached | core/trade_intelligence.py:277-440 | A fresh instance reaches -0.1 by two wins and a loss of a symbol |
| TradeBook.StepForgives | core/trade_intelligence.py:533-557 | An event that closes no trade of a symbol changes its adjustment by one forgiveness round or not at all |
| TradeBook.OnlyForgiven | core/trade_intelligence.py:533-557 | Without trades of a symbol its adjustment is what the rounds make of it |
| TradeBook.PenaltyIsForgotten | core/trade_intelligence.py:533-557 | After any history, nine or more rounds without a trade of the symbol leave no penalty and every bonus as it was |
| TradeRecorder.TradeIntelligence.RecordExit | core/trade_intelligence.py:277-333 | No open position, a zero entry price (the position is lost and nothing recorded), or a completed trade with all its effects |
| TradeRecorder.TradeIntelligence.RecordEntry | core/trade_intelligence.py:242-275 | The open position of the symbol, replacing an earlier one |
| TradeRecorder.TradeIntelligence.UpdateSymbolIntelligence | core/trade_intelligence.py:335-377 | Statistics and adjustment of the trade's symbol, and of no other |
| TradeRecorder.TradeIntelligence.Tally | core/trade_intelligence.py:345-374 | The counters and running averages, field by field |
| TradeRecorder.TradeIntelligence.CalculateConfidenceAdjustment | core/trade_intelligence.py:379-440 | The loop over the recent trades computes the decayed rates and the clamped adjustment |
| TradeRecorder.TradeIntelligence.SelfTuneParameters | core/trade_intelligence.py:587-645 | The three rules, one after the other |
| TradeRecorder.TradeIntelligence.MaybeApplyForgiveness | core/trade_intelligence.py:533-557 | A round for every symbol at least two hours after the last, and none at the first exit |

## Left out

- Floating-point error: money and prices are exact reals; only the rounding to six decimals is modelled.
- Backtest: data loading, indicators, noise, random news, CSV logs of trades and equity, order id text, missing (NaN) closing prices. The columns of a frame are numeric, so a division by a zero quantity gives a non-finite average price and no exception.
- Backtest: strategies that change the account object they are handed, or that are not deterministic; a callback makes at most `calls` client calls, for every bound `calls`, and an order's context is its prognosis or nothing.
- Backtest: `get_position`, `get_open_position` and the result summary of a run.
- Simulation.SimulationAccount.UpdatePortfolioValue: positions are values in a map, so a strategy cannot alias one.
- Kill switch: each call is one step, races inside one call are not modelled; `check_halt` only raises on `is_halted`; Slack, the HTTP mass-cancel and the watchdog reset; a local-mode client whose calls are coroutines.
- Risk manager: AI rules of `evaluate_new_trade` behind the halt gate, liquidation through the broker (only whether it is asked for), tracing and log text.
- Redis: transport, JSON encoding, `publish`, `ping`, `aclose`, sync twins of `get`, `set` and `delete`, which have the same bodies; a deadline compares an exact clock.
- Drawdowns.DrawdownAndDuration: the value before rounding to two decimals; Sharpe, Sortino, Calmar and the other metrics.
- Compliance: the audit log, `check_trade` with its daily counter.
- SecretMask.MaskString: the list of secrets is a parameter; its cache is not modelled, and a source of the list admits only secrets longer than four characters.
- Throttle: the lock is held for the whole call, so calls are steps.
- Scheduler: normal-rotation timing, shutdown in the middle of a tick, letters and blanks beyond ASCII in symbol names.
- TradeRecorder.TradeIntelligence.RecordExit: one clock reading for a whole call; the position is long as in the source; persistence, agent attribution and warnings other than the churn count.
- TradeRecorder.TradeIntelligence.CalculateConfidenceAdjustment: a clock that has jumped back by exactly 24 hours, where the code divides by zero.
- Trade intelligence: history loaded at start-up, manual resets, `should_trade` and reports.
