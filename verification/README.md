# Verified models of the trading core

These Dafny modules model the parts of the trading system that decide and account for
trades, and prove what the system relies on, over whole runs:

- the SIM exchange (`Money`, `SimModel`, its exception in `SimActual`, `Simulator`, and the
  `Sim*` theorem modules),
- the risk gate and what a stopped-out approval can lose (`Risk`, `RiskRules`, `RiskRuns`, `StopLoss`),
- the AUTO-mode governor and the hand-off of closed trades into it (`Governor`, `HandOff`,
  `Delivery`, `Pipeline`),
- performance statistics and the backtest report (`Performance`, `BacktestReport`),
- the trading-week calendar (`TradingWeek`),
- replay: ticks, the point-in-time context, the canonical encoding, its hash and the
  stub analyst (`Replay`, `ReplayContext`, `JsonNumber`, `CanonicalJson`, `ContextHash`, `ReplayAnalyst`),
- the pacing queue (`PacingQueue`) and the paper broker's gateway and port (`IbGateway`, `IbPort`).

Code that updates objects is modelled by classes whose methods are proved equal to a
function on the object's state; runs of those functions carry the theorems. Amounts that
are booked are whole cents (`int`), prices from outside are real cents, and rounding is
`floor(x + 1/2)`. Quantities are whole shares, as sizing always floors. Basis points and
percentages are exact. Times are milliseconds; days are counted from the epoch.

`dafny verify dfyconfig.toml` checks everything.

## Where the code and its descriptions differ

The models follow the code. Each of these is stated by a lemma or visible in a contract.

- A scale-out books the entry commission once per piece, so realized P&L drifts from cash
  (`SimAccounting.ScaleOutBreaksExactness`); exactly when is `SimAccounting.FlatExactly` for
  one book and `SimAccounting.ExactIffAdditive` for all.
- The final close overwrites the bracket's own P&L, so closed trades leave out what was
  scaled out of a bracket; they add up to the portfolio's P&L exactly when that nets to
  zero (`SimTotals.RealizedExactly`, `SimTotals.RunAddsUp`).
- `ModifyBracket` has moved stop and target when it refuses a quantity (`SimCalls.ModifyExactly`).
- A target added to a bracket without a target leg exits with no order id, and the fill
  schema refuses that fill, as it does one priced below a cent. The operation then throws
  between booking and record, and its loop leaves later brackets unvisited
  (`SimActual.ThrowSkipsTheRest`): a stop goes unchecked, isolation fails
  (`SimIsolation.RefusalBreaksIsolation`), cash has moved without a record
  (`SimAlways.StepSoundExactly`). Ids, one-way statuses, legs and closed trades do not
  depend on that and hold in every run; cash, isolation and entry fills hold in runs in
  which nothing is refused, `SimModel.Accepted`. These are exactly the runs that never
  throw (`SimActual.RunAgrees`), and what is refused is `SimActual.RefusedExactly`.
- A limit entry fills at the current book, not at its limit (`SimEvents.BarOnPending`).
- Sizing ignores the requested quantity (`RiskRules.ApprovedRisk`).
- The risk of a proposal is rounded to cents before the total-risk test: sub-cent stop
  distances pass unseen (`RiskRuns.SubCentRiskExceeds`), up to half a cent of them in all
  (`RiskRuns.SlackExactly`).
- A short with its stop at its entry passes the side check and makes sizing divide by
  zero; the proposal schema then throws, or the budget is negative and it is rejected
  (`RiskRules.RejectedExactly`, `RiskRules.ApprovedExactly`).
- The fill model is pessimistic at a stop unless spread and slippage are absurd together
  (`StopLoss.NeverBeatsStopExactly`).
- The governor resets its day on any change of day, also backwards, and results carry
  their close time (`HandOff.LateResultBreaksCap`); the cap holds exactly while no day is
  come to twice (`HandOff.CapHoldsExactly`).
- The pacing interval separates first attempts from what came before; retries keep it only
  if their backoff does (`PacingQueue.AttemptsSpacedExactly`).
- A paper bracket that is cancelled becomes closed when a protective leg fills later, and
  a closed one becomes cancelled by a cancel (`IbPort.OverFlips`); neither reopens.
- A target leg that draws order id zero is dropped, and then no leg transmits (`IbPort.LastLegTransmits`).

## Model

| member | source | states |
|---|---|---|
| `Money.CommissionSubadditive` | packages/core/src/simulator.ts:74-82 | splitting an order never lowers its unrounded commission, for every rate, minimum and cap |
| `Money.NeverFillsInside` | packages/core/src/simulator.ts:103-110 | in a non-negative book, crossed or not, a buy fills at the ask or above and a sell at the bid or below |
| `Money.CommissionExactly` | packages/core/src/simulator.ts:74-82 | the commission is the rate per share, or the minimum where that is higher, or the cap where that is lower than either, to the nearest cent |
| `SimLedger.EnterBalanced` | packages/core/src/simulator.ts:310-340 | an entry turns a pending bracket into one entry fill and holdings; its cash move is exactly the holdings plus the commission it paid |
| `SimLedger.ExitAllBalanced` | packages/core/src/simulator.ts:343-387 | a full exit leaves shares bought equal to shares sold, and cash moves by realized P&L plus the change in what the bracket carries |
| `SimLedger.ExitPartBalanced` | packages/core/src/simulator.ts:509-545 | the same for a partial exit: bought = sold + still held, to the cent |
| `SimLedger.PostSound` | packages/core/src/simulator.ts:327-339 | booking a balanced execution into one bracket keeps the layout of ids, every other bracket's conservation, every portfolio's cash equation, and at most one leg fill per bracket ever placed |
| `SimRuns.SweepSound` | packages/core/src/simulator.ts:276-307 | both loops over all portfolios and brackets keep the state sound, if they refuse no fill |
| `SimRuns.StepSound` | packages/core/src/simulator.ts:256-285 | every operation that refuses no fill keeps soundness: bar, quote, place, modify, cancel, drain, reset, read |
| `SimRuns.RunSound` | packages/core/src/simulator.ts:196-201 | after every run without a refused fill: each portfolio's cash = starting cash + realized P&L - value of open longs + value of open shorts + (entry commissions booked on exits - paid at entry) per filled bracket; one entry fill per opened bracket; filled entry quantity = exit fills + open quantity; no bracket ever placed has more than one fill on its stop or target |
| `SimAlways.StepSoundExactly` | packages/core/src/simulator.ts:425-446 | from sound books, an operation leaves sound books if and only if it does not throw: a booking without its record is never accounted for |
| `SimAlways.RunSoundExactly` | packages/core/src/simulator.ts:425-446 | the books of a run are sound all along if and only if it throws nowhere |
| `SimAccounting.BookedPieces` | packages/core/src/simulator.ts:527-531 | the entry commissions booked by n exit pieces are one full commission when n = 1 and otherwise more than the unrounded commission of everything sold minus n/2 cents |
| `SimAccounting.ClosedGap` | packages/core/src/simulator.ts:527-534 | a closed bracket booked back at least its paid entry commission minus half a cent a piece, and exactly it when it left in one piece |
| `SimAccounting.FlatBook` | packages/core/src/simulator.ts:366-373 | once flat, change in cash is at least realized P&L minus half a cent per exit piece, and equals it when no bracket was scaled out |
| `SimAccounting.FlatExactly` | packages/core/src/simulator.ts:527-534 | a flat portfolio's change in cash is its realized P&L plus the commissions of its exit pieces at their entry price less the entry commissions paid; so they are equal if and only if those are |
| `SimAccounting.ExactIffAdditive` | packages/core/src/simulator.ts:74-82 | every run that ends flat without a refused fill has cash and realized P&L agree if and only if splitting an order never changes its rounded commission - or slippage is exactly 100%, where no sale is ever accepted |
| `SimAccounting.MinimumNotAdditive` | packages/core/src/simulator.ts:79-81 | a minimum per order that binds for two orders as for one makes the schedule not additive |
| `SimAccounting.ScaleOutBreaksExactness` | packages/core/src/simulator.ts:527-534 | a concrete run with a scale-out at a dollar an order: the flat book's cash has a dollar more than realized P&L says, and its only closed trade knows of half the loss |
| `SimTotals.RunAddsUp` | packages/core/src/simulator.ts:365-377 | in every run, throws, resets and drains included: a strategy's realized P&L is the total of its waiting closed trades plus the net P&L of the pieces scaled out, plus what drains took, less what resets wiped; and every waiting trade has an entry price |
| `SimTotals.RealizedExactly` | packages/core/src/simulator.ts:527-545 | so the waiting trades of a portfolio add up to its realized P&L if and only if those parts cancel out; without drains and resets, if and only if the pieces scaled out net to zero |
| `SimTotals.CashExactly` | packages/core/src/simulator.ts:365-377 | in a run that throws nowhere, the waiting trades of a flat portfolio add up to its change in cash if and only if those parts and the commissions of split orders cancel out |
| `SimPlain.RunWhole` | packages/core/src/simulator.ts:365-377 | in a run that scales nothing out and throws nowhere the books are sound and each closed bracket left in one piece, resets and drains or not |
| `SimPlain.WholeBookExact` | packages/core/src/simulator.ts:366-373 | so a flat portfolio's change in cash is its realized P&L |
| `SimPlain.ClosedTradesAddUp` | packages/core/src/simulator.ts:411-423 | without scale-outs, resets and drains, throws or not, a strategy's closed trades add up to its realized P&L; and to its change in cash once flat, if nothing threw |
| `SimLifecycle.BarLeavesInside` | packages/core/src/simulator.ts:390-408 | after a bar that refuses no fill every bracket still open on its ticker lies strictly inside its stop and target for that bar |
| `SimLifecycle.SpanningBarStops` | packages/core/src/simulator.ts:264-269 | a bar that reaches the stop closes on the stop order, also when it spans the target |
| `SimEvents.BarOnOpen` | packages/core/src/simulator.ts:390-408 | a bar that refuses nothing takes an open bracket of its ticker out around the worse of stop and open, on the stop order, if it reaches the stop; else around the target, on the target order, if it reaches that; and leaves it as it is if and only if it reaches neither |
| `SimEvents.BarOnPending` | packages/core/src/simulator.ts:288-307 | a bar that refuses nothing lets a pending bracket of its ticker in, at the book around the close and on its parent order, if and only if the entry is a market entry or its limit lies within the bar; it may then leave like any open one |
| `SimEvents.BarElsewhere` | packages/core/src/simulator.ts:276-294 | a bar leaves brackets of other tickers and finished ones as they are |
| `SimEvents.QuoteOnBracket` | packages/core/src/simulator.ts:296-303 | a quote that refuses nothing lets a pending bracket of its ticker in, at its own book, if and only if the entry is a market entry, or the ask is at or below the limit of a long, or the bid at or above that of a short; every other bracket stays |
| `SimEvents.QuoteMarks` | packages/core/src/simulator.ts:256-262 | a quote without a price changes nothing; any other marks its ticker with the quoted sides, for lack of one the last trade, else the other side |
| `SimEvents.BarMarks` | packages/core/src/simulator.ts:271-275 | a bar marks its ticker with the book around its close, at its time |
| `SimCalls.ModifyExactly` | packages/core/src/simulator.ts:486-545 | a modification of a working bracket sets exactly the levels it names to the prices it names, whatever becomes of the quantity; a smaller quantity resizes a pending bracket and scales an open one out at the mark; no other bracket changes |
| `SimCalls.CancelExactly` | packages/core/src/simulator.ts:548-597 | a pending bracket is cancelled, an open one leaves in full at the mark on its parent order, a finished one stays; no other bracket changes |
| `SimCalls.PlaceExactly` | packages/core/src/simulator.ts:451-483 | a new bracket on the terms of the request comes last in its strategy's book; a market entry on a marked ticker enters there and then at the mark; LIVE changes nothing |
| `SimCalls.PlaceKeepsOthers` | packages/core/src/simulator.ts:451-483 | and every bracket there was stays in its place as it was |
| `SimCalls.ResetExactly` | packages/core/src/simulator.ts:653-670 | a reset leaves one portfolio with its starting cash and nothing else, and changes nothing else |
| `SimCalls.RunStarts` | packages/core/src/simulator.ts:231-244 | in every run, throws included, every portfolio starts with the configured cash |
| `SimAlways.OneWay` | packages/core/src/simulator.ts:169-185 | between any two points of any run, throws included, a bracket only moves pending to open to closed or pending to cancelled, never grows, keeps its identity and entry, and is frozen once closed or cancelled |
| `SimLegs.NeverBothLegs` | packages/core/src/simulator.ts:264-269 | of all the fills a run records, throws included, at most one is on the stop or the target of a bracket that was ever placed, reset or not |
| `SimLifecycle.RunCovered` | packages/core/src/simulator.ts:474-481 | after a run without a refused fill no pending market entry sits on a ticker with a mark, and every open bracket's ticker has one |
| `SimActual.SweepAgrees` | packages/core/src/simulator.ts:291-306 | the loops, left at the first refused fill, throw exactly when the fills of the whole sweep are not all accepted, and compute that sweep otherwise |
| `SimActual.StepAgrees` | packages/core/src/simulator.ts:425-446 | from accepted fills an operation throws if and only if it books a fill the schema refuses, and otherwise does what the run theorems are about |
| `SimActual.RunAgrees` | packages/core/src/simulator.ts:425-446 | a run throws nowhere if and only if its unthrown counterpart has accepted fills only, and then both end in the same state |
| `SimActual.RefusedExactly` | packages/core/src/simulator.ts:425-446 | a booking is refused if and only if its book is worth less than half a cent after slippage, or it is a target exit without a target order |
| `SimActual.ThrowsAtRefusal` | packages/core/src/simulator.ts:276-284 | a loop that throws does so at a bracket whose fill is refused |
| `SimActual.ThrowSkipsTheRest` | packages/core/src/simulator.ts:276-284 | every bracket up to it has been visited, and every bracket after it is left as it was: entries pending, stops unchecked |
| `SimActual.RunMarked` | packages/core/src/simulator.ts:474-481 | in every reachable state, throws included, every open bracket's ticker has a mark |
| `SimActual.NeverWithoutMarket` | packages/core/src/simulator.ts:508-512 | so neither a scale-out nor a flatten ever fails for lack of a market, throws included |
| `SimTrades.OneTradeEach` | packages/core/src/simulator.ts:411-423 | while nothing is drained, throws included, each closed bracket has exactly one closed trade, with its P&L, terms and time; any other bracket has none; no bracket ever placed has two |
| `SimAlways.LookupExact` | packages/core/src/simulator.ts:682-689 | in every run, throws included, every bracket in a portfolio is found, in its own place, under its id |
| `SimAlone.SweepTaken` | packages/core/src/simulator.ts:276-307 | a pass over every bracket keeps accepted fills if and only if each visit from where it starts books an accepted fill or none |
| `SimAlone.LoneAccepted` | packages/core/src/simulator.ts:225-244 | taking every other strategy's calls out of a play without a refused fill leaves one without a refused fill |
| `SimAlone.Isolated` | packages/core/src/simulator.ts:225-244 | if a run throws nowhere, neither does the same run with every other strategy's calls removed, and a strategy's portfolio and closed trades are the same in both, up to ids from the shared counter, and so are the marks |
| `SimIsolation.RunIsPlay` | packages/core/src/simulator.ts:486-487 | naming brackets by owner and place turns every run into a play that reaches the same state |
| `SimIsolation.RefusalBreaksIsolation` | packages/core/src/simulator.ts:276-307 | for every configuration, a run in which another strategy's refused entry leaves a market entry pending on a marked ticker that fills once that strategy is taken out |
| `SimulatorPort.Simulator.RecordFill` | packages/core/src/simulator.ts:425-446 | keeps a fill the schema accepts and refuses any other |
| `SimulatorPort.Simulator.OpenBracket` | packages/core/src/simulator.ts:310-340 | updates in place to the entry booked at the given book; a refused fill leaves it booked, unrecorded, and says so |
| `SimulatorPort.Simulator.CloseBracket` | packages/core/src/simulator.ts:343-387 | books the full exit at the leg's synthesized book, on the leg's order if it has one; a refused fill as above |
| `SimulatorPort.Simulator.FillPendingEntries` | packages/core/src/simulator.ts:288-307 | the nested loops compute the entry pass, left at the first refused fill |
| `SimulatorPort.Simulator.UpdateQuote` | packages/core/src/simulator.ts:256-262 | sets the mark from whichever prices are known and fills pending entries, up to a refused fill; nothing when no price is known |
| `SimulatorPort.Simulator.OnBar` | packages/core/src/simulator.ts:271-285 | marks, entry pass, exit pass, left at the first refused fill |
| `SimulatorPort.Simulator.CheckExits` | packages/core/src/simulator.ts:277-284 | the nested loops compute the exit pass, left at the first refused fill |
| `SimulatorPort.Simulator.PlaceBracket` | packages/core/src/simulator.ts:451-483 | draws ids, records the bracket and fills a market entry at an existing mark; refuses LIVE without a change, and says when the fill is refused |
| `SimulatorPort.Simulator.ModifyBracket` | packages/core/src/simulator.ts:486-506 | moves the levels first, then refuses an upward quantity, scales out an open bracket or resizes a pending one; says when the fill is refused |
| `SimulatorPort.Simulator.ScaleOut` | packages/core/src/simulator.ts:509-545 | books the partial exit at the mark, and says when there is none or the fill is refused |
| `SimulatorPort.Simulator.CancelBracket` | packages/core/src/simulator.ts:548-597 | cancels a pending bracket, flattens an open one at the mark, leaves others alone; says when the fill is refused |
| `SimulatorPort.Simulator.DrainClosedTrades` | packages/core/src/simulator.ts:628-642 | returns one strategy's closed trades in order and keeps the others in order; all of them without a strategy |
| `SimulatorPort.Simulator.ResetPortfolio` | packages/core/src/simulator.ts:653-670 | empties one portfolio back to its starting cash and reports its cash, P&L and number of open brackets before |
| `SimulatorPort.Simulator.Cash` | packages/core/src/simulator.ts:673-675 | the cash of a strategy, whose portfolio is created on first touch |
| `SimulatorPort.Simulator.RealizedPnl` | packages/core/src/simulator.ts:678-680 | its realized P&L, likewise |
| `Risk.ApprovalFits` | packages/core/src/risk-manager.ts:288-305 | an approval implies positive equity and takes the largest whole quantity whose stop distance fits the clamped budget, at most 2% of equity |
| `Risk.ApprovedSide` | packages/core/src/risk-manager.ts:227-230 | an approved long has its stop below its entry, an approved short above |
| `RiskRules.RejectedExactly` | packages/core/src/risk-manager.ts:197-321 | a draft is rejected by a rule if and only if that is the first one it breaks, in the order kill switch, stop side, averaging down, the three caps, per-trade risk, total risk, each in terms of the draft, the caller's limits and the open positions |
| `RiskRules.ApprovedExactly` | packages/core/src/risk-manager.ts:197-348 | and approved if and only if it breaks none and has its stop off its entry |
| `RiskRules.ApprovedRisk` | packages/core/src/risk-manager.ts:288-305 | an approval carries its risk to the nearest cent and the nearest ten-thousandth of a percent |
| `RiskRules.ApprovedOpens` | packages/core/src/risk-manager.ts:323-345 | an approved draft joins the book as an open position on its own terms, of the size approved; any other leaves the book as it is |
| `RiskRules.KillSwitchBlocks` | packages/core/src/risk-manager.ts:207-216 | while the kill switch is active no submission changes the book |
| `Risk.RemovalKeepsApproval` | packages/core/src/risk-manager.ts:204-348 | taking any position out of the book leaves an approval exactly as it was, proposal included |
| `Risk.AdditionKeepsRejection` | packages/core/src/risk-manager.ts:204-348 | adding a position anywhere in the book never turns a rejection into an approval |
| `Risk.OpenRiskConcat` | packages/core/src/risk-manager.ts:308-311 | open risk adds up over parts of the book |
| `RiskRuns.PctExactly` | packages/core/src/risk-manager.ts:312-315 | a total passes the rounded percentage test if and only if it is below 6.00005% of equity |
| `RiskRuns.NextKeeps` | packages/core/src/risk-manager.ts:130-161 | one approval by any manager, one close, size cut or stop tightening keeps the caps and the risk bound |
| `RiskRuns.RunWithinLimits` | packages/core/src/risk.ts:48-61 | from an empty book at fixed equity, any run of approvals by differently configured managers, closes, cuts and tightenings keeps at most 5 positions, 2 per strategy, 1 per ticker, and open risk below 6.00005% of equity plus half a cent, or plus 2% of equity where that is less |
| `RiskRuns.SlicesBooked` | packages/core/src/risk-manager.ts:288-315 | any five one-share drafts whose exact risks each pass the rounded test on top of those before are approved one after the other |
| `RiskRuns.SlackExactly` | packages/core/src/risk-manager.ts:304-315 | at every positive equity, a slack beyond 6.00005% holds in every run if and only if it is at least half a cent, or 2% of equity where that is less |
| `RiskRuns.RunWithinLimitsWholeCents` | packages/core/src/risk-manager.ts:304-315 | without the half cent when drafts are priced in whole cents |
| `RiskRuns.SubCentRiskExceeds` | packages/core/src/risk-manager.ts:304-304 | a concrete run of four sub-cent drafts that leaves 7.84% of equity at risk, since each rounds to a risk of nothing |
| `StopLoss.StopCostForm` | packages/core/src/simulator.ts:90-110 | leaving at a stop costs half the spread and the slippage, compounded |
| `StopLoss.NeverBeatsStopExactly` | packages/core/src/simulator.ts:95-102 | leaving at a stop is never better than the stop if and only if spread and slippage satisfy h*s <= h+s (long) - always for shorts |
| `StopLoss.UsualBookPessimistic` | packages/core/src/simulator.ts:90-93 | which every spread of at most 200% does |
| `StopLoss.AbsurdBookBeatsStop` | packages/core/src/simulator.ts:90-110 | a concrete spread and slippage, allowed by the configuration, that sell at twice the stop |
| `StopLoss.StoppedAt` | packages/core/src/simulator.ts:392-395 | a bar that reaches the stop, gaps included, and throws nothing closes at the book around the worse of stop and open, with the net P&L of that price |
| `StopLoss.StoppedLossBounds` | packages/core/src/risk-manager.ts:288-305 | a risk-approved long or short stopped out in one piece, gaps included, by a bar that throws nothing, loses at least the distance from its entry to the worse of stop and open (less half a cent a share when that is not in whole cents) plus both commissions, and at most 2% of the sizing equity plus entry slippage, gap, cost of leaving there and half a cent per share plus both commissions |
| `Governor.AutoGovernor.Touch` | packages/core/src/auto-governor.ts:80-98 | creates counters on first touch and rolls the daily count over on any change of day |
| `Governor.AutoGovernor.AdmitEntry` | packages/core/src/auto-governor.ts:105-120 | answers demoted if and only if the strategy is, cap reached if and only if it is not and its entries of the day are at the cap; changes nothing but the roll-over |
| `Governor.AutoGovernor.RecordEntry` | packages/core/src/auto-governor.ts:123-126 | counts one entry on the current day |
| `Governor.AutoGovernor.RecordResult` | packages/core/src/auto-governor.ts:134-155 | extends or resets the streak and demotes when it reaches the limit and was not demoted before |
| `Governor.AutoGovernor.IsDemoted` | packages/core/src/auto-governor.ts:158-160 | says whether the strategy is demoted, and rolls the day over |
| `Governor.AutoGovernor.ClearCooldown` | packages/core/src/auto-governor.ts:166-170 | resets streak and demotion, leaves the daily count |
| `HandOff.CountersFaithful` | packages/core/src/auto-governor.ts:128-170 | under any interleaving of closes, monitor ticks, entries, questions and clears: the loss count is the trailing run of losses, demotion has fired exactly once since the last clear if and only if the run reached the limit, and the daily count is the entries since the day last changed, never above the cap |
| `HandOff.EntryDeniedExactly` | apps/api/src/pipeline/pipeline.service.ts:301-316 | after any run an auto entry is denied if and only if the losses since the last clear have tripped the strategy or its entries since that day was last come to are at the cap |
| `HandOff.RunDeserved` | packages/core/src/auto-governor.ts:105-120 | in every run no entry is noted while its strategy is tripped or its day spent, and no denial while it is neither |
| `HandOff.DeliveredExactlyOnce` | apps/api/src/pipeline/pipeline.service.ts:378-408 | what the governor was told of a strategy followed by what still waits in the buffer is what closed, each trade once and in close order |
| `Delivery.StepAppends` | packages/core/src/simulator.ts:411-423 | any command but a drain, thrown or not, appends to the closed trades, and does the same whatever is there |
| `Delivery.EachBracketOnce` | apps/api/src/pipeline/pipeline.service.ts:366-409 | exchange and governor together, under any interleaving and whatever throws: a closed bracket's trade is exactly once among what the governor was told and what waits for it; any other bracket has none; no bracket has two |
| `Delivery.MonitoredOnce` | apps/api/src/pipeline/pipeline.service.ts:366-409 | and right after its strategy is monitored, among what the governor was told |
| `HandOff.MonitorCatchesUp` | packages/core/src/simulator.ts:628-642 | right after a monitor tick the governor has been told every trade the strategy closed |
| `HandOff.TouchesNoted` | apps/api/src/pipeline/pipeline.service.ts:394-398 | the days at which the governor turns to a strategy are given by the events alone: those of its entries, questions and clears, and at a monitor tick the close days of the trades that wait |
| `HandOff.DailyCap` | packages/core/src/auto-governor.ts:91-119 | while those days do not go back, no UTC day takes more auto entries than the cap |
| `HandOff.CapPerVisit` | packages/core/src/auto-governor.ts:92-96 | in every run a day takes at most the cap each time the events come to it |
| `HandOff.CapPerVisitTight` | packages/core/src/auto-governor.ts:92-96 | for every cap and number of visits a run that comes to no day more often takes cap times that many entries on one day |
| `HandOff.CapHoldsExactly` | packages/core/src/auto-governor.ts:91-119 | for every cap of at least one, the cap holds in every run whose events come to no day more than v times if and only if v is at most one |
| `HandOff.LateResultBreaksCap` | apps/api/src/pipeline/pipeline.service.ts:394-398 | a concrete run: a trade booked at its earlier close time lets a second entry through a cap of one |
| `Pipeline.AutoPipeline.ReconcileAutoResults` | apps/api/src/pipeline/pipeline.service.ts:366-409 | on the SIM rung drains the strategy's closed trades and feeds each to the governor at its close time, and reports how many and whether any demoted; nothing on a rung that reports none |
| `Pipeline.AutoPipeline.ExecuteAuto` | apps/api/src/pipeline/pipeline.service.ts:293-355 | asks the governor, which refuses a demoted strategy and a spent day, then places on the SIM exchange or the paper port of the request's rung; counts the entry exactly when it was admitted and its placement did not throw |
| `Performance.ComputePerformance` | packages/core/src/performance.ts:87-134 | any order of trades: counts, win rate, mean R over the trades that risked something, prefix sums in close order as curve, and as drawdown the largest fall from any earlier level or zero |
| `Performance.CountsExactly` | packages/core/src/performance.ts:106-115 | wins and losses are the trades that made and lost money; an R has exactly each trade with a stop off its entry |
| `Performance.RTimesRisk` | packages/core/src/performance.ts:61-67 | the R of a trade times the distance to its stop on every share is what it realized |
| `Performance.TiesInOrder` | packages/core/src/performance.ts:92-94 | trades that closed at one time stay in the order they were given |
| `Performance.AfterFalls` | packages/core/src/performance.ts:117-120 | the running high-water mark computes the largest fall over all pairs of levels |
| `Performance.TotalAnyOrder` | packages/core/src/performance.ts:92-94 | sorting by close time does not change the total |
| `Performance.CurveEnds` | packages/core/src/performance.ts:117-121 | the curve has a point per trade and ends at the total P&L |
| `Performance.CurveInOrder` | packages/core/src/performance.ts:92-94 | the curve runs in close order |
| `Performance.DrawdownBounds` | packages/core/src/performance.ts:118-120 | no fall between two curve points, or from zero, exceeds the drawdown |
| `BacktestReport.SimTradesToClosedTrades` | packages/core/src/backtest-report.ts:145-160 | keeps the filled trades in order |
| `BacktestReport.NoneDropped` | packages/core/src/backtest-report.ts:140-144 | drops nothing and changes no total when every trade was filled |
| `BacktestReport.FilledExactly` | packages/core/src/backtest-report.ts:145-160 | each goes in with its own P&L, size, entry, stop and time |
| `BacktestReport.TallyOutcomes` | packages/core/src/backtest-report.ts:91-138 | each bucket counts its kind |
| `BacktestReport.EverySignalOnce` | packages/core/src/backtest-report.ts:86-90 | the buckets and the unknown kind split the signals |
| `BacktestReport.BuildBacktestReport` | packages/core/src/backtest-report.ts:163-183 | the report describes the given trades and has every bucket count; its stubbed fraction times analyses is the stubbed count, within [0, 1] when no more were stubbed than analysed, zero without analyses |
| `BacktestReport.ReportAgreesWithBooks` | packages/core/src/backtest-report.ts:140-183 | drained into a report, all trades of any run, throws included, are in it, its total and the last point of the equity curve are what they add up to, and that is the realized P&L if and only if scale-outs, drains and resets cancel out |
| `BacktestReport.ReportAgreesWithCash` | packages/core/src/backtest-report.ts:162-183 | for a run that throws nowhere and ends flat, the total is the change in cash if and only if those and the commissions of split orders cancel out |
| `BacktestReport.PlainReportAgrees` | packages/core/src/backtest-report.ts:162-183 | so it is for every such run that scales nothing out and never resets or drains |
| `TradingWeek.TradingCalendar.NextTradingDay` | packages/strategies/src/friday-monday/trading-week.ts:53-60 | the bounded loop computes the forward scan of ten steps |
| `TradingWeek.TradingCalendar.PrevTradingDay` | packages/strategies/src/friday-monday/trading-week.ts:63-69 | the bounded loop computes the backward scan of ten steps |
| `TradingWeek.TradingCalendar.IsWeekClose` | packages/strategies/src/friday-monday/trading-week.ts:72-75 | decides whether the day is a week-close session |
| `TradingWeek.TradingCalendar.IsWeekOpen` | packages/strategies/src/friday-monday/trading-week.ts:78-81 | decides whether the day is a week-open session |
| `TradingWeek.LastOfWeek` | packages/strategies/src/friday-monday/trading-week.ts:71-75 | for every holiday set, a day is a week-close session if and only if it trades and no later day of its Monday-to-Sunday week does |
| `TradingWeek.FirstOfWeek` | packages/strategies/src/friday-monday/trading-week.ts:77-81 | likewise week-open and first |
| `TradingWeek.OneCloseOneOpen` | packages/strategies/src/friday-monday/trading-week.ts:84-93 | each week with a trading day has exactly one week-close and one week-open session, in that span |
| `TradingWeek.TradingDayExactly` | packages/strategies/src/friday-monday/trading-week.ts:41-45 | a trading day is one of the five from its week's Monday, and no holiday |
| `TradingWeek.NextAndPrevious` | packages/strategies/src/friday-monday/trading-week.ts:53-69 | the next trading day is the first one after, if there is one within eleven days; likewise before |
| `Replay.GroupIntoTicks` | apps/api/src/replay/replay-engine.ts:127-139 | the loop computes the ticks of the bars it is given |
| `Replay.TicksPartition` | apps/api/src/replay/replay-engine.ts:126-139 | the ticks laid end to end are the bars: nothing lost, repeated or reordered |
| `Replay.TicksUniform` | apps/api/src/replay/replay-engine.ts:110-114 | every tick is non-empty and holds bars of its own instant only |
| `Replay.TicksAdvance` | apps/api/src/replay/replay-engine.ts:116-119 | over sorted bars ticks step strictly forward |
| `Replay.BarOrder` | apps/api/src/replay/replay-engine.ts:120-124 | the comparison of bars is total and transitive |
| `Replay.BarOrderExactly` | apps/api/src/replay/replay-engine.ts:120-124 | bars come by time, and at one time by ticker in code-unit order |
| `Replay.SourceOrderForgotten` | apps/api/src/replay/replay-engine.ts:158-162 | bars unique by time and ticker give the same ticks in whatever order the source returns them |
| `Replay.ReplayEngine.RunTick` | apps/api/src/replay/replay-engine.ts:172-184 | sets the clock, feeds every bar of the tick, then monitors, scans and sweeps at that clock |
| `Replay.TickInOrder` | apps/api/src/replay/replay-engine.ts:172-184 | a tick feeds its bars in order, then monitors, scans and sweeps, all at its own time |
| `Replay.ReplayEngine.Run` | apps/api/src/replay/replay-engine.ts:158-203 | leaves the state of applying every tick in order, feeds every bar once, reports the ticks' timestamps and waits between ticks only |
| `Replay.ReplayPacing` | apps/api/src/replay/replay-engine.ts:80-93 | the waits of a replay add up to its simulated span divided by the speed |
| `Replay.NoLookahead` | apps/api/src/replay/replay-engine.ts:152-157 | for arbitrary monitor, scan and sweep that see visible candles only: adding later candles or extending the window leaves the shorter replay's ticks a prefix and the state after each of them unchanged |
| `Replay.VisibleExactly` | apps/api/src/replay/replay-market-context.provider.ts:45-57 | visible is what is stamped now or before, each as often as it is stored |
| `ReplayContext.ContextSeesVisibleOnly` | apps/api/src/replay/replay-market-context.provider.ts:47-67 | candles and latest quote depend on the stored candles up to now alone |
| `ReplayContext.CandlesPointInTime` | apps/api/src/replay/replay-market-context.provider.ts:57-67 | candles run oldest to newest, at most the limit, none after now, all of the ticker and timeframe asked |
| `ReplayContext.CandlesNewest` | apps/api/src/replay/replay-market-context.provider.ts:55-57 | a visible candle that is left out is no newer than any that is shown |
| `ReplayContext.LatestQuoteNewest` | apps/api/src/replay/replay-market-context.provider.ts:68-80 | the quote is the close of a newest visible candle on both sides, at its time; there is none exactly when no candle is visible |
| `CanonicalJson.CanonicalReads` | apps/api/src/replay/signal-context-hash.ts:30-41 | the parser of the RFC 8259 grammar reads the encoding, whatever delimiter follows, as the value with its keys sorted; so the encoding is well-formed JSON |
| `CanonicalJson.BeyondCanonical` | apps/api/src/replay/signal-context-hash.ts:30-41 | that parser also skips spaces and takes an escaped slash, which the encoding never writes |
| `JsonNumber.SpanOfNumber` | apps/api/src/replay/signal-context-hash.ts:31-31 | a number of section 6 of RFC 8259 is read to its end and no further |
| `JsonNumber.NumberTextExactly` | apps/api/src/replay/signal-context-hash.ts:31-31 | a text is read as a number, to its end, if and only if it is an optional minus, an integer part, an optional fraction and an optional exponent |
| `JsonNumber.NoNumbers` | apps/api/src/replay/signal-context-hash.ts:31-31 | two signs, a leading zero before a digit, a bare point and a bare exponent are no numbers |
| `CanonicalJson.CanonicalDecides` | apps/api/src/replay/signal-context-hash.ts:26-29 | two values encode alike if and only if they are equal up to object key order |
| `CanonicalJson.CanonicalRoundTrip` | apps/api/src/replay/signal-context-hash.ts:30-41 | parsing an encoding consumes all of it and gives a value equal up to key order |
| `CanonicalJson.SameThenNorm` | apps/api/src/replay/signal-context-hash.ts:36-36 | values equal up to key order have the same sorted form |
| `CanonicalJson.QuotedReads` | apps/api/src/replay/signal-context-hash.ts:31-38 | a quoted string, escapes and lone surrogates included, reads back as itself |
| `CanonicalJson.EscapedExactly` | apps/api/src/replay/signal-context-hash.ts:31-31 | a unit is written as itself, in two units where it has an escape of its own, or in six for other control characters and lone surrogates |
| `CanonicalJson.ArraysExactly` | apps/api/src/replay/signal-context-hash.ts:32-34 | an array is its values between brackets with commas and nothing else between them |
| `CanonicalJson.ObjectsExactly` | apps/api/src/replay/signal-context-hash.ts:35-40 | an object of two fields writes the smaller key first, whichever was given first, with colons and a comma |
| `ContextHash.SignedStep` | apps/api/src/replay/signal-context-hash.ts:47-49 | one signed 32-bit step is the unsigned FNV-1a step modulo 2^32 |
| `ContextHash.HashText` | apps/api/src/replay/signal-context-hash.ts:44-53 | the signed loop prints unsigned FNV-1a over code units |
| `ContextHash.XorBit` | apps/api/src/replay/signal-context-hash.ts:47-47 | a bit of the mix is set if and only if it is set in one of the two |
| `ContextHash.XorUndone` | apps/api/src/replay/signal-context-hash.ts:47-47 | what is mixed in can be taken out again |
| `ContextHash.OneUnitTells` | apps/api/src/replay/signal-context-hash.ts:44-53 | texts of equal length that differ in one code unit never hash alike: a step loses nothing |
| `ContextHash.HashOfA` | apps/api/src/replay/signal-context-hash.ts:44-53 | the published FNV-1a hashes of the empty text and of "a" |
| `ContextHash.HashOfFoobar` | apps/api/src/replay/signal-context-hash.ts:44-53 | and of "foobar" |
| `ContextHash.HashLower` | apps/api/src/replay/signal-context-hash.ts:51-52 | a hash is printed in lower case |
| `ContextHash.HashReadsBack` | apps/api/src/replay/signal-context-hash.ts:51-52 | the hash is eight hexadecimal digits that read back as the number hashed to |
| `ContextHash.DrawInUnitInterval` | apps/api/src/replay/signal-context-hash.ts:71-75 | the draw lies in [0, 1) and is the hash over 2^32 |
| `ReplayAnalyst.SameQuestionSameHash` | apps/api/src/replay/signal-context-hash.ts:93-104 | two requests encode alike if and only if they ask the same question up to key order in their contexts; then they hash alike |
| `ReplayAnalyst.AnalysisCache.Put` | apps/api/src/replay/replay-analyst.ts:60-62 | records a verdict under the request's hash |
| `ReplayAnalyst.ReplayLlmAnalyst.Answer` | apps/api/src/replay/replay-analyst.ts:83-91 | a recorded verdict marked as real, or the stub of the hash |
| `ReplayAnalyst.RecordedVerdictReplayed` | apps/api/src/replay/replay-analyst.ts:5-7 | a verdict recorded for a question is what every later replay of it gets |
| `ReplayAnalyst.StubsDeterministic` | apps/api/src/replay/replay-analyst.ts:13-14 | the same question always gets the same answer, stubbed exactly when no verdict is recorded |
| `ReplayAnalyst.StubConfidence` | apps/api/src/replay/replay-analyst.ts:104-107 | stub confidence lies in [0, 1] for every configured rate |
| `ReplayAnalyst.StubExactly` | apps/api/src/replay/replay-analyst.ts:93-107 | a draw below the rate proceeds with the rate as confidence; any other vetoes, the surer the further from it |
| `ReplayAnalyst.PassRateMonotone` | apps/api/src/replay/replay-analyst.ts:37-43 | raising the pass rate only adds to the questions that proceed; a question proceeds if and only if its hash is below rate times 2^32 |
| `PacingQueue.Queue.Enqueue` | apps/api/src/market-data/pacing-queue.ts:75-85 | appends the item and starts the drain loop if it is not running |
| `PacingQueue.Queue.Drain` | apps/api/src/market-data/pacing-queue.ts:92-104 | takes the first item and sleeps until its slot, or stops the loop when nothing waits |
| `PacingQueue.Queue.Resume` | apps/api/src/market-data/pacing-queue.ts:106-112 | ends a sleep by starting the attempt, or goes on to the next item |
| `PacingQueue.Queue.TaskDone` | apps/api/src/market-data/pacing-queue.ts:112-142 | backs off on a pacing error while retries are left, settles the item otherwise |
| `PacingQueue.RunPaced` | apps/api/src/market-data/pacing-queue.ts:92-104 | in every run of interleaved enqueues, wake-ups and task results, what was enqueued is what settled, then the one in flight, then what waits, in order; and the log of attempts, retries and settlements is legal |
| `PacingQueue.NothingStranded` | apps/api/src/market-data/pacing-queue.ts:92-104 | an idle queue has settled everything it was given, each once and in order |
| `PacingQueue.AttemptsBounded` | apps/api/src/market-data/pacing-queue.ts:117-141 | each item settles after between one and maxRetries + 1 attempts, fewer only on an outcome that is no pacing error |
| `PacingQueue.FirstAttemptsSpaced` | apps/api/src/market-data/pacing-queue.ts:145-153 | an item's first attempt starts at least the interval after the last attempt before it |
| `PacingQueue.RetriesBackOff` | apps/api/src/market-data/pacing-queue.ts:118-130 | a retry starts at least its backoff after the failure it follows |
| `PacingQueue.BackoffDoubles` | apps/api/src/market-data/pacing-queue.ts:117-122 | the backoff starts at the base and doubles up to the maximum |
| `PacingQueue.PacingErrorExactly` | apps/api/src/market-data/pacing-queue.ts:18-26 | a pacing error has code 162 or 420, or "pacing" in any case in its message |
| `PacingQueue.SlotExactly` | apps/api/src/market-data/pacing-queue.ts:145-153 | the next item waits exactly until the interval since the last start is over |
| `PacingQueue.AttemptsSpacedExactly` | apps/api/src/market-data/pacing-queue.ts:28-34 | all consecutive attempts, retries included, keep the interval in every run if and only if nothing is retried, there is no interval, or the first backoff covers it |
| `PacingQueue.DrainsInBoundedSteps` | apps/api/src/market-data/pacing-queue.ts:96-100 | once nothing more is enqueued the number of further steps is bounded |
| `PacingQueue.NeverStuck` | apps/api/src/market-data/pacing-queue.ts:92-104 | a queue that is not idle can always take a step, and is idle exactly when none is left |
| `IbGateway.Gateway.Merge` | apps/api/src/execution/ib-order-gateway.ts:375-391 | merges a half into what is known and emits the fill exactly when both halves are |
| `IbGateway.Gateway.OnExecDetails` | apps/api/src/execution/ib-order-gateway.ts:265-282 | hands the execution half to the join; ignores it without an id |
| `IbGateway.Gateway.OnCommissionReport` | apps/api/src/execution/ib-order-gateway.ts:284-289 | hands the commission half to the join; ignores it without an id |
| `IbGateway.Gateway.AllocateOrderId` | apps/api/src/execution/ib-order-gateway.ts:222-229 | gives out the next id and steps on; refuses before one is known |
| `IbGateway.Gateway.OnNextValidId` | apps/api/src/execution/ib-order-gateway.ts:241-252 | only the first valid id seeds the allocator |
| `IbGateway.ReportsIndependent` | apps/api/src/execution/ib-order-gateway.ts:192-193 | fills and the pending entry of one execution depend on its own halves alone |
| `IbGateway.JoinedExactlyOnce` | apps/api/src/execution/ib-order-gateway.ts:374-391 | for any interleaving with at most one half of each kind per execution: exactly one fill, the join, once both are in; held exactly while one is |
| `IbGateway.NeverMoreThanHalves` | apps/api/src/execution/ib-order-gateway.ts:374-391 | with repeated reports, never more fills than halves of either kind, counting the one held |
| `IbGateway.MergeExactly` | apps/api/src/execution/ib-order-gateway.ts:375-391 | a half that comes again replaces the one held; a complete report is emitted and no longer held; no other execution is touched |
| `IbGateway.NamelessIgnored` | apps/api/src/execution/ib-order-gateway.ts:269-270 | reports without an id leave no trace |
| `IbGateway.IdsConsecutive` | apps/api/src/execution/ib-order-gateway.ts:241-246 | order ids come out consecutively from the first valid id, whatever valid ids arrive later |
| `IbPort.IbBracket.OnStatus` | apps/api/src/execution/ib-execution-port.ts:211-234 | one status report changes leg and bracket as the port does |
| `IbPort.IbBracket.OnExecution` | apps/api/src/execution/ib-execution-port.ts:242-248 | the first parent fill without an entry price sets price, status and open time |
| `IbPort.IbExecutionPort.OnOrderStatus` | apps/api/src/execution/ib-execution-port.ts:206-235 | routes a status by order id and leaves every other bracket alone; ignores unknown ids |
| `IbPort.IbExecutionPort.OnFill` | apps/api/src/execution/ib-execution-port.ts:237-262 | routes a fill, and records it when the fill schema accepts it |
| `IbPort.IbExecutionPort.PlaceBracket` | apps/api/src/execution/ib-execution-port.ts:131-204 | draws consecutive ids, files and indexes the bracket and stages its legs; refuses other rungs and an unready gateway without a change |
| `IbPort.IbExecutionPort.ModifyBracket` | apps/api/src/execution/ib-execution-port.ts:272-313 | moves stop and quantity of a working bracket, its target only if it has a target leg; never upward |
| `IbPort.IbExecutionPort.CancelBracket` | apps/api/src/execution/ib-execution-port.ts:316-325 | asks the broker to cancel every leg and marks the bracket cancelled |
| `IbPort.RunRouted` | apps/api/src/execution/ib-execution-port.ts:104-107 | in every run each leg id leads to its bracket and nothing else, and every open bracket has an entry price and an open time |
| `IbPort.StatusExactly` | apps/api/src/execution/ib-execution-port.ts:206-235 | a status opens a pending bracket when its parent is filled, cancels any when its parent is cancelled, closes any when a protective leg is filled, and changes nothing else |
| `IbPort.WordsExactly` | apps/api/src/execution/ib-execution-port.ts:39-67 | what each status word of the broker means |
| `IbPort.FillExactly` | apps/api/src/execution/ib-execution-port.ts:242-248 | the first execution on the parent sets entry price and open time and opens a pending bracket; no other changes one |
| `IbPort.RecordExactly` | apps/api/src/execution/ib-execution-port.ts:249-261 | a record carries the execution as it was, a purchase as long |
| `IbPort.StagedExactly` | apps/api/src/execution/ib-execution-port.ts:137-203 | a placement stages an entry in the request's direction, a stop order at the stop and a limit order at the target, each exit on the other side and against the parent |
| `IbPort.ModifyExactly` | apps/api/src/execution/ib-execution-port.ts:272-313 | a modification sets exactly what it names and sends the amended stop, and the target if there is one; else it is refused without a change |
| `IbPort.CancelExactly` | apps/api/src/execution/ib-execution-port.ts:316-325 | a cancel asks for the withdrawal of every leg and marks the bracket |
| `IbPort.NeverReopened` | apps/api/src/execution/ib-execution-port.ts:206-262 | no continuation of a run loses a bracket, reopens a closed or cancelled one, or changes an entry price or open time once set |
| `IbPort.OverFlips` | apps/api/src/execution/ib-execution-port.ts:226-230 | in every run, a bracket that is cancelled becomes closed when its stop is reported filled, and cancelled again by a cancel |
| `IbPort.RecordedExactlyOnce` | apps/api/src/execution/ib-execution-port.ts:237-262 | an execution on a known order, reported once by each half in any interleaving with statuses, placements, cancels and modifications, is recorded exactly once with its commission, and not before both halves are in |
| `IbPort.GatewayInside` | apps/api/src/execution/ib-execution-port.ts:117-123 | inside the port the gateway runs as it would alone on the reports and id draws it sees |
| `IbPort.LastLegTransmits` | apps/api/src/execution/ib-execution-port.ts:167-202 | every staged exit closes the whole position against its parent and only the last leg transmits, exactly when the target did not draw order id zero |

## Left out

- Portfolios and brackets of the SIM exchange are values in sequences inside `Simulator`, not objects: aliasing between a portfolio and the loops that iterate it is not captured. Paper brackets are objects.
- IEEE-754: binary rounding, the epsilon inside cent rounding, NaN and infinities in prices; the `requireStop` rule of the risk gate, which only a non-finite stop can break, goes with them.
- Fractional share quantities and starting cash that is not in whole cents.
- `SimRuns.RunSound`: does not cover runs in which the fill schema refuses a fill, because the books are then not sound; `SimAlways.RunSoundExactly` has both directions.
- `SimLifecycle.RunCovered`: nor does this, because entries after a refused one stay pending; its half about open brackets holds in every run, `SimActual.RunMarked`.
- `SimAlone.Isolated`: asks that the run throws nowhere, because a throw in one strategy's bracket is felt by the others.
- `SimAccounting.ExactIffAdditive`: takes quotes of any sign, because `updateQuote` does not check the quote it is given; for a slippage above 100% its witness quotes a negative bid.
- `RiskRuns.RunWithinLimits`: carries half a cent of slack on the risk bound, because a proposal's risk is rounded to cents before it is tested; `RiskRuns.SlackExactly` shows that no less will do, `RiskRuns.RunWithinLimitsWholeCents` has none.
- `HandOff.DailyCap`: needs days that do not go back, because a result booked at an earlier day resets the counter; `HandOff.CapHoldsExactly` has the exact condition.
- `Pipeline.AutoPipeline.ExecuteAuto`: admission, placement and counting are one step, because interleaved entries await stores that are not modelled.
- `Replay.NoLookahead`: takes monitor, scan and sweep as arbitrary functions of the state, the clock and the visible candles, because strategies are not modelled.
- `ReplayContext.LatestQuoteNewest`: does not say which of several candles of one instant is quoted, because the database leaves ties open; the model breaks them by storage order.
- `CanonicalJson.CanonicalDecides`: takes a number as the decimal text it prints as, and does not cover `undefined`, functions or sparse arrays, because they are not JSON values.
- `PacingQueue.RunPaced`: assumes sleeps that last at least as long as asked and a clock that does not go back; observability hooks and tasks that never settle are not modelled.
- `IbPort.RecordedExactlyOnce`: is about orders the port knows before the first half arrives; the parse of broker timestamps is not modelled.
- Position and fill listings, bracket handles, the daily-loss check, proposal expiry and every schema validation beyond positive prices and quantities.
- The bracket index that reconciliation clears by strategy and ticker, notifications, audit and journal entries, and demotion's store writes.
- Broker snapshots (positions, open orders, account summary), reconnection and reconciliation against the broker.
- Strategy scans and detectors, the kill switch, promotion, crowding and uptime checks: their properties follow from single branches.
- Web, storage, queues, sockets, messaging and the language-model client: input and output.
