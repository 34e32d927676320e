# Verified model of the CFD research and execution core

This project models five cooperating cores of the trading research and execution system and
proves what they promise about each other:

1. the prop-challenge simulators: a one-trade-at-a-time scan, an OPEN/CLOSE event sweep that
   stacks worst excursions, and a shared-account sweep with entry caps;
2. the exit engine: bar-level, tick-level and research exits of one position;
3. the paper and live executors with the risk guard and position sizing;
4. the price-level trigger index and the trade buffer;
5. candle aggregation, streaming, batch and hierarchical.

Prices, fractions, percentages and money are exact reals; times, volumes and counts are whole
numbers. Where the source loops or changes fields, the model is a loop or a class whose methods
are proved equal to a step function on values, and the laws are proved about that function over
whole runs. Induction is always spelled out, so every lemma carries `{:induction false}`.

## What the proofs found

- The concurrent phase simulation is conservative about the maximum drawdown with at most one
  required trading day, and with no other number: with two or more it counts a day when a trade
  opens and can pass a phase the scan fails (`ChallengeLimits.TradingDaysBound`).
- It is conservative about the daily limit, however the trades overlap, as long as none is held
  over a day boundary; one night is enough to miss a breach, because a trade held overnight moves
  the scan's baseline but not the sweep's (`ChallengeLaws.ConcurrentDominates`,
  `ChallengeLimits.OvernightBound`).
- On a drawdown failure the two phase simulators report resume indices that differ by one, so the
  refinement holds up to that index (`ChallengeRefinement.SweepRefinesScan`). The overlap test
  that picks the simulator separates the trades but does not rule out overnight ones
  (`ChallengeRun.NoOverlapSeparates`, `ChallengeRun.NoOverlapIsNotEnough`).
- The shared-account simulation sets a new day's baseline at that day's first event, so a passed
  phase is sound at every instant exactly as long as no leg is held over a day boundary
  (`PortfolioDays.MidnightBound`). The entry caps make up for it exactly when they admit no leg or
  the concurrency cap times the largest excursion stays below the daily limit
  (`PortfolioCaps.CapsBound`).
- The set of open instruments can lose an instrument that another leg still holds exactly when
  the one-position flag is off and the caps let two legs be open together
  (`PortfolioInstruments.InstrumentsBound`).
- The paper executor's flatten books no leg for the open remainder, against its own comment
  (paper_executor.py:349); over any run it books what closing the remainders would exactly when the
  last price of every flattened position is its entry. A signal, a tick below the entry and a
  flatten forget a loss of fifty dollars (`PaperLimits.FlattenMissesTheRemainder`,
  `PaperLimits.FlattenForgetsALoss`).
- The risk guard's open-risk cap (risk_guard.py:85) limits nothing: whatever the cap, some run of
  the paper executor exceeds it exactly when the account takes any signal at all
  (`PaperLimits.OpenRiskIsUncapped`, `PaperLimits.FourPercentOpen`).
- The live executor's modelled-cost fallback leaves the last real balance alone, so the next
  balance delta counts that trade again: from then on the guard is off by exactly the nets booked
  without a balance, and one such close is enough (`BrokerBalances.FallbackIsCountedAgain`,
  `BrokerBalances.FallbackBound`).
- Finalisations wait for the broker and can overtake each other. The guard knows the balance of the
  deal finalised last, so it can end at a stale one exactly when a finalisation may be overtaken
  (`BrokerBalances.GuardKnowsLastFinalized`, `BrokerBalances.OvertakingBound`).
- The live executor's dedup keys are taken only when the order is answered: a live position can lose
  its key exactly when a second order of the key may be sent before the first is answered
  (`BrokerKeys.KeysBound`).
- An acknowledged full close that fills only in part is never requested again until the position
  is finalised; only a failed one is (`BrokerRetries.RetriedIffFailed`,
  `BrokerRetries.PartFilledIsStranded`).
- Its partial closes can ask for more than the position holds exactly when the targets, each
  rounded to the broker's steps, total more than it: two halves of three units ask for four
  (`BrokerPartials.OverAskedIff`, `BrokerPartials.HalvesOverAsk`).
- The risk guard's acceptance test ignores the maximum-drawdown floor, so some run reaches a guard
  that accepts a trade down to it exactly when a trade may risk anything
  (`RiskGuards.AcceptedLossAndMaxFloor`, `RiskGuards.FloorIsUnguarded`). A due daily reset can be
  missed exactly when the firm does not reset at local midnight, and one boundary can reset the day
  twice exactly when the account is reset or seeded in between (`RiskGuards.SomeRunMissesAReset`,
  `RiskGuards.RebasingBound`).
- Lot sizes are rounded to hundredths after they are rounded down to steps, so finer steps can
  over-risk; the budget is kept exactly when that rounding never exceeds the steps
  (`PositionSizing.RoundingKeepsBudget`, `PositionSizing.FineStepsOverRisk`).
- A breakeven stop can be set beyond the price when its offset exceeds its trigger
  (`ExitLaws.BreakevenBehindPrice`). The simulator flatters by at most what dust is worth when the
  entry lies beyond the stop, a slack no smaller multiple replaces, and not at all otherwise
  (`ExitAgreement.NeverFlatters`, `ExitSlack.DustIsTheSlack`); a simulated trade loses more than its
  recorded excursion exactly when some target lies behind the entry
  (`SimulatedReturns.BookableIffTargetsAhead`).
- The trigger index rounds levels to hundredths, so it fires a variant at prices between its
  trigger and its level: it agrees with a scan of the triggers at every price exactly when
  rounding changes no trigger (`TriggerLaws.EveryPriceFiresTheScan`,
  `TriggerRuns.FiresBeforeItsTrigger`).
- Arming does not reject a variant that is already armed, which can then fire twice exactly when
  two indexed arms share an id (`TriggerRepeats.FiresTwiceIffSharedId`).
- The trade buffer loses an accepted trade, or writes one twice, on some run exactly when two of its
  flushes may be in flight at once (`TradeBuffer.FlushBound`, `TradeBuffer.OverlapLosesLateTrades`).

## Model

Methods that only set fields are specified by the step function of the same name and have no row
of their own; the laws about that function do.

| member | source | states |
|---|---|---|
| ChallengeSim.SimulatePhase | app/cfd_research/challenge_sim.py:279-350 | the scan loop stops at the first trade that decides, reporting the running sum, the peak and the worst dip up to it and the baseline of its run of same-day trades |
| ChallengeSim.SimulatePhaseConcurrent | app/cfd_research/challenge_sim.py:359-446 | the event loop stops at the first event that decides, with the account that event left behind |
| ChallengeSim.SortedFacts | app/cfd_research/challenge_sim.py:386-391 | sorting yields exactly one OPEN and one CLOSE per trade, in strict order of time, kind and trade |
| ChallengeSim.Phase.TradeDecides | app/cfd_research/challenge_sim.py:297-348 | the trade the scan stops at does decide something |
| ChallengeSim.Phase.TradePasses | app/cfd_research/challenge_sim.py:297-348 | no trade before it decides anything |
| ChallengeLaws.CloseIsNext | app/cfd_research/challenge_sim.py:390-391 | on a stream sorted by exit, the CLOSE under the cursor belongs to the first unbooked trade and that trade is open |
| ChallengeLaws.LedgerHolds | app/cfd_research/challenge_sim.py:411-444 | after any number of events the open set is exactly the trades opened and not closed, closes came in index order, realised equity and peak are the scan's, and the worst dip is at least the scan's |
| ChallengeLaws.ConcurrentDominates | app/cfd_research/challenge_sim.py:353-446 | with at most one required trading day, if the sweep passes then the scan passes at the same trade with the same return and no larger worst dip; it can fail the daily limit instead only if some trade opens or closes on another day than it is filed under |
| ChallengeLaws.BasedHolds | app/cfd_research/challenge_sim.py:419-423 | on trades that open and close on their filed day, at every event of the sweep the daily baseline is what the trades filed on earlier days booked |
| ChallengeLimits.TradingDaysBound | app/cfd_research/challenge_sim.py:343-347 | some stream makes the sweep pass a phase the scan fails on maximum drawdown if and only if two or more trading days are required |
| ChallengeLimits.OvernightBound | app/cfd_research/challenge_sim.py:313-316 | some stream whose trades are held over at most n day boundaries passes the sweep and fails the scan on the daily limit if and only if n is at least one |
| ChallengeLimits.OvernightScan | app/cfd_research/challenge_sim.py:313-317 | two non-overlapping trades, the first held overnight, fail the daily limit in the scan |
| ChallengeLimits.OvernightSweep | app/cfd_research/challenge_sim.py:419-423 | the same two trades pass in the sweep, whose baseline follows the event day |
| ChallengeRefinement.SweepRefinesScan | app/cfd_research/challenge_sim.py:374-377 | on strictly separated intraday trades both simulators return the same outcome, end return, trading days, trades used and worst dip, and the same resume index up to the shift on a drawdown failure |
| ChallengeRefinement.VerdictsMatch | app/cfd_research/challenge_sim.py:411-444 | the two events of such a trade decide together what the scan decides at it |
| ChallengeLaws.ScanBooksAboveFloors | app/cfd_research/challenge_sim.py:322-341 | a trade whose loss its dip covers is never booked to or below a floor its check cleared |
| ChallengeLaws.ScanStaysAboveStaticFloor | app/cfd_research/challenge_sim.py:322-350 | over a scan that passes or runs out, equity never touches a static floor |
| ChallengeLaws.SweepBooksAboveFloors | app/cfd_research/challenge_sim.py:428-441 | the same for every CLOSE of the sweep, whatever else is open |
| ChallengeRun.HasOverlap | app/cfd_research/challenge_sim.py:260-274 | the running maximum of exits detects exactly the streams in which some trade opens before an earlier one has closed |
| ChallengeRun.SimulateChallenge | app/cfd_research/challenge_sim.py:449-471 | phase 2 runs exactly when phase 1 passed and has a target, from where phase 1 resumed; the challenge passes when every phase run passes |
| ChallengeRun.ResumesForward | app/cfd_research/challenge_sim.py:346 | both simulators resume at or after the trade they started from |
| ChallengeRun.SimulatorChoiceIsFree | app/cfd_research/challenge_sim.py:449-471 | on separated intraday trades the choice of simulator changes neither outcome, trading days nor phases of a two-phase challenge, up to where a failed phase would resume |
| ChallengeRun.NoOverlapSeparates | app/cfd_research/challenge_sim.py:260-274 | where the overlap test finds nothing, trades held for some time never open before an earlier one has closed |
| ChallengeRun.NoOverlapIsNotEnough | app/cfd_research/challenge_sim.py:499-500 | a stream without overlap on which the selected scan fails the daily limit and the sweep passes |
| ChallengeRun.MonteCarlo.Tally | app/cfd_research/challenge_sim.py:523-542 | every run is counted under exactly one outcome and passed challenges never outnumber passed first phases |
| ReturnStream.FromSimulatedTrades | app/cfd_research/challenge_sim.py:228-257 | the stream is the trades as percentages of the balance, sorted by exit with ties by entry |
| ReturnStream.ReturnIsCovered | app/cfd_research/challenge_sim.py:242-254 | a trade whose net loss stays within excursion plus cost becomes a return no deeper than its dip |
| ReturnStream.StreamIsCovered | app/cfd_research/challenge_sim.py:241-257 | such trades give a stream sorted by exit with non-negative dips that cover every loss, as the phase guarantees require |
| ReturnStream.ModelTradeIsBookable | app/cfd_research/exit_models.py:363-391 | every trade any exit model resolves is one of those trades |
| SimulatedReturns.BookableIffTargetsAhead | app/cfd_backtest/exit_simulator.py:79-200 | on every bar sequence a simulated trade loses no more than its recorded excursion plus cost if and only if no target lies behind the entry |
| PortfolioSim.SimulatePortfolioPhase | app/cfd_research/portfolio_sim.py:157-262 | the shared-account loop returns the account at its first deciding event; a timeout leaves that event unapplied |
| PortfolioSim.SimulatePortfolioChallenge | app/cfd_research/portfolio_sim.py:265-287 | phase 2 is a fresh account over the legs entered after phase 1 resolved |
| PortfolioSim.StreamFacts | app/cfd_research/portfolio_sim.py:170-175 | one OPEN and one CLOSE per leg, CLOSE first at the same instant |
| PortfolioLaws.EveryStateWithinCaps | app/cfd_research/portfolio_sim.py:230-247 | after any number of events equity is the sum of the closed results, open risk the sum of the open risks, and the concurrency, open-risk, per-day and per-instrument caps all hold |
| PortfolioLaws.RunToEndAccounts | app/cfd_research/portfolio_sim.py:218-262 | a run to the end has closed everything it took, taken plus skipped is every leg, and equity is the sum of the taken results |
| PortfolioLaws.PassIsSound | app/cfd_research/portfolio_sim.py:194-205 | on a passed phase, after every event, any floating results no worse than each open leg's excursion leave equity above both floors |
| PortfolioDays.PassIsSoundAtEveryInstant | app/cfd_research/portfolio_sim.py:194-221 | on a passed phase without overnight legs, at every instant before the pass, every admissible floating path stays above the drawdown floor and above the floor of that instant's firm day |
| PortfolioDays.MidnightBound | app/cfd_research/portfolio_sim.py:215-221 | some passed phase whose legs are held over at most n day boundaries admits a floating path through a floor if and only if n is at least one |
| PortfolioDays.HeldOverMidnight | app/cfd_research/portfolio_sim.py:215-221 | at an instant of a passed phase every admissible path stays above the floors if and only if it is the day of the last event or the open excursions sum to less than the daily limit |
| PortfolioDays.CapsCoverMidnight | app/cfd_research/portfolio_sim.py:233-235 | on a passed phase overnight legs are harmless at every instant when the concurrency cap times the largest excursion is below the daily limit |
| PortfolioCaps.CapsBound | app/cfd_research/portfolio_sim.py:230-236 | under given caps, daily limit and largest excursion some passed phase admits a floating path through a floor if and only if the caps admit a leg, the limit exceeds the slack and the concurrency cap times the excursion reaches it |
| PortfolioDays.OpeningAt | app/cfd_research/portfolio_sim.py:218-221 | between events the equity a firm day opened with is the recorded baseline, and after midnight the account's own equity |
| PortfolioDays.PassCarriedOverMidnight | app/cfd_research/portfolio_sim.py:215-260 | a passing run whose held leg floats to half a percent of equity at midnight under a floor of one percent |
| PortfolioInstruments.InstrumentsBound | app/cfd_research/portfolio_sim.py:225-236 | under given caps some run leaves the instrument set wrong if and only if the flag is off and the caps admit two open legs |
| PortfolioInstruments.DoubledLoses | app/cfd_research/portfolio_sim.py:227-228 | a run in which closing one of two legs on an instrument drops the instrument |
| PortfolioLaws.PositionsStep | app/cfd_research/portfolio_sim.py:223-247 | a leg is open exactly from its accepted OPEN to its CLOSE |
| PortfolioLaws.DailyCapStep | app/cfd_research/portfolio_sim.py:215-245 | the running count is the number of legs accepted on the current firm day and no day exceeds the cap |
| ExitEngine.ManagedPosition.ApplyDynamicStop | app/cfd_execution/base.py:262-307 | breakeven then trailing, moving the stop only in favour and by more than the slack; reports whether it moved |
| ExitEngine.ManagedPosition.EvaluateExit | app/cfd_execution/base.py:177-252 | the stop before any target, else untaken reached targets nearest first |
| ExitLaws.StopHasClosedForm | app/cfd_execution/base.py:262-307 | after any run of updates the ratcheted stop is within the slack of the tightest of plan stop, breakeven level once its trigger was reached, and best price minus trail |
| ExitLaws.BestIsFurthest | app/cfd_execution/base.py:145-152 | the tracked best price is the furthest of the entry and all prices seen |
| ExitLaws.StopIsMonotone | app/cfd_execution/base.py:255-307 | the stop never loosens |
| ExitLaws.BreakevenBehindPrice | app/cfd_strategy/base.py:101-105 | the breakeven stop stays behind every price that can trigger it if and only if its offset does not exceed its trigger |
| ExitLaws.OrderFacts | app/cfd_execution/base.py:217-221 | the evaluation order lists every target once, by increasing gain |
| ExitLaws.ExitedClimbs | app/cfd_execution/base.py:217-252 | a range that misses the stop takes the untaken targets up to its reach, nearest first, and nothing else |
| ExitLaws.ClimbTwice | app/cfd_execution/base.py:224-250 | evaluating two reaches one after the other is evaluating the further one once |
| ExitSimulator.SimulateExit | app/cfd_backtest/exit_simulator.py:79-200 | the simulated trade is what the bar-by-bar fold leaves: exit, reason, bars held, legs, flatten of the remainder and realised result |
| ExitSimulator.ExitCloses | app/cfd_execution/base.py:237-250 | the position is closed by a list of decisions exactly when its last one says fully closed |
| ExitAgreement.WalkIsWholeBar | app/cfd_backtest/exit_simulator.py:72-76 | walking a bar's synthetic path takes the same targets in the same order as one evaluation of its range, when the stop is missed |
| ExitAgreement.StopBarNeverFlatters | app/cfd_backtest/exit_simulator.py:16-20 | on a bar that touches the stop, walking the path is worth at least the stop up to dust, and at a losing stop exactly as much only with the same leg |
| ExitAgreement.NeverFlatters | app/cfd_backtest/exit_simulator.py:79-168 | for every policy-free plan, entry price and well-formed bars the simulator realises at most the R of driving the position tick by tick, up to what dust is worth at a stop the entry lies beyond; with the stop on the losing side, at most that outright and equal R if and only if the legs are the same |
| ExitSlack.DustIsTheSlack | app/cfd_backtest/exit_simulator.py:79-168 | a multiple of the dust bounds how far the simulator flatters on every trade if and only if it is at least one |
| ExitAgreement.UnambiguousAgrees | app/cfd_backtest/exit_simulator.py:16-20 | the two agree when no bar that stops the trade also reaches an untaken target |
| ExitModels.SimulateBracket | app/cfd_research/exit_models.py:137-150 | FixedRR and the mean target: stop before target on the full bar |
| ExitModels.SimulateBreakeven | app/cfd_research/exit_models.py:160-179 | the stop moves to entry one bar after the trigger |
| ExitModels.SimulateTimeStop | app/cfd_research/exit_models.py:189-204 | closed at the close after the given number of bars |
| ExitModels.SimulateTrailing | app/cfd_research/exit_models.py:213-229 | the exit uses the stop of the prior bars |
| ExitModels.SimulateScaleRunner | app/cfd_research/exit_models.py:240-275 | a fraction at the first target, the rest under a trail floored at breakeven |
| ExitModels.SimulateEntry | app/cfd_research/exit_models.py:333-423 | no trade without risk, bars or size; otherwise the trade of the model's outcome with its excursion capped at the risk |
| ExitModelLaws.RatchetTightens | app/cfd_research/exit_models.py:97-107 | a trailing stop never loosens and respects its floor |
| ExitModelLaws.RunIsSound | app/cfd_research/exit_models.py:131-315 | for all six models the slices are the whole position and none loses more than the capped excursion |
| ExitModelLaws.LossIsCovered | app/cfd_research/exit_models.py:363-391 | fractions sum to one, realised R is at least -1, and the net loss is at most excursion in dollars plus cost |
| ExitEngines.FixedRRIsSimulateExit | app/cfd_research/exit_models.py:131-150 | FixedRR and the simulator on the single-target plan give the same price, reason, time, bars held, legs, excursions and closed flag |
| RiskGuards.RiskGuard.CheckTradeRisk | app/cfd_risk/risk_guard.py:215-243 | accepted exactly when trading is allowed and the risk fits the per-trade and the remaining daily limit |
| RiskGuards.RiskGuard.AddRealizedPnl | app/cfd_risk/risk_guard.py:245-268 | balance, totals and peak move by the result, then the limits are checked |
| RiskGuards.RiskGuard.CheckDailyReset | app/cfd_risk/risk_guard.py:289-325 | resets exactly when today's boundary lies after the last reset and not after now; a zero time means the clock |
| RiskGuards.BreachIsAbsorbing | app/cfd_risk/risk_guard.py:419-436 | a blown account stays blown until it is reset or seeded |
| RiskGuards.HaltLastsTheDay | app/cfd_risk/risk_guard.py:419-478 | a halted account does not trade until the next day starts |
| RiskGuards.TradableIsSafe | app/cfd_risk/risk_guard.py:210-213 | trading is allowed if and only if the account is active, above the maximum floor and under the daily limit |
| RiskGuards.AcceptedLossStaysAboveDailyFloor | app/cfd_risk/risk_guard.py:236-241 | an accepted trade that loses all its risk leaves equity at or above the daily floor |
| RiskGuards.AcceptedLossAndMaxFloor | app/cfd_risk/risk_guard.py:228-243 | it also stays above the maximum floor, for every acceptable risk, if and only if the tighter of the two tests is below what remains to that floor |
| RiskGuards.FloorIsUnguarded | app/cfd_risk/risk_guard.py:215-243 | under sound limits some run reaches a guard that accepts a trade whose full loss reaches the maximum floor if and only if a trade may risk anything |
| RiskGuards.BalanceIsBasePlusRealized | app/cfd_risk/risk_guard.py:252-256 | over any run the balance is the last base plus everything realised since |
| RiskGuards.OneResetPerBoundary | app/cfd_risk/risk_guard.py:306-323 | with a clock that never goes back, two performed resets with no account reset or seeding between them cross different boundaries |
| RiskGuards.RebasingBound | app/cfd_risk/risk_guard.py:306-417 | some run resets the day twice at one boundary with at most n account resets or seedings in between if and only if n is at least one |
| RiskGuards.ResetsAreCaughtUp | app/cfd_risk/risk_guard.py:306-323 | a check performs every reset that is due if and only if the firm resets at local midnight |
| RiskGuards.SomeRunMissesAReset | app/cfd_risk/risk_guard.py:306-323 | some run reaches a guard whose next check misses a due reset if and only if the firm does not reset at local midnight |
| PositionSizing.SizeIsMaximal | app/cfd_risk/position_sizing.py:153-160 | the lots never exceed budget or cap, and one more step would, unless the cap binds |
| PositionSizing.AcceptedIsWithinBudget | app/cfd_risk/position_sizing.py:135-191 | an accepted size is the hundredth nearest to a size in range that is within the budget and maximal; it keeps the budget where no size rounds up past its steps, and is that size itself on hundredth steps |
| PositionSizing.RoundingKeepsBudget | app/cfd_risk/position_sizing.py:156-183 | for every balance, risk and stop the lots handed back stay within the budget if and only if rounding to hundredths never exceeds the whole steps of an acceptable size |
| PositionSizing.HundredthStepsFit | app/cfd_risk/position_sizing.py:156-160 | steps and a largest lot of whole hundredths never round |
| PositionSizing.FineStepsOverRisk | app/cfd_risk/position_sizing.py:183 | with a step of five thousandths three steps are handed back as more than three |
| PositionSizing.SizeIsMonotone | app/cfd_risk/position_sizing.py:135-191 | a larger balance never shrinks the size, a wider stop never grows it |
| PositionSizing.CentsWithinLimit | app/cfd_risk/position_sizing.py:182-187 | rounding to cents keeps every risk within a limit if and only if the limit itself does not round up |
| PositionSizing.SizedRiskPassesGuard | app/cfd_risk/risk_guard.py:228-234 | with a whole-cent limit the reported risk of a computed size passes the per-trade test |
| PaperExecution.PaperExecutor.OnSignal | app/cfd_execution/paper_executor.py:126-160 | ignored, refreshed, blocked, filled or armed, in that order of tests |
| PaperExecution.PaperExecutor.OnTick | app/cfd_execution/paper_executor.py:164-216 | arms first, then open positions, then the floating result |
| PaperExecution.PaperExecutor.OnCandleClose | app/cfd_execution/paper_executor.py:222-245 | arms age and expire, positions age and close at their time-stop |
| PaperLaws.RunKeeps | app/cfd_execution/paper_executor.py:126-245 | over any run: open keys are the keys of the open positions, one each, disjoint from the arms; legs and remainder make one whole under a stop no looser than the plan's; fills minus exits are open; the balance is the initial one plus each closed trade's net, once |
| PaperLaws.TickKeepsWhole | app/cfd_execution/paper_executor.py:205-216 | one price update keeps a position's legs and remainder whole |
| PaperLimits.FlattenMissesTheRemainder | app/cfd_execution/paper_executor.py:333-415 | after any run a flatten books one entry per position it closes, and these are what closing the remainders at the last known prices would book if and only if every such price is the entry |
| PaperLimits.FlattenForgetsALoss | app/cfd_execution/paper_executor.py:396-402 | signal, tick at 95, flatten books nothing for a position bought at 100 that would have lost fifty dollars |
| PaperLimits.OpenRiskIsUncapped | app/cfd_risk/risk_guard.py:83-85 | whatever the open-risk cap, some run of the paper executor exceeds it if and only if a new account takes any signal |
| PaperLimits.FourPercentOpen | app/cfd_execution/paper_executor.py:253-300 | four signals of one percent each leave four hundred dollars at risk under a cap of three hundred |
| BrokerExecution.CTraderExecutor.HandleExecution | app/cfd_execution/ctrader_executor.py:486-542 | an opening fill fixes entry and volume, a close fill takes at most the remainder off; finalisation starts when at most a millionth is left |
| BrokerExecution.CTraderExecutor.SubmitEntry | app/cfd_execution/ctrader_executor.py:203-310 | an order is sent exactly when its key is not open, sizing gives it lots and the guard accepts what they risk |
| BrokerExecution.CTraderExecutor.CheckClientTps | app/cfd_execution/ctrader_executor.py:419-437 | every reached target not yet requested is requested once |
| BrokerExecution.CTraderExecutor.ScheduleFullCloses | app/cfd_execution/ctrader_executor.py:700-718 | one guarded request for each open, unguarded position with volume left, and no other |
| BrokerExecution.CTraderExecutor.FinalizeClose | app/cfd_execution/ctrader_executor.py:634-685 | books the balance delta, else the broker's sum, else the modelled net, and forgets the position |
| BrokerLaws.RunKeeps | app/cfd_execution/ctrader_executor.py:486-690 | over every interleaving: fractions plus remainder are one with the remainder in [0, 1], at most one full close is in flight per position, each position is finalised at most once and each target requested at most once, and the guard's balance is the last real balance plus every net no balance matched |
| BrokerLaws.ThresholdIsZero | app/cfd_execution/ctrader_executor.py:538 | with whole volume steps the finalisation threshold means nothing is left |
| BrokerLaws.NothingAfterZero | app/cfd_execution/ctrader_executor.py:517-523 | a fill for a position awaiting finalisation is ignored |
| BrokerLaws.RequestIsExact | app/cfd_execution/ctrader_executor.py:477-482 | a full-close request asks for exactly what is left |
| BrokerLaws.PartialIsWithin | app/cfd_execution/ctrader_executor.py:459-475 | one partial close asks for no more than is left and no less than the broker trades |
| BrokerPartials.RequestsStayWithinAsks | app/cfd_execution/ctrader_executor.py:419-475 | over every run the partial closes ever requested for a position total no more than all its targets, each rounded to steps, would ask for of the whole position |
| BrokerPartials.OverAskedIff | app/cfd_execution/ctrader_executor.py:419-475 | some run requests more than an untouched position holds if and only if its rounded targets total more |
| BrokerPartials.WholeStepsFit | app/cfd_execution/ctrader_executor.py:454-457 | targets of whole steps that share out at most the position ask for at most it |
| BrokerPartials.CoverRounds | app/cfd_execution/ctrader_executor.py:469-474 | on whole steps the fallback that closes the whole remainder is never taken: a fraction that covers it already rounds to it |
| BrokerPartials.HalvesOfThree | app/cfd_execution/ctrader_executor.py:459-468 | two half targets of three units ask for four |
| BrokerPartials.HalvesOverAsk | app/cfd_execution/ctrader_executor.py:419-475 | one signal, its fill and one price ask for four units of three |
| BrokerRetries.RetriedIffFailed | app/cfd_execution/ctrader_executor.py:838-861 | after an answer some run requests another full close before finalisation if and only if the request failed and volume is left |
| BrokerRetries.BlockedForGood | app/cfd_execution/ctrader_executor.py:700-718 | over every run, until it is finalised, no full close is requested of a position whose guard is set or that has nothing left |
| BrokerRetries.PartFilledIsStranded | app/cfd_execution/ctrader_executor.py:517-542 | a run whose acknowledged full close fills one unit of three and is never requested again |
| BrokerBalances.GuardTracksBroker | app/cfd_execution/ctrader_executor.py:649-667 | over any possible run whose closes all bring a balance the guard's balance is the last real balance |
| BrokerBalances.FallbackIsCountedAgain | app/cfd_execution/ctrader_executor.py:649-677 | after any possible run the guard is off the last real balance by exactly the nets of the closes finalised without one |
| BrokerBalances.FallbackBound | app/cfd_execution/ctrader_executor.py:668-677 | some possible run with at most n closes finalised without a balance ends off the broker's balance after a matched close if and only if n is at least one |
| BrokerBalances.FallbackRun | app/cfd_execution/ctrader_executor.py:649-677 | two positions, the first finalised at the modelled cost and the second with a balance forty up, leave the guard sixty-five up |
| BrokerBalances.GuardKnowsLastFinalized | app/cfd_execution/ctrader_executor.py:556-667 | when every finalisation is told the balance right after its own deal, the guard's balance is that of the deal finalised last |
| BrokerBalances.OvertakingBound | app/cfd_execution/ctrader_executor.py:556-667 | with every position finalised that way, some possible run with at most n finalisations overtaken by a later deal ends off the broker's balance if and only if n is at least one |
| BrokerBalances.SwappedIsStale | app/cfd_execution/ctrader_executor.py:556-667 | closes of five and then seven finalised in the other order are booked as twelve and minus seven and leave the guard seven short |
| BrokerKeys.KeysBound | app/cfd_execution/ctrader_executor.py:200-235 | for an account that takes some entry, some run that sends an order only while fewer than m of its key are unanswered takes a key from a live position if and only if m is at least two |
| BrokerKeys.SomeAccountTakes | app/cfd_execution/ctrader_executor.py:295-310 | a new account of ten thousand takes an entry of one percent with a stop ten points away |
| BrokerKeys.OneOrderHoldsKeys | app/cfd_execution/ctrader_executor.py:357-385 | as long as no key is submitted while an order for it is unanswered, every live position holds its key and no order on its way has a taken one |
| BrokerKeys.TwoSignalsRun | app/cfd_execution/ctrader_executor.py:204-214 | two signals of one key before the first answer leave two positions under one key |
| BrokerKeys.FinalizeFreesKey | app/cfd_execution/ctrader_executor.py:680-686 | a finalised position's key is free again and every other key stays held |
| TriggerEngines.ArmedStateManager.Arm | app/execution/armed_state.py:51-76 | appends until the list is full, skipping what fired today |
| TriggerEngines.GroupingEngine.Rebuild | app/execution/grouping.py:77-117 | the index is the fold of the armed list |
| TriggerEngines.GroupingEngine.CheckTriggers | app/execution/grouping.py:119-161 | the two early-exit walks, longs upward then shorts downward |
| TriggerEngines.TickTriggerEngine.OnTick | app/execution/tick_engine.py:86-164 | fires every triggered group, disarms its members and drops it |
| TriggerLaws.RebuiltIsSync | app/execution/grouping.py:77-117 | after a rebuild levels are strictly sorted, equal the group keys, and the groups partition the armed price-type variants |
| TriggerLaws.HitsAreExact | app/execution/grouping.py:119-161 | the early-exit walk finds every reached group once and no other |
| TriggerLaws.TickFiresTheLevels | app/execution/tick_engine.py:86-164 | one tick queues exactly the fires of the variants whose rounded level is reached, each as often |
| TriggerLaws.TickFiresTheScan | app/execution/tick_engine.py:86-164 | one tick queues exactly what a scan of every armed trigger would if and only if the price lies between no trigger and its rounded level |
| TriggerLaws.EveryPriceFiresTheScan | app/execution/grouping.py:95 | it does so at every price if and only if rounding changes no trigger |
| TriggerLaws.EveryWholePriceFiresTheScan | app/execution/grouping.py:95 | at whole-hundredth prices, if and only if no trigger is rounded to a price reached sooner |
| TriggerRuns.RunKeeps | app/execution/tick_engine.py:115-164 | over orderly runs armed and fired stay disjoint, no variant fires twice in a day, and the index mirrors the armed list whenever it is in step |
| TriggerRuns.EveryTickFiresTheScan | app/execution/tick_engine.py:86-164 | hence every tick of such a run fires the scan if and only if its price lies between no trigger and its level |
| TriggerRuns.GridRunsFireTheScan | app/execution/tick_engine.py:86-164 | an orderly run that arms only whole-hundredth triggers fires the scan at every tick |
| TriggerRuns.FiresBeforeItsTrigger | app/execution/grouping.py:95 | an orderly run that fires a variant whose trigger of 100.004 the price of 100 never reached |
| TriggerRepeats.FiresOnceIffArmedOnce | app/execution/armed_state.py:51-76 | a tick leaves every variant fired at most once if and only if no two arms in reach share an id and none of them has fired |
| TriggerRepeats.FiresTwiceIffSharedId | app/execution/armed_state.py:51-76 | after any list is armed on any orderly run, some ticks fire a variant twice in the day if and only if two indexed arms share an id |
| TriggerRepeats.ArmedTwiceFiresTwice | app/execution/armed_state.py:68-74 | a variant armed at two levels fires twice |
| TradeBuffer.TradeRecorder.RecordTrade | app/execution/trade_recorder.py:92-112 | buffered once per variant, instrument and minute; reports when the buffer is due |
| TradeBuffer.TradeRecorder.Finish | app/execution/trade_recorder.py:185-197 | drops what was written, or keeps everything after a failure |
| TradeBuffer.EveryRunKeepsTrades | app/execution/trade_recorder.py:174-197 | with at most one flush in flight every interleaving keeps accepted equal to written followed by buffered at rest, failures included, and no dedup key is accepted twice in a day |
| TradeBuffer.FlushBound | app/execution/trade_recorder.py:174-197 | some run with at most m flushes at once comes to rest having lost an accepted trade, and some having written one twice, if and only if m is at least two |
| TradeBuffer.OverlapLosesLateTrades | app/execution/trade_recorder.py:174-197 | from empty, two overlapping flushes write the early trade twice and never the one that arrives between their copies and their trims |
| TimeframeAggregation.AggregateWithIndex | app/cfd_research/timeframe.py:50-121 | the loop's bars and last-base indices are the bucket fold of the series |
| TimeframeAggregation.BarSummarisesWindow | app/cfd_research/timeframe.py:62-104 | every bar is the open, extremes, close and volume of exactly its bucket's base bars |
| TimeframeAggregation.IndicesPartition | app/cfd_research/timeframe.py:81-121 | every base bar lies in exactly one bucket and the indices rise to the last bar |
| TimeframeAggregation.VolumeConserved | app/cfd_research/timeframe.py:62-121 | total volume is unchanged |
| TimeframeAggregation.TowerLaw | app/cfd_research/timeframe.py:45-121 | for nested intervals, aggregating in two stages equals aggregating at once, bar for bar, and the index maps compose |
| TimeframeAggregation.NoLookAhead | app/cfd_research/timeframe.py:53-60 | the first bars depend only on the base bars up to their last index |
| TimeframeAggregation.ClosedBarsAreFinal | app/cfd_research/timeframe.py:53-121 | extending the series changes no closed bar |
| TimeframeAggregation.ExitBarsFollowBucket | app/cfd_research/entry_replay.py:95-98 | every exit bar of the replay is at or after the end of the signal's bucket |
| CandleBuilding.CandleBuilder.ProcessTick | app/core/candle_builder.py:130-169 | a tick opens, updates, emits or discards the forming candle |
| CandleBuilding.TicksConserved | app/core/candle_builder.py:130-169 | emitted, discarded and forming volumes add up to the ticks, in any order of ticks |
| CandleBuilding.BatchIsFold | app/backtest/dukascopy_bi5.py:112-138 | the boundary-index aggregation is the bucket fold |
| CandleBuilding.OnlineEqualsBatch | app/core/candle_builder.py:130-184 | on time-ordered ticks the emitted candles are the batch bars but the last, minus those followed by a gap over two intervals |

## Left out

- Broker and feed clients, asyncio plumbing, messaging, logging, command lines, databases and files: I/O; a write or a request is an oracle that succeeds or fails, the broker an adversarial source of events.
- Floating point: arithmetic is exact; the source's 1e-9 and 1e-12 slacks are kept as constants.
- Indicators, strategies, session calendars, cost tables and analytics ratios: a signal is any signal with a valid plan, a cost any number per trade, a trading day the day of a shifted timestamp.
- `monte_carlo` start-index selection and the portfolio tally: they only call what is modelled.
- PortfolioSim.SimulatePortfolioPhase: an open leg is identified by its position in the phase, where the source removes the first equal record; the two differ only between equal legs. Legs that exit at or before their entry are outside the laws, since their CLOSE precedes their OPEN and never closes them.
- ExitEngine.ManagedPosition.EvaluateExit: the price of a take-profit fill is its level, as in the source; slippage is not modelled there either.
- ExitModelLaws.LossIsCovered: targets are assumed at or beyond the entry and the first fraction between 0 and 1, as every configured model has them.
- PaperExecution.PaperExecutor.OnTick: positions inside the executors are values updated in a list, so aliasing of one position object is not modelled there; the mutable position class is modelled on its own.
- BrokerExecution.CTraderExecutor.HandleExecution: waiting arms, stop amendments and the deal query are not modelled; a submission on an enabled account, an answer and an accounting are events. Handlers that loop over positions are sequences of per-position steps, except the full-close loop.
- BrokerLaws.RunKeeps: the opening fill is taken to precede every close fill, volumes to be whole steps, fewer than a million per position, the smallest tradable volume to be positive, and the start balance to be known.
- TriggerEngines.TickTriggerEngine.OnTick: one instrument at a time; snapshots and metadata of a trade record are left out. Arming stops at a full list, also for later variants of other instruments, which one instrument cannot show.
- TradeBuffer.EveryRunKeepsTrades: writes are all or nothing, as the count the store returns is only compared with zero.
- `build_rr_exit_plan`, `blended_rr`, `max_lot_for_risk`, rate properties and report text: derived values no law here depends on.
