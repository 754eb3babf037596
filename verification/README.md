# Causal evaluation machinery of QROS: a verified model

QROS judges trading research. The part of it modelled here is the machinery that must never look ahead, never
lose an event and never lose money in the books. All arithmetic is exact (`real`), times and identifiers are
integers in the order the program compares them in, and state that the program updates in place is a class, a loop
or both.

| component | modules |
|---|---|
| isotonic calibration and its expanding-window run | `Sorting`, `Isotonic`, `IsotonicProofs`, `IsotonicTheorems`, `CalibrationRun`, `CalibrationRules`, `CalibrationTruncation`, `CalibrationAudit` |
| chronological backtest | `OrderedDict`, `BacktestModel`, `BacktestBooks`, `BacktestProtocol`, `BacktestTheorems`, `BacktestSignals`, `BacktestFills`, `BacktestPrices`, `BacktestRules`, `BacktestSizing`, `BacktestTrigger`, `BacktestEngine` |
| reliability bins, ECE and MCE | `Reliability`, `ProbabilityValidation`, `ReportRules` |
| sign tests, exact permutation test, B-level gate | `SignTest`, `SignFlip`, `Gate`, `GateRules`, `GateEvidence` |
| source-to-result auditor and leakage control | `FoldAudit`, `AuditVerdict`, `AuditTheorems`, `AuditRules` |
| M15 label resolver with H1 context | `HourBars`, `LabelResolver`, `ResolverRules` |
| non-overlapping event selection | `GreedySelection` |
| governed executor and attempt ledger | `Ledger`, `LedgerRules` |
| shared | `Common`, `Arithmetic` |

Methods that mirror a loop or a mutable object are proved equal to a function of the old state; the theorems are
about that function, for all inputs and all runs. The modules named `...Rules`, and `BacktestSizing`, say in addition
what the components compute in terms of their inputs: counts are sizes of sets of rows, thresholds and prices are
written out, and the decisions and loops of the model do not appear in them, so each is a second definition that the
model is proved to meet.
`dafny verify dfyconfig.toml` checks everything.

What the code does not keep, with the exact limits:

- Cash can go negative at a close when the fee exceeds 100%, which the code does not exclude; `CashAfterCloseIff`
  says exactly when. Non-negative cash and the stop-loss bound are therefore stated under fee at most 1. No bound
  on slippage is needed.
- The level that triggers a stop, before slippage, can lie above the high of its bar: exactly for a lot filled at that
  bar's open from an entry whose stop lies there (`TriggerAboveHighIff`; `TriggerAboveHigh` is such a replay). The
  exit that is recorded never lies above the open (or 2^-52, if that is larger), but slippage can take it below the
  low (`StopTradePrice`).
- An H1 bar that a row would use can be removed by the next row, if that row still falls in the hour just completed
  (`ContextCausalIff`, `LateRowRemovesBar`); on the 15-minute grid this cannot happen (`GridNeverUndone`), and off the
  grid it never revises a label that has been resolved (`PrefixResolvesPrefix`).
- Off the 15-minute grid a signal that entered the label queue can be dropped at a gap (`AdmittedThenLost`), exactly
  when a gap lies before its target (`AdmittedFate`); on the grid no gap ever drops one (`GridQueueEmptyAtGap`). At
  the end of the file nothing is ever dropped (`TailQueueEmpty`).
- Greedy selection need not have maximum cardinality (`GreedyCanBeBeaten`). `MaximalIff` and `TimelyMaximalIff` say
  exactly for which ends no chain of rows in row order is longer, and `LargestFreeIff` for which ends no set of rows
  free of overlap in any order is larger (`LastEndFalls` is the smallest difference between the two).
- The auditor's fold loop never ends when the step is 0 and the first round finds a fold (`NeverEndsIff`). With a
  negative step it raises or runs out of training rows (`NegativeStepOutcome`). No such artifact passes (`Audit`).
- The third sign test returns not-a-number when there are no signs (`NoSigns`).

## Model

| member | source | states |
|---|---|---|
| IsotonicTheorems.FitIsOptimal | scripts/audit_xauusd_m1_oos_calibration.py:23-52 | for every non-empty sample and every non-decreasing function, the function's squared error is at least that of the fitted map plus the squared distance between the two |
| IsotonicTheorems.FitIsUnique | scripts/audit_xauusd_m1_oos_calibration.py:23-52 | a non-decreasing function that does as well as the fit equals it at every training probability |
| IsotonicTheorems.FitShape | scripts/audit_xauusd_m1_oos_calibration.py:23-52 | for every sample the breakpoints are the means of contiguous runs of the distinct probabilities, every proper prefix of a run has a mean above the run's mean, means lie in [0,1] and never fall, and the lookup at a training probability gives the mean of its own run |
| IsotonicTheorems.FitConserves | scripts/audit_xauusd_m1_oos_calibration.py:23-52 | the pooled blocks hold every row and every positive label once, over exactly the distinct probabilities of the sample |
| IsotonicTheorems.CalibratorMonotone | scripts/audit_xauusd_m1_oos_calibration.py:55-57 | the lookup never reverses two probabilities, whether in the sample or not |
| IsotonicTheorems.CalibrationNeverHurtsInSample | scripts/audit_xauusd_m1_oos_calibration.py:23-63 | on its own training sample the calibrated Brier score is at most the raw one |
| IsotonicTheorems.CalibrationConservesPositives | scripts/audit_xauusd_m1_oos_calibration.py:23-57 | the calibrated probabilities of the training rows add up to the number of positive labels |
| IsotonicTheorems.BisectRightSplits | scripts/audit_xauusd_m1_oos_calibration.py:55-57 | the insertion point separates abscissae at most p from those above p |
| IsotonicTheorems.LookupFollowsMeans | scripts/audit_xauusd_m1_oos_calibration.py:50-57 | the lookup in the blocks of any runs returns, on every group, the mean of the run holding it |
| IsotonicProofs.MergeKeepsPrefixHeavy | scripts/audit_xauusd_m1_oos_calibration.py:38-48 | merging two blocks out of order keeps the invariant that every proper prefix has a mean above the block mean |
| IsotonicProofs.RunsOfInvariant | scripts/audit_xauusd_m1_oos_calibration.py:34-48 | after every group pushed on the stack, all blocks satisfy that invariant and their means rise |
| IsotonicProofs.RunsOfCover | scripts/audit_xauusd_m1_oos_calibration.py:34-48 | the runs behind the blocks, put end to end, are exactly the input groups |
| IsotonicProofs.PooledIsPools | scripts/audit_xauusd_m1_oos_calibration.py:34-48 | the stack of summed blocks is the pooling of those runs, block by block |
| IsotonicProofs.WeightedBound | scripts/audit_xauusd_m1_oos_calibration.py:34-48 | summation by parts: weights whose prefix sums are never positive, against a non-decreasing function, are bounded by the last value times the total weight |
| IsotonicProofs.RunOptimal | scripts/audit_xauusd_m1_oos_calibration.py:34-48 | within one run the constant mean beats every non-decreasing function by at least its squared distance |
| Isotonic.GroupDuplicates | scripts/audit_xauusd_m1_oos_calibration.py:25-32 | the loop that merges equal probabilities computes the grouping the theorems are about |
| Isotonic.PoolAdjacentViolators | scripts/audit_xauusd_m1_oos_calibration.py:34-48 | the nested stack loop computes the pooling the theorems are about |
| Isotonic.Pava | scripts/audit_xauusd_m1_oos_calibration.py:23-52 | sorting, grouping, pooling and clamping compute the fit the theorems are about |
| CalibrationRun.CalibrationIsCausal | scripts/audit_xauusd_m1_oos_calibration.py:178-260 | changing any labels realised at or after time t leaves probability, fit id, cutoff and training count of every row emitted at or before t unchanged, for any fit and lookup routine |
| CalibrationTruncation.CalibrationIgnoresLaterRows | scripts/audit_xauusd_m1_oos_calibration.py:178-260 | dropping every row stamped after t leaves exactly the rows that the full run emits up to t, with all their values |
| CalibrationRun.WholeRun | scripts/audit_xauusd_m1_oos_calibration.py:178-260 | warm-up rows are exactly a prefix of the chronological rows, every later row is emitted once and in order, and each probability comes from a fit of the outcomes completed before its cutoff that misses fewer outcomes than the refit interval; when exactly the fit is kept is `RefitRule` |
| CalibrationRun.EligibleExactly | scripts/audit_xauusd_m1_oos_calibration.py:190-217 | the training pool at time t holds each row as often as the input does when its outcome ended strictly before t, and no other row |
| CalibrationRun.RunCalibration | scripts/audit_xauusd_m1_oos_calibration.py:178-260 | the loop with its completion cursor and mutable fit equals the run that filters the completed outcomes afresh at every row, to which `SkippedIff`, `RefitRule` and `EmittedRow` apply |
| CalibrationRun.ReadyPersists | scripts/audit_xauusd_m1_oos_calibration.py:213-224 | once there are ten completed outcomes of both classes, there are at every later time |
| CalibrationRun.NoSecondWarmup | scripts/audit_xauusd_m1_oos_calibration.py:213-224 | once one row has been scored, no later row is counted as warm-up |
| CalibrationRun.HasLabelMeans | scripts/audit_xauusd_m1_oos_calibration.py:213-224 | the two-class test is the existence of a row with each label |
| CalibrationRules.RowOrder | scripts/audit_xauusd_m1_oos_calibration.py:178-217 | rows are taken by time and then identifier, outcomes by completion time and then identifier |
| CalibrationRules.SkippedIff | scripts/audit_xauusd_m1_oos_calibration.py:213-224 | a row is skipped if and only if fewer than ten outcomes, no positive one or no negative one had completed strictly before it |
| CalibrationRules.RefitRule | scripts/audit_xauusd_m1_oos_calibration.py:213-231 | the first emitted row has fit 1 and its own time as cutoff; each later one keeps fit and cutoff of the row before exactly while fewer outcomes than the interval (at least 1) have completed since that cutoff, and otherwise gets the next fit number and its own time |
| CalibrationRules.EmittedRow | scripts/audit_xauusd_m1_oos_calibration.py:213-260 | every emitted row copies identifier, time, probability and label of its source row, counts the outcomes completed before it, and carries the lookup, at its probability, in the fit of the outcomes completed before its cutoff |
| CalibrationRules.LookupRule | scripts/audit_xauusd_m1_oos_calibration.py:55-57 | on ascending breakpoints the lookup is the first value below the first abscissa, the last value from the last one on, and the value of its interval in between |
| CalibrationAudit.EmittedByOptimalMap | scripts/audit_xauusd_m1_oos_calibration.py:178-260 | every emitted probability is the value of the optimal non-decreasing map of the outcomes completed before a cutoff not after the row, and lies in [0,1] |
| BacktestTheorems.RunSettled | scripts/biberion_shotgun_backtest.py:186-343 | in every reachable state cash plus open cost equals initial cash plus closed results, cash is not negative (fee at most 100%), each position's cost minus stop value is at most its recorded risk, position and addition counts are within limits, every entry is one open lot or one trade, and the pending protocol holds, in which an addition never moves the stop |
| BacktestTheorems.BarKeepsSettled | scripts/biberion_shotgun_backtest.py:186-343 | one bar, through all its phases, keeps all of that from any state that has it |
| BacktestTheorems.ReplayBalances | scripts/biberion_shotgun_backtest.py:349-357 | at the end nothing is open, final equity is initial cash plus the sum of net results, each entry has become exactly one trade and every stop exit is within its loss bound |
| BacktestTheorems.StopExitsLoseAtMostOneR | scripts/biberion_shotgun_backtest.py:169-184 | without costs every stop exit of every replay has r_multiple at least -1 |
| BacktestTheorems.LockdownHasExits | scripts/biberion_shotgun_backtest.py:284-296 | under lockdown every held symbol has a pending exit and nothing else is pending |
| BacktestFills.ExitAtFirstTrade | scripts/biberion_shotgun_backtest.py:188-209 | an exit pending after any bar is carried out at the open of the first later bar in which the symbol trades: the position is gone and its trade at that open, with its price and result, is recorded |
| BacktestTheorems.EntryWithinLimits | scripts/biberion_shotgun_backtest.py:210-243 | right after an entry the position's notional and risk and the basket's notional and risk are within their fractions of the equity marked at the open |
| BacktestTheorems.AddWithinLimits | scripts/biberion_shotgun_backtest.py:244-274 | right after an addition the enlarged position and the basket are within the same fractions |
| BacktestTheorems.OpeningIgnoresBar | scripts/biberion_shotgun_backtest.py:186-275 | two bars with the same opens give the same state after the opening phase, whatever their highs, lows, closes and volumes |
| BacktestTheorems.ClosePhaseEffect | scripts/biberion_shotgun_backtest.py:278-343 | the phases after the opening restore the books and the pending protocol and never lower a surviving stop |
| BacktestSignals.RunTimed | scripts/biberion_shotgun_backtest.py:186-343 | in every reachable state each lot, open or closed, was signalled on the bar immediately before its entry bar |
| BacktestSignals.ReplayTimed | scripts/biberion_shotgun_backtest.py:186-357 | the same of every trade of the final report |
| BacktestSignals.StopsNeverFall | scripts/biberion_shotgun_backtest.py:244-274 | between any two bars of a replay the stop of the same lot never falls, through additions and ratchets |
| BacktestSignals.PairsPassed | scripts/biberion_shotgun_backtest.py:319-343 | after every bar any two symbols held or proposed for entry passed the correlation test on the bar the later one was proposed, two proposals of one bar included |
| BacktestSignals.PairsPassedAtOpen | scripts/biberion_shotgun_backtest.py:202-243 | filling the proposals at the next open keeps that |
| BacktestSignals.HeldPairsPassed | scripts/biberion_shotgun_backtest.py:148-343 | hence any two positions held at the same time, after an opening or after a bar, passed the test |
| BacktestSignals.BarLotsHold | scripts/biberion_shotgun_backtest.py:186-343 | every lot after a bar was open before it or was entered at this bar's time from a proposal pending before it |
| BacktestPrices.ReplayTrades | scripts/biberion_shotgun_backtest.py:169-357 | the whole report: first the trades closed during the replay, each priced and stamped by one bar according to its reason (gap stop and lockdown at the open less slippage, on either side of the stop; stop at the stop less slippage on a bar that reached it), then one trade for each position still open, in order, at the last close of its symbol, all with their net result |
| BacktestPrices.FinalPriceObserved | scripts/biberion_shotgun_backtest.py:350-356 | every position open after the last bar has a trade in the report that closes it at the end of the data, at the close of the last bar in which its symbol traded less slippage, with that net result |
| BacktestFills.HistoryIsPoints | scripts/biberion_shotgun_backtest.py:319-324 | after every bar the history of a symbol is exactly the bars in which it traded, in order |
| BacktestPrices.StopTradePrice | scripts/biberion_shotgun_backtest.py:169-282 | every stop exit of every replay is recorded on a bar that reached the stop, at the stop less slippage, never above the larger of the open and the smallest price, and below the low exactly when slippage takes it there and the low exceeds the smallest price |
| BacktestPrices.PricedBelowOpen | scripts/biberion_shotgun_backtest.py:169-282 | no trade closed on a bar, for whatever reason, is recorded above the larger of its open and the smallest price |
| BacktestPrices.BarPriced | scripts/biberion_shotgun_backtest.py:186-282 | every trade that a bar adds to any settled state is priced and stamped by that bar according to its reason |
| BacktestPrices.StoppedIff | scripts/biberion_shotgun_backtest.py:278-282 | on any bar of any replay a position open after the opening leaves on that bar, with its stop trade recorded, if and only if the low reaches its stop, a lot filled at this open included |
| BacktestPrices.TriggerAboveHighIff | scripts/biberion_shotgun_backtest.py:193-282 | on any bar of any replay the stop of a position open after the opening lies above the high if and only if the lot was filled at this open from an entry whose stop does; it then lies below the slipped fill price, and slippage is positive |
| BacktestTrigger.TriggerAboveHigh | scripts/biberion_shotgun_backtest.py:193-357 | a replay of seven bars of one symbol with a one-over-two-bar cross: its report holds a stop trade entered and closed on the last bar, triggered above the high and recorded below the low |
| BacktestRules.StopAfterBar | scripts/biberion_shotgun_backtest.py:299-304 | in every replay a lot open after the opening of a bar and after the bar has as its stop the larger of the stop it had and the low less the buffer, the stop it had where its symbol does not trade, and is otherwise unchanged |
| BacktestRules.StopIsHighestLevel | scripts/biberion_shotgun_backtest.py:193-343 | hence the stop of every lot held after any bar of any replay is the largest low less the buffer over the bars of its symbol from the signal bar, the one before its entry, up to now; fills and additions never move it |
| BacktestRules.LockdownWrittenOut | scripts/biberion_shotgun_backtest.py:284-291 | after every bar lockdown holds if and only if fewer than five of the last ten benchmark changes exist, or neither the number of rises nor that of falls reaches the required share of those that are not zero |
| BacktestRules.ExitIff | scripts/biberion_shotgun_backtest.py:188-296 | after every bar an exit is pending for a symbol if and only if it is held and lockdown holds, or it is held, did not trade and had one pending before |
| BacktestRules.AdditionIff | scripts/biberion_shotgun_backtest.py:306-316 | after every bar an addition is pending for a held symbol if and only if lockdown does not hold, the lot has additions left, and the bar closes above the entry and above the last earlier close of the symbol with more than the required flow; it is stamped with this bar and carries the stop |
| BacktestRules.EntryIff | scripts/biberion_shotgun_backtest.py:319-343 | after every bar an entry is pending for a symbol if and only if it trades, is not held, lockdown does not hold, its history up to this bar is long enough and signals, the benchmark rose, the low less the buffer is positive and below the close, and the pair test on the histories before this bar passes with every other symbol held or, earlier in the symbol order, pending for entry; it carries that level and this time |
| BacktestRules.RatchetExact | scripts/biberion_shotgun_backtest.py:299-304 | ratcheting any list of symbols gives each held symbol on it the larger of its stop and the low less the buffer, and leaves the others |
| BacktestSizing.RoomIs | scripts/biberion_shotgun_backtest.py:213-220 | equity, basket notional and basket risk are the sums over the open lots at the opens, at the opens with slippage (at notional where the symbol does not trade), and of recorded risks |
| BacktestSizing.FillIff | scripts/biberion_shotgun_backtest.py:202-275 | executing a proposal leads from one state to another if and only if its rule relates them: an entry or addition is refused under exactly the written conditions and otherwise buys the largest amount within the asset, basket, risk and cash limits, with the resulting lot and cash spelled out; an exit sells at the open less slippage; a symbol that does not trade waits |
| BacktestSizing.OpeningWrittenOut | scripts/biberion_shotgun_backtest.py:186-275 | the opening of every bar: stale proposals go and gapped positions are sold, then the remaining proposals are executed one by one in the order they were made, each by its rule on what the one before left |
| BacktestBooks.CloseKeepsBooks | scripts/biberion_shotgun_backtest.py:169-184 | closing a position keeps the books, and a stop exit keeps the loss bound |
| BacktestBooks.CashAfterCloseIff | scripts/biberion_shotgun_backtest.py:169-184 | cash stays non-negative after a close at every price if and only if the fee is at most 100%, or slippage is total and cash covers the fee on the smallest exit price |
| BacktestBooks.StopProceeds | scripts/biberion_shotgun_backtest.py:169-184 | proceeds of a stop exit are at least the stop value less an explicit fee and slippage term |
| BacktestBooks.ClosedTradeSound | scripts/biberion_shotgun_backtest.py:169-184 | a stop exit loses at most the recorded risk plus entry fee plus that term |
| BacktestBooks.EntrySizing | scripts/biberion_shotgun_backtest.py:225-241 | the entry notional, a minimum of caps, is paid for by cash including the fee and respects each cap |
| BacktestBooks.FillEntryKeepsBooks | scripts/biberion_shotgun_backtest.py:210-243 | an entry, filled or refused, keeps the books |
| BacktestBooks.AddSizing | scripts/biberion_shotgun_backtest.py:247-265 | the added notional, a minimum of caps, is paid for and leaves position and basket within each cap |
| BacktestBooks.FillAddKeepsBooks | scripts/biberion_shotgun_backtest.py:244-274 | an addition, filled or refused, keeps the books |
| BacktestBooks.RatchetKeepsBooks | scripts/biberion_shotgun_backtest.py:299-304 | raising a stop keeps the books |
| BacktestProtocol.ExpireEffect | scripts/biberion_shotgun_backtest.py:188-191 | only proposals of symbols that do not trade now are dropped, and never an exit |
| BacktestProtocol.GapStopEffect | scripts/biberion_shotgun_backtest.py:193-199 | gap stops only close positions, and keep the books |
| BacktestProtocol.FillFold | scripts/biberion_shotgun_backtest.py:202-275 | executing any number of pending proposals in order keeps the books, and each symbol is touched only by its own proposal |
| BacktestProtocol.OpenPhaseEffect | scripts/biberion_shotgun_backtest.py:188-275 | after the opening phase each position is an old lot or a new entry of a pending proposal, and only exits of symbols that do not trade are still pending |
| BacktestProtocol.StopEffect | scripts/biberion_shotgun_backtest.py:278-282 | no position that traded through its stop survives the bar |
| BacktestProtocol.LockdownEffect | scripts/biberion_shotgun_backtest.py:285-296 | lockdown replaces whatever is pending for a held symbol by an exit and changes no other proposal |
| BacktestProtocol.RatchetFold | scripts/biberion_shotgun_backtest.py:299-304 | ratcheting keeps the books and changes nothing but stops, upwards; by how much is `StopAfterBar` |
| BacktestProtocol.AddsFold | scripts/biberion_shotgun_backtest.py:307-316 | additions are proposed only for held symbols below the limit and outside lockdown, and displace no other proposal |
| BacktestProtocol.SignalFold | scripts/biberion_shotgun_backtest.py:319-343 | entries are proposed only for unheld symbols, outside lockdown and with a positive stop |
| BacktestProtocol.LiquidateEffect | scripts/biberion_shotgun_backtest.py:350-356 | liquidation closes everything and keeps the books |
| BacktestEngine.Replay.constructor | scripts/biberion_shotgun_backtest.py:131-138 | a replay starts with the initial cash, nothing open or pending, in lockdown |
| BacktestEngine.Replay.ClosePosition | scripts/biberion_shotgun_backtest.py:169-184 | the in-place update is the close that the books are proved for |
| BacktestEngine.Replay.Measure | scripts/biberion_shotgun_backtest.py:213-220 | the three sums over open positions are the equity, basket notional and basket risk used for sizing |
| BacktestEngine.Replay.Enter | scripts/biberion_shotgun_backtest.py:210-243 | the in-place update is the entry that sizing and books are proved for |
| BacktestEngine.Replay.AddTo | scripts/biberion_shotgun_backtest.py:244-274 | the in-place update is the addition that sizing and books are proved for |
| BacktestEngine.Replay.ExpirePending | scripts/biberion_shotgun_backtest.py:188-191 | the loop is the expiry phase over the proposals present at its start |
| BacktestEngine.Replay.GapStops | scripts/biberion_shotgun_backtest.py:193-199 | the loop is the gap-stop phase over the positions present at its start |
| BacktestEngine.Replay.ExecuteProposal | scripts/biberion_shotgun_backtest.py:202-275 | one proposal has the effect of its kind, or waits if the symbol does not trade |
| BacktestEngine.Replay.ExecutePending | scripts/biberion_shotgun_backtest.py:202-275 | the loop executes the proposals in insertion order |
| BacktestEngine.Replay.IntrabarStops | scripts/biberion_shotgun_backtest.py:278-282 | the loop is the intrabar stop phase |
| BacktestEngine.Replay.Lockdown | scripts/biberion_shotgun_backtest.py:284-296 | the update is the lockdown phase |
| BacktestEngine.Replay.RatchetStops | scripts/biberion_shotgun_backtest.py:299-304 | the loop is the ratchet phase, whose effect on every stop is `StopAfterBar` |
| BacktestEngine.Replay.ProposeAdditions | scripts/biberion_shotgun_backtest.py:307-316 | the loop is the addition-proposal phase |
| BacktestEngine.Replay.PairwiseCorrelationOk | scripts/biberion_shotgun_backtest.py:148-167 | the early-exit loop over the peers answers whether every other held or proposed symbol passes the pair test |
| BacktestEngine.Replay.FormSignals | scripts/biberion_shotgun_backtest.py:319-343 | the loop is the signal phase in symbol order |
| BacktestEngine.Replay.ReplayBar | scripts/biberion_shotgun_backtest.py:186-343 | one iteration is the bar step of the theorems |
| BacktestEngine.Replay.Liquidate | scripts/biberion_shotgun_backtest.py:350-356 | the final loop is the liquidation of the theorems |
| BacktestEngine.RunBacktest | scripts/biberion_shotgun_backtest.py:66-357 | the mutable replay returns the final equity and trades of the run the theorems are about, whose every opening, stop, lockdown and proposal `OpeningWrittenOut`, `StopAfterBar`, `LockdownWrittenOut`, `ExitIff`, `AdditionIff` and `EntryIff` determine |
| Reliability.RefiningNeverLowersEce | researchos/probability_validation.py:189-244 | splitting every bin into any number of equal bins never lowers the expected calibration error |
| Reliability.RefiningNeverLowersMce | researchos/probability_validation.py:173-244 | splitting every bin into any number of equal bins never lowers the maximum calibration error either |
| Reliability.ErrorChain | researchos/probability_validation.py:189-244 | for every sample and bin count the gap between mean confidence and accuracy is at most ECE, ECE at most MCE, MCE at most 1 |
| Reliability.BinsPartition | researchos/probability_validation.py:216-244 | bin counts add up to the sample, and each bin's mean confidence lies within its bounds, its accuracy in [0,1] |
| Reliability.IndexRefines | researchos/probability_validation.py:216-244 | the bin index under a refined count determines the bin index under the coarse one, the clamp at confidence 1 included |
| Reliability.BuildBins | researchos/probability_validation.py:216-244 | filling the buckets in place and summarising them gives, bin by bin, the statistics of the predictions whose confidence falls there |
| ProbabilityValidation.ValidateRows | researchos/probability_validation.py:154-168 | accepts exactly when every assessment is acceptable and every outcome supported, and otherwise reports the first offending row and which of the two failed |
| ProbabilityValidation.Evaluate | researchos/probability_validation.py:122-213 | returns a report exactly for valid arguments, acceptable rows and a Brier score within range, and the report holds the Brier score, log loss, bins, ECE, MCE and readiness of the sample, which `ReportBins`, `ReportEce`, `ReportMce` and `ReportScores` write out on the rows; the other range checks never refuse |
| ProbabilityValidation.Measures | researchos/probability_validation.py:190-191 | the weighted sum and the maximum over the bins are the ECE and MCE of the sample |
| ProbabilityValidation.BrierSumBound | researchos/probability_validation.py:173-186 | when every row's probabilities sum to at most 1 + e, the Brier sum is at most (2 + e squared) per row |
| ProbabilityValidation.ReportAccepted | researchos/probability_validation.py:62-69 | when no row's probabilities exceed 1 in sum, the Brier score passes the report's range check |
| ProbabilityValidation.ScoreRange | researchos/probability_validation.py:62-69 | rows whose sums exceed 1 by at most e have a Brier score between 0 and 2 plus e squared, in exact arithmetic |
| ProbabilityValidation.AcceptedScoreBound | researchos/probability_validation.py:101-119 | so the score of any accepted rows is at most 2 plus the squared tolerance, which is 10^-18 |
| ProbabilityValidation.ScoreBoundSharp | researchos/probability_validation.py:101-119 | that bound is sharp: for every tolerated excess e some accepted row scores exactly 2 plus e squared |
| ProbabilityValidation.LossNonNegative | researchos/probability_validation.py:62-69 | a finite log loss is never negative, so its range check never refuses |
| ProbabilityValidation.LossInfiniteIff | researchos/probability_validation.py:173-186 | the log loss is infinite if and only if some outcome happened that had been given probability 0 |
| ProbabilityValidation.PredictedIsMaximal | researchos/probability_validation.py:182 | the predicted outcome has the largest of the three probabilities |
| ReportRules.AcceptableIff | researchos/probability_validation.py:101-119 | an assessment is acceptable if and only if its five fractions lie in [0,1], its probabilities sum to 1 within 10^-9, and its sample size is not negative |
| ReportRules.ReportBins | researchos/probability_validation.py:216-244 | the bins of a report are exactly those that hold a row: count is the number of rows whose largest probability lies in the bin, accuracy times count the number of those whose outcome is the first with it, mean confidence times count the sum of those probabilities, gap the distance of the two means |
| ReportRules.ReportEce | researchos/probability_validation.py:189-191 | the reported ECE times the sample size is the sum over bins of the distance between those hits and the sum of those probabilities |
| ReportRules.ReportMce | researchos/probability_validation.py:189-191 | the reported MCE is at most a bound if and only if in every bin that distance is at most the bound per row |
| ReportRules.OneRowReport | researchos/probability_validation.py:170-213 | on one row both errors are 1 minus the largest probability on a hit and that probability on a miss |
| ReportRules.ReportScores | researchos/probability_validation.py:173-186 | the Brier score times the sample size is the sum of squared probabilities minus twice the one that came true plus 1; the log loss is finite if and only if every outcome that happened had positive probability, and is then minus the mean logarithm |
| SignTest.SignTestsAgree | scripts/evaluate_xauusd_m1_b_level_gate.py:43-49 | the three implementations of the sign test give the same value for every non-empty count of signs |
| SignTest.NoSigns | scripts/discover_xauusd_m1_nested_edges.py:180-185 | with no sign at all two of them return 1 and the third returns not-a-number |
| SignTest.ClampActiveIffTied | scripts/_confirm_xauusd_m1_frozen_candidate_impl.py:235-243 | the clamp to 1 cuts something off if and only if positives equal negatives; the p-value is 1 if and only if they differ by at most one |
| SignTest.TailsComplement | scripts/_confirm_xauusd_m1_frozen_candidate_impl.py:235-243 | lower and upper binomial tails cut at the same point add up to 2^n |
| SignFlip.PermutationPValue | scripts/evaluate_xauusd_m1_b_level_gate.py:52-64 | the loops over masks and folds return the share of sign choices whose mean reaches the observed one, out of 2^n |
| SignFlip.MasksAreChoices | scripts/evaluate_xauusd_m1_b_level_gate.py:52-64 | counting over bit masks counts every choice of signs exactly once |
| SignFlip.ExactPValueBound | scripts/evaluate_xauusd_m1_b_level_gate.py:52-64 | at least one of the 2^n choices reaches the observed mean; exactly one does if and only if every improvement exceeds half of n times the comparison slack |
| SignFlip.OnlyObservedReaches | scripts/evaluate_xauusd_m1_b_level_gate.py:52-64 | only the observed signs come within a slack of the observed sum if and only if twice every value exceeds the slack |
| Gate.PassNeedsSevenFolds | scripts/evaluate_xauusd_m1_b_level_gate.py:154-166 | no evidence with fewer than seven folds passes the gate |
| Gate.SevenFoldsAllImprove | scripts/evaluate_xauusd_m1_b_level_gate.py:154-166 | with exactly seven folds a pass means that every fold improved |
| Gate.StatisticalGatesAttainable | scripts/evaluate_xauusd_m1_b_level_gate.py:154-166 | from seven to twenty folds that all improve by more than the slack, the three statistical conditions hold |
| Gate.FoldImprovements | scripts/evaluate_xauusd_m1_b_level_gate.py:91-101 | returns baseline minus model for every fold exactly when there are folds and all scores are present, and otherwise the first fold at fault |
| GateEvidence.LeakageGateRedundant | scripts/evaluate_xauusd_m1_b_level_gate.py:112-166 | on an artifact that passes the source audit the leakage control never raises and its condition holds, so the decision is the same without it |
| GateRules.PassIff | scripts/evaluate_xauusd_m1_b_level_gate.py:112-166 | the decision passes if and only if both audits pass, there are at least 10000 out-of-sample events, aggregate improvement and lower interval end are positive, fewer than 1 in 100 of the sign choices (over 20 folds: of the draws) reach the observed mean, 40 times the smaller binomial tail is below 2^n, at least 7 folds in 10 improve, and both controls hold |
| AuditTheorems.LeakageIsRejected | scripts/run_xauusd_m1_future_leakage_negative_control.py:13-48 | for every passing artifact with a fold the control does not raise, keeps the split, and its output does not pass |
| AuditTheorems.TrainingIsPast | scripts/audit_xauusd_m1_source_to_result.py:124-180 | in a passing artifact the training ids of each fold are the reconstructed ones, and each training outcome was realised strictly before every validation timestamp of the fold and is not itself validated there |
| AuditTheorems.PredictionsAreWindow | scripts/audit_xauusd_m1_source_to_result.py:181-224 | in a passing artifact the predicted ids of each fold are its validation rows, each exactly once |
| AuditTheorems.PredictionsCover | scripts/audit_xauusd_m1_source_to_result.py:181-224 | in a passing artifact the ids predicted over all folds are, as a multiset, the ids of all reconstructed windows, and each source row is predicted exactly once if it lies in a window and never otherwise |
| AuditTheorems.WindowsDisjoint | scripts/audit_xauusd_m1_source_to_result.py:119-137 | in a passing artifact the validation windows of different folds share no row |
| AuditTheorems.SomePassesIff | scripts/audit_xauusd_m1_source_to_result.py:72-262 | some artifact with a given split passes if and only if the sizes are positive, windows do not overlap, no fold is starved and every validation row has history in its direction |
| AuditTheorems.HonestPasses | scripts/audit_xauusd_m1_source_to_result.py:72-262 | under those conditions the artifact recomputed from the source passes |
| AuditTheorems.RunControl | scripts/run_xauusd_m1_future_leakage_negative_control.py:13-48 | the control appends the first predicted id of the first fold to that fold's training ids and changes nothing else, or raises when it cannot |
| AuditRules.SourceWrittenOut | scripts/audit_xauusd_m1_source_to_result.py:19-51 | the source is read if and only if no complete event is defective or shares its identifier with another, and its rows are then exactly the complete events with their own fields, by time and identifier |
| AuditRules.FoldsWrittenOut | scripts/audit_xauusd_m1_source_to_result.py:119-137 | a passing artifact has a fold m if and only if m steps plus the training and validation sizes fit in the rows |
| AuditRules.HeaderWrittenOut | scripts/audit_xauusd_m1_source_to_result.py:138-180 | in a passing artifact the counts, embargo, times, training identifiers and rate of every fold are those of its rows: the training rows are the earlier ones realised strictly before the window, and the rate is the rounded share of hits among them |
| AuditRules.PredictionWrittenOut | scripts/audit_xauusd_m1_source_to_result.py:181-212 | in a passing artifact every prediction has the identifier, time, direction and label of a row of its window, and as its probability the rounded share of hits among the training rows of that direction |
| AuditRules.ScoresWrittenOut | scripts/audit_xauusd_m1_source_to_result.py:214-220 | in a passing artifact the model score of a fold is that of its probabilities against its labels and the baseline score that of its unrounded training rate |
| AuditRules.AggregateWrittenOut | scripts/audit_xauusd_m1_source_to_result.py:226-242 | the aggregate scores are those of all probabilities, and of each fold's reported rate repeated for its predictions, against all labels |
| AuditRules.PassesAgree | scripts/audit_xauusd_m1_source_to_result.py:181-212 | two passing artifacts with the same split make the same prediction for the same event of a fold |
| AuditRules.TamperedNeverPasses | scripts/audit_xauusd_m1_source_to_result.py:181-212 | an artifact that differs from a passing one in the probability of some prediction never passes, whatever scores and headers were adjusted to fit |
| AuditRules.OneProbabilityChanged | scripts/audit_xauusd_m1_source_to_result.py:181-212 | in particular changing a single probability of a passing artifact, to any value, never passes |
| AuditVerdict.Audit | scripts/audit_xauusd_m1_source_to_result.py:72-262 | on any artifact, with sizes of any sign: PASS if and only if the artifact satisfies every check (what that says of its numbers is in `HeaderWrittenOut`, `PredictionWrittenOut`, `ScoresWrittenOut` and `AggregateWrittenOut`); it raises if and only if the fold loop meets an empty window, and never returns if and only if the step is 0 and the first round finds a fold |
| AuditVerdict.AuditFold | scripts/audit_xauusd_m1_source_to_result.py:145-220 | the checks of one fold record no failure if and only if the fold matches its reconstruction, down to every count, rate, probability and score (`HeaderWrittenOut`, `PredictionWrittenOut`, `ScoresWrittenOut`), and reuses no earlier prediction |
| AuditVerdict.AuditPredictions | scripts/audit_xauusd_m1_source_to_result.py:181-212 | the prediction loop records no failure if and only if each prediction matches its row, which `PredictionWrittenOut` spells out, and no id repeats here or earlier |
| FoldAudit.ReadRowsGood | scripts/audit_xauusd_m1_source_to_result.py:19-51 | rows that were read have distinct ids, are in time order, and end after they start |
| FoldAudit.ReadRows | scripts/audit_xauusd_m1_source_to_result.py:19-51 | the scan with its seen-set returns the usable rows sorted by time and id, or fails on a repeated or malformed event |
| FoldAudit.Reconstruct | scripts/audit_xauusd_m1_source_to_result.py:119-137 | for sizes of any sign the loop with its slices finds the folds, and tells whether it left, ran out of training rows, raised or would repeat for ever |
| FoldAudit.WalkPositive | scripts/audit_xauusd_m1_source_to_result.py:124-137 | with positive sizes the loop neither raises nor repeats: it finds the folds of the windows a step apart, up to the first without a training row |
| FoldAudit.NeverEndsIff | scripts/audit_xauusd_m1_source_to_result.py:124-137 | every round finds a fold, so that the loop never ends, if and only if the step is 0 and the first window fits, is not empty and has a training row |
| FoldAudit.NegativeStepOutcome | scripts/audit_xauusd_m1_source_to_result.py:124-137 | with a negative step the loop is not entered, raises, or runs out of training rows |
| FoldAudit.StartsShape | scripts/audit_xauusd_m1_source_to_result.py:124-137 | every window found fits in the rows, has training rows, and starts at least one step after the one before |
| LabelResolver.RunAudit | scripts/audit_candle_velocity_m15_h1.py:144-248 | the streaming pass files exactly the labels of the queue-free definition for horizons 3 and 5, group and day tables each add up to the resolved count, and resolved plus excluded is the number of qualifying signals; it fails exactly when no hour is complete; `ReportWrittenOut` counts every cell on the rows alone |
| LabelResolver.StreamMeetsDefinition | scripts/audit_candle_velocity_m15_h1.py:144-248 | the same for every positive horizon, `ReportWrittenOut` included |
| LabelResolver.ReplayTracks | scripts/audit_candle_velocity_m15_h1.py:144-248 | after every row the queue holds exactly the admissible signals of the unbroken stretch whose horizon has not passed, in order, and no signal is lost |
| LabelResolver.NeverStale | scripts/audit_candle_velocity_m15_h1.py:163-168 | no queued event is ever past its target, so the branch excluding a stale event is unreachable |
| LabelResolver.AdmittedFate | scripts/audit_candle_velocity_m15_h1.py:144-248 | every event that enters the queue is there after its own row; it is still there when its target row comes if and only if no gap lies between, and it is dropped at a gap if and only if one does |
| LabelResolver.GridQueueEmptyAtGap | scripts/audit_candle_velocity_m15_h1.py:145-153 | on the quarter-hour grid the queue is empty at every gap, so a gap reset drops nothing |
| LabelResolver.TailQueueEmpty | scripts/audit_candle_velocity_m15_h1.py:247-248 | on any rows, on or off the grid, the queue is empty after the last row, so the tail exclusion adds nothing |
| LabelResolver.GridKeepsAdmitted | scripts/audit_candle_velocity_m15_h1.py:218-220 | on the grid the check at entry and an unbroken horizon are the same condition |
| LabelResolver.AdmittedThenLost | scripts/audit_candle_velocity_m15_h1.py:145-153 | a run off the grid, with its complete first hour, in which one event enters the queue and is thrown away at the next gap |
| LabelResolver.UnbrokenIsAdmissible | scripts/audit_candle_velocity_m15_h1.py:218-220 | an unbroken horizon always passes the check at entry, on or off the grid |
| LabelResolver.PrefixResolvesPrefix | scripts/audit_candle_velocity_m15_h1.py:57-248 | labels resolved from the first m rows are a prefix of the labels resolved from any longer file, on or off the grid |
| LabelResolver.ContextPrefix | scripts/audit_candle_velocity_m15_h1.py:57-161 | for every row of a prefix but its last, the bar in use is the same with and without the rows after the prefix |
| LabelResolver.TablesCount | scripts/audit_candle_velocity_m15_h1.py:178-184 | every cell of the group and day tables counts the labels with its key and outcome |
| LabelResolver.TablesCrossFoot | scripts/audit_candle_velocity_m15_h1.py:277-282 | group and day tables agree on every outcome of either split |
| LabelResolver.DueIsLabel | scripts/audit_candle_velocity_m15_h1.py:163-197 | the event one horizon back is still waiting at row i exactly when the definition labels it there |
| LabelResolver.HorizonBook.constructor | scripts/audit_candle_velocity_m15_h1.py:133-139 | a horizon starts with an empty queue and empty tables |
| LabelResolver.HorizonBook.DropPending | scripts/audit_candle_velocity_m15_h1.py:148-150 | at a gap the whole queue is counted as excluded |
| LabelResolver.HorizonBook.ResolveDue | scripts/audit_candle_velocity_m15_h1.py:164-197 | the inner loop pops every due event and files or excludes it; what is filed under which outcome is `ReportWrittenOut` |
| LabelResolver.HorizonBook.Consider | scripts/audit_candle_velocity_m15_h1.py:218-242 | a signal is queued if its target row exists at the right distance and excluded otherwise |
| LabelResolver.HorizonBook.CloseBook | scripts/audit_candle_velocity_m15_h1.py:247-248 | what still waits after the last row is excluded |
| LabelResolver.HorizonBook.HandleRow | scripts/audit_candle_velocity_m15_h1.py:144-242 | one row for one horizon is the row step of the theorems |
| ResolverRules.ReportWrittenOut | scripts/audit_candle_velocity_m15_h1.py:144-248 | in the finished tables of either horizon every counter of every group and day is the number of rows in the analysis dates that show an impulse, have a closed hourly bar and no gap up to the horizon, lie on that side of the holdout date and in that group or day, and whose close moves by more than the threshold in (continuation) or against (reversal) the direction of the impulse, or neither; no key is listed twice and none with a row is missing; resolved and excluded count the rows with and without the unbroken horizon |
| ResolverRules.BarWrittenOut | scripts/audit_candle_velocity_m15_h1.py:57-72 | every hourly bar is four consecutive quarter-hour rows: the open of the first, the close of the last, and their reached high and low |
| ResolverRules.EveryFullHourListed | scripts/audit_candle_velocity_m15_h1.py:57-72 | every four quarter-hour rows that are alone in their hour make a bar |
| HourBars.AggregateH1 | scripts/audit_candle_velocity_m15_h1.py:57-72 | returns one bar for every hour that holds exactly its four quarter-hour rows, in time order, and fails if and only if there is none |
| HourBars.BarSpans | scripts/audit_candle_velocity_m15_h1.py:69 | a bar's high and low bound every row of its hour and are reached by some row |
| HourBars.FillBuckets | scripts/audit_candle_velocity_m15_h1.py:59-63 | each bucket holds the rows of its hour in row order |
| HourBars.AdvanceCursor | scripts/audit_candle_velocity_m15_h1.py:156-157 | the cursor only moves forward and lands on the last closed bar |
| HourBars.ContextInUse | scripts/audit_candle_velocity_m15_h1.py:156-161 | the bar at the cursor is the latest complete hour that has closed by the end of the current row |
| HourBars.ContextUsesPast | scripts/audit_candle_velocity_m15_h1.py:126-161 | the bar in use is built from four consecutive rows, none after the current one |
| HourBars.ContextCausalIff | scripts/audit_candle_velocity_m15_h1.py:57-72 | hiding the rows after row i leaves its bar in use unchanged if and only if row i does not complete an hour that the next row still falls in |
| HourBars.GridNeverUndone | scripts/audit_candle_velocity_m15_h1.py:57-72 | on the quarter-hour grid that exception cannot occur |
| HourBars.LateRowRemovesBar | scripts/audit_candle_velocity_m15_h1.py:57-72 | a file off the grid in which a later fifth row of an hour takes away the bar an earlier row would have used, and that row falls back on the older hour |
| GreedySelection.NonOverlapping | scripts/audit_xauusd_m1_edge_costs.py:297-304 | the pass returns the greedily kept events, in row order |
| GreedySelection.SkippedOnlyOnConflict | scripts/audit_xauusd_m1_edge_costs.py:297-304 | an event is skipped if and only if it is entered before the exit of the last event kept ahead of it |
| GreedySelection.KeptIsChain | scripts/audit_xauusd_m1_edge_costs.py:297-304 | kept events are in row order and each is entered no earlier than the exit of the one before |
| GreedySelection.SelectionNonOverlapping | scripts/audit_xauusd_m1_edge_costs.py:224-304 | on events filled from a chronological bar file every two selected events are free of overlap |
| GreedySelection.FilledForward | scripts/audit_xauusd_m1_edge_costs.py:202-293 | an event entered on the bar after its signal and ended on a later bar than its signal never ends before it is entered |
| GreedySelection.KeptPairwise | scripts/audit_xauusd_m1_edge_costs.py:297-304 | when no event ends before it is entered, any chain of events is pairwise free of overlap |
| GreedySelection.DistantOverlap | scripts/audit_xauusd_m1_edge_costs.py:297-304 | without that, two kept events that are not neighbours can overlap |
| GreedySelection.MaximalIff | scripts/audit_xauusd_m1_edge_costs.py:297-304 | for given ends, no chain of rows in row order, each entered no earlier than the exit of the one before, is longer than the selection, under every choice of entry times, if and only if the ends of all rows but the last never fall |
| GreedySelection.TimelyMaximalIff | scripts/audit_xauusd_m1_edge_costs.py:295-304 | the same under every choice of entry times in time order and before the ends, if and only if no row but the last ends before an earlier row while ending no later than the last |
| GreedySelection.GreedyIsMaximum | scripts/audit_xauusd_m1_edge_costs.py:297-304 | rows whose ends never fall before the last row: no chain of compatible rows is longer than the selection |
| GreedySelection.TimelyIsMaximal | scripts/audit_xauusd_m1_edge_costs.py:295-304 | the same for rows in time order under the weaker condition |
| GreedySelection.LargestFreeIff | scripts/audit_xauusd_m1_edge_costs.py:295-304 | for given ends, no set of rows pairwise free of overlap by the test of the pass, in whatever order, is larger than the selection, under every choice of entry times in time order, if and only if the ends never fall |
| GreedySelection.NoLargerFreeSet | scripts/audit_xauusd_m1_edge_costs.py:295-304 | for rows in time order whose ends never fall the selection is a largest set free of overlap |
| GreedySelection.SelectionIsFree | scripts/audit_xauusd_m1_edge_costs.py:297-304 | the selection itself is such a set, with as many distinct rows as were kept |
| GreedySelection.LastEndFalls | scripts/audit_xauusd_m1_edge_costs.py:297-304 | the smallest case in which no chain is longer but a larger set, taken in the other order, is free of overlap |
| GreedySelection.FilledTimely | scripts/audit_xauusd_m1_edge_costs.py:202-295 | events filled from a chronological bar file and sorted by signal time are rows in time order that end no earlier than they are entered |
| GreedySelection.GreedyCanBeBeaten | scripts/audit_xauusd_m1_edge_costs.py:297-304 | the smallest case in which one long event crowds out two short ones |
| Ledger.RunsWithinBudget | scripts/qros_agent.py:307-402 | in every interleaving of callers at most max_attempts commands run |
| Ledger.AttemptsConsecutive | scripts/qros_agent.py:68-91 | in every interleaving attempt numbers of runs are distinct and within the grants, and once no caller is between grant and run they are exactly 1, 2, ... |
| Ledger.RunsNeverReplay | scripts/qros_agent.py:381-402 | in every interleaving no proposal, command and pre-execution revision run twice, and every run carried an approval that validates against its own proposal, scope, contract and this ledger |
| Ledger.TraceKeepsInv | scripts/qros_agent.py:307-402 | every sequence of events keeps the account of receipts, grants, callers in flight and runs |
| Ledger.StepKeepsInv | scripts/qros_agent.py:307-402 | each event of each caller keeps that account |
| Ledger.PreCheckGoverns | scripts/qros_agent.py:307-362 | a request that passes the checks has an allowed action without shell characters, in scope, matching its validated approval |
| Ledger.ApprovalRoundTrip | scripts/qros_agent.py:129-159 | an approval with a non-blank approver and time validates against the inputs it was made for |
| Ledger.ApprovalBinds | scripts/qros_agent.py:273-304 | an approval that validates elsewhere was made for the same proposal payload, scope, contract, budget and attempt limit |
| Ledger.IdentityIgnoresItself | scripts/qros_agent.py:112-114 | storing an identity in a proposal does not change its identity |
| Ledger.AttemptLedger.Create | scripts/qros_agent.py:71-77 | a ledger opens with nothing consumed and its own or a generated budget id, and is refused if and only if the limit is below 1 |
| Ledger.AttemptLedger.ConsumedAttempts | scripts/qros_agent.py:79-82 | reports the number of receipts consumed |
| Ledger.AttemptLedger.Consume | scripts/qros_agent.py:84-91 | grants the next number and records the receipt, or refuses an exhausted budget or a repeated receipt and changes nothing, keeping receipts distinct and within budget |
| LedgerRules.PreCheckIff | scripts/qros_agent.py:307-362 | a request passes the checks if and only if its proposal is allowed, the contract has paths, the command is ruff check or ruff format without shell characters and in scope, equals the governed action, and the approval is granted, signed, dated and bound to proposal, action, scope and ledger |
| LedgerRules.OutsideAllowlistIff | scripts/qros_agent.py:316-327 | the allowlist refuses a request if and only if the proposal is allowed, the contract has paths, and the last component of the program's path that counts is not ruff |
| LedgerRules.EveryRunBacked | scripts/qros_agent.py:307-402 | behind every run of every interleaving are a submission of its permitted request, bound to this ledger and in scope, and later a clean observation of the very revision it ran on, both by its own caller |
| LedgerRules.GrantedIff | scripts/qros_agent.py:84-402 | in every interleaving a ready caller is granted the next attempt if and only if fewer than max_attempts were granted and none of them had the same proposal, command and revision; a refusal changes nothing and the caller starts again |
| LedgerRules.ReceiptsSame | scripts/qros_agent.py:381-402 | two receipts are equal if and only if proposal (up to a stored identity), command and revision are |
| LedgerRules.BlankIff | scripts/qros_agent.py:273-304 | blank means that only the listed white-space characters occur |

## Left out

- Reading and writing files, CSV, JSON, data frames, command-line parsing, hashing of artifacts and report layout.
- ProbabilityValidation.ReportAccepted: in exact arithmetic a tolerated sum above 1 can bring the score to at most 2 + 10^-18 (`AcceptedScoreBound`, `ScoreBoundSharp`); that is less than the spacing of double-precision numbers at 2, and whether rounding keeps such a score at 2 is not modelled.
- Floating-point rounding and the rounding of reported figures to 10 or 12 digits; where the auditor compares rounded rates, rounding is an uninterpreted function.
- The logarithm is a function of which only its sign on probabilities is used; in the calibration audit the score is the Brier score, and the auditor's scores are values of an uninterpreted function.
- Monte Carlo permutation samples and bootstrap intervals: the number of extreme draws and the interval's lower end are inputs of the gate.
- Moving averages, the volume surge and the pair correlation of the backtest are uninterpreted functions of the histories up to the signal bar; parameter validation is the subset type `Params`, and a missing flow proxy is 0.
- Backtest positions are values held in the dictionary instead of objects: the program reaches a position only through the dictionary, so no aliasing is lost. A trade keeps the whole closed position, and `entered` is a log kept for the theorem that each entry becomes one trade.
- Equity curve, drawdown and summary statistics of the backtest.
- The audit's identity and contract checks are a count of failures. A source that cannot be read or a split without integer sizes is rejected before any of the modelled checks. A round that repeats for ever is an outcome of the modelled loop, since the model itself must end.
- Rows of the calibration and of the auditor have identifiers and times as integers; the completion order sorts the rows themselves where the program sorts their indices.
- The velocity engine and the mean true range are one uninterpreted function of the rows since the last gap; the sequences handed to the later directional and logistic tests, and those tests, are not modelled.
- SHA-256 is taken to be injective: a digest is what was digested. Git, the path-scope check and the subprocess are events with arbitrary results, callers interleave at the repository look-up, the ledger and the run, and the wording of receipts after a run is not modelled. The optional missing ledger is not modelled; every caller has one.
- Ledger.AttemptsConsecutive: between a grant and its run a number is held by a caller in flight, so "consecutive" is stated of the grants, and of the runs once nobody is in flight.
- Gate.StatisticalGatesAttainable: concerns the three statistical conditions; the audit, event-count and interval conditions of the gate are independent inputs.
- Cost scenarios, commissions and spreads of the edge-cost audit, and the statistics derived from the selected events.
- The learning, research-boundary and decision-pipeline modules, drivers over native engines, dashboards, downloaders and repository hygiene scripts: they copy or check single fields, or hand their work to engines, models and services outside the repository, and no claim above rests on them.
