# A model of the trading engine's protocols and arithmetic

The engine decides trades on a PAPER account and can mirror them to a practice broker account. What is hard in it are
protocols over a durable store that several processes and a broker share, and exact price and risk arithmetic. This
project models six of those cores in Dafny and proves what they keep over every run.

Prices and money are exact reals. A durable transaction is one atomic step. Clocks, calendars, the network, and the
broker's answers are inputs that may take any value; a process may stop between any two durable steps, and where the
code goes on after a store call that failed, so does the model.

## The cores

**Submission of a run** (`PaperHistory`, `PaperSteps`, `ConflictEngine`, `ConflictOrder`, `ConflictStore`, `ConflictPath`,
`ConflictSafety`, `ConflictDeterminism`). Any number of processes claim, classify, size and save one `run_id`. The reserving save compares
the PAPER state and never re-reads the journal. It is nevertheless safe, because a claim is never superseded, a decision
is a function of candidate and PAPER state, and a PAPER state that was left never comes back; the latter is proved from
what fills, cancels, bars and closes do to the state, and `PaperSteps` shows that what the PAPER broker and the trade
manager do, each on its own view of the account, are such changes. The middle premise is not unconditional: Risk V2 reads
the drawdown basis from a context variable. `SafeExactlyWhenDeterministic` shows that the protocol is safe in every
execution exactly when Risk's answer does not depend on that basis, and `ScopedBasisIsUnsafe` gives a run in which it
does. The repository itself scopes a basis only around `prepare_reservation` (`execution/opposite_policy.py:206`), not
around this path; the run is that of a caller that wraps `submit_with_conflict_control` in the scope the module offers for
it (`execution/risk_engine_v2.py:11-12`).

**Catch-up and evidence** (`MarketEvidence`, `EvidenceLaws`, `TradeManager`, `CatchUp`, `CatchUpSafety`). The committed
stream of a symbol and timeframe, and the positions that are brought up to date with it one compare-and-swap at a time.

**The broker-demo router** (`RouterTrace`, `RouterRows`, `BrokerDemoRouter`, `LossLimitedTick`, `SubmitLatch`,
`DemoStateStore`, `OperatorRequests`, `DriftEpisodes`). A class over the durable rows, with a broker that answers anything
at each numbered operation, a store whose calls may raise, and a process that may stop before any of them. An exception
travels as in the code: the request steps and the Friday close swallow it and the tick goes on, elsewhere it ends the tick
and the caller swallows it. `RouterTrace` records what the router tells the broker and says what no run breaks; every
method of the class keeps it, and `Run` composes them into arbitrary runs with restarts. `LossLimitedTick` puts the
tracker's decision into a tick.

**The daily loss limit** (`DailyLoss`, `DailyLossRun`, `DailyLossLaws`, `DailyLossHalts`). Every flag write may fail on its
own, in-memory latches outlive failed writes, funds move in and out at any time, and a restart forgets the latches.

**The scale-out** (`PriceGrid`, `ScaleOut`, `ScaleOutRun`, `RoutedTrade`). Partial closes, breakeven and trail of a filled
pullback trade, with what the router saves of each step.

**R:R, risk and simulation** (`RrContract`, `PaperBroker`, `PortfolioRisk`, `TargetPlanner`, `FixedMultiples`, `Simulator`,
`RiskSimulator`).

## Where the code differs from what is written about it

- Scale-out: after a complete plan the same price can ask for the last stop again, because the stop is saved rounded
  half-up and the comparison uses the unrounded one (`DoneExactlyUnlessLoosened`, `OffGridRepeats`). It never happens with
  prices on the five-decimal grid (`OnGridNeverLoosens`).
- Router: a second close is never to be stacked on one that may have worked. It is when the store call that should record
  the first one fails: the manual close swallows the failure, and the loss limit's flatten of the same tick closes again,
  whether the broker took the first close or its outcome stayed unknown (`FailedRecordIsAskedAgain`,
  `LostRecordAsksAgain`). So not every repeated close follows a definite failure. `RepeatedClose` says what one can follow,
  and `MayAskAgainExactly` when a row may be asked again: it is not recorded as over, and its last action definitely
  failed, or was unknown and is settled, or was a close or cancel whose record is lost, or was another action that was taken.
- Daily loss: an active halt, latched or persisted, is documented to keep flattening when nothing can be read. It does in
  the process that latched it (`LatchedHaltAlwaysFlattens`); one that inherits it through the store never latches it, and
  its ticks that can read neither the balance nor the day's flag ask for nothing (`StoredHaltMissesABlindTick`). Entries stay refused
  either way, until an event ends the halt; one of them is a restart before the flag was ever written
  (`DrawdownHaltIsSticky`, `RestartKeepsExactly`). The day's flag is read first and its failure ends the look
  (`execution/daily_loss_limit.py:331-341`), so a tick that cannot read it misses a readable drawdown flag too.
- Daily loss: a transfer is folded exactly once, but when the NAV of that tick is not saved and the day then rolls, the
  new day opens on a NAV without it and the transfer counts as P&L (`PnlIsTradingGain`, `LostSaveHaltsWithoutALoss`). It
  never does when each tick that folds funds also saves its NAV (`NothingMissedWhenSaved`).
- Planner: directed rounding is documented as never manufacturing eligibility. It never lifts a plan over the 2R floor,
  but it can bring one under the 5R ceiling, and it can put a stop that was on the wrong side of the entry onto the right
  one (`RoundingNeverLiftsAPlan`, `RoundingCanAdmit`).
- Fixed multiples: the grid refusal is commented as one that only a non-grid multiple can cause
  (`agents/target_planner.py:273`), and a SHORT target at or below zero as refused by the geometry (`:277`). The grid check
  comes first and has no place for such a target, so it is what refuses it; the multiples in use are whole numbers, and the
  geometry and the exactness refusals never happen (`FixedPlansAreExact`, `ShortBelowZeroIsOffTheGrid`).
- Drift: a drift block whose write fails has no episode of its own and can be ended by a request made in an earlier drift
  (`RequestEndsItsOwnDrift`, `LostBlockIsEndedByAnOldRequest`).

## Model

| member | source | states |
|---|---|---|
| `ConflictOrder.ExposuresFor` | execution/conflict_engine.py:103-117 | the loop lists the open position of the symbol and then its pending orders, in the order of their ids |
| `ConflictOrder.ClassifyMeaning` | execution/conflict_engine.py:120-146 | a valid candidate continues to Risk exactly when its symbol carries no exposure; else the position, or the pending order with the smallest id, is the blocking entity |
| `ConflictOrder.IdsMakeNoDifference` | execution/conflict_engine.py:103-117 | with one exposure per symbol the random ids make no difference to the decision |
| `PaperHistory.NeverReturns` | storage/database.py:414-440 | a durable PAPER state that was left is never durable again |
| `PaperHistory.ApplyMovesForward` | storage/database.py:414-440 | every fill, drop, progress and close moves the PAPER state strictly forward or leaves it, and keeps one exposure per symbol |
| `PaperSteps.ProcessNextBarMovesForward` | execution/paper_broker.py:144-210 | whatever the broker does with an order on a bar is one such change of the durable state |
| `PaperSteps.ProcessBarMovesForward` | execution/trade_manager.py:21-84 | whatever the manager does with a position on a closed bar is at most one such change |
| `ConflictStore.ClaimIsFirst` | execution/candidate_identity.py:57-61 | a claim found in a prefix of the journal is the claim of the whole journal |
| `ConflictStore.TradingDb.AcquireClaim` | execution/candidate_identity.py:64-83 | the claim transaction: same, mismatch, unknown history, or one new claim row |
| `ConflictStore.TradingDb.CommitDecisionRow` | execution/conflict_path.py:102-119 | a decision row is written only for the claiming candidate, on an undecided run, on the PAPER state it was taken on |
| `ConflictStore.TradingDb.SavePaper` | storage/database.py:426-440 | the guarded save compares the whole PAPER state and writes order and row together or nothing |
| `ConflictStore.TradingDb.AfterDoubleStale` | execution/conflict_path.py:217-236 | a run that lost twice is noted at most once and only while undecided |
| `ConflictSafety.NothingDecidedAtSave` | execution/conflict_path.py:184-190 | a swap that succeeds finds no decisive row of the run, although it never looks |
| `ConflictSafety.SubmissionIsSafe` | execution/conflict_path.py:122-191 | for every interleaving: at most one decisive outcome per run, a RESERVED row exactly when the run's order exists, one exposure per symbol, and every returned result is what the database holds |
| `ConflictSafety.OneCandidatePerRun` | execution/conflict_path.py:137-191 | two processes that both acted under one run carried the same candidate |
| `ConflictDeterminism.SafeExactlyWhenDeterministic` | execution/risk_engine_v2.py:125-134 | every execution is safe if and only if Risk's answer does not depend on the drawdown basis in effect |
| `ConflictDeterminism.OneBasisIsSafe` | execution/risk_engine_v2.py:42-56 | evaluating every attempt under one basis is safe whatever Risk computes |
| `ConflictDeterminism.ScopedBasisIsUnsafe` | execution/risk_engine_v2.py:173-189 | with the drawdown gate as written, two bases can leave an order and a durable refusal of one run side by side |
| `ScaleOut.ManagementSteps` | execution/eurusd_pullback.py:296-338 | the single pass returns the due actions one by one, each taken as accepted |
| `ScaleOutRun.ResumesWithTheRest` | execution/eurusd_pullback.py:296-338 | after any accepted proper prefix the same price asks for exactly the remaining steps |
| `ScaleOutRun.DoneExactlyUnlessLoosened` | execution/broker_demo_router.py:1294-1304 | after the whole plan the same price asks for nothing if and only if rounding did not loosen the stop just sent |
| `ScaleOutRun.OnGridNeverLoosens` | execution/oanda_client.py:83-87 | with price, risk and limit on the grid rounding never loosens a stop |
| `ScaleOutRun.OffGridRepeats` | execution/eurusd_pullback.py:307-311 | an off-grid price for which the same stop is due again |
| `ScaleOutRun.SecondPartialAlwaysFits` | execution/eurusd_pullback.py:291-293 | in reachable states the second partial always fits, so the HALF shortcut into the trail is dead |
| `ScaleOutRun.RunKeeps` | execution/broker_demo_router.py:1197-1304 | over every run: closed plus remaining is the original, at least one unit stays, stages only advance, the stop never loosens, and from the trail on it is on the safe side of the limit |
| `ScaleOutRun.BestIsBest` | execution/eurusd_pullback.py:259-271 | the stop is the best of the settled trail stops: none is tighter and it is one of them or the first |
| `RoutedTrade.TradeRow.ApplyStep` | execution/broker_demo_router.py:1239-1304 | what each broker answer saves of a step |
| `RoutedTrade.TradeRow.Manage` | execution/broker_demo_router.py:1197-1237 | one tick is the specified transition for any answers and any stop in between |
| `RoutedTrade.Run` | execution/broker_demo_router.py:1197-1304 | a row under any ticks, releases and reconciles is the one of the specified run, so what every run keeps holds of it |
| `RoutedTrade.RouterViewAgrees` | execution/broker_demo_router.py:1239-1304 | the router's view of a step and the trade's agree on whether it is open and whether it is latched |
| `DailyLoss.TransfersSince` | execution/oanda_broker.py:791-812 | the loop adds exactly the funds moved after the cursor up to the summary's id |
| `DailyLoss.DailyLossLimit.Evaluate` | execution/daily_loss_limit.py:277-329 | one evaluation is the specified transition for every combination of failing reads and writes |
| `DailyLoss.DailyLossLimit.ApplyTransfer` | execution/daily_loss_limit.py:353-390 | cursor and adjustment move together or not at all |
| `DailyLoss.DailyLossLimit.Check` | execution/broker_demo_router.py:1577-1625 | the router folds the funds first and evaluates the same summary; unusable NAV or state refuses entries and keeps an active halt flattening |
| `DailyLoss.DailyLossLimit.ClearDrawdownHalt` | execution/daily_loss_limit.py:399-409 | the latch drops only after all three writes |
| `DailyLossRun.RunKeeps` | execution/daily_loss_limit.py:219-245 | over every run the day's, the pending and the drawdown baselines are each corrected for exactly the funds up to the cursor |
| `DailyLossRun.Replay` | execution/daily_loss_limit.py:277-419 | the tracker under any ticks, restarts and releases is the one of the specified run |
| `DailyLossLaws.PnlIsTradingGain` | execution/daily_loss_limit.py:94-110 | the judged P&L is the trading result since the observation the day was opened on plus the net funds folded between the last saved NAV and the roll that used it; it is the pure result exactly when there were none |
| `DailyLossLaws.AsideIsMoved` | execution/daily_loss_limit.py:353-390 | those funds are what moved between the cursor at the save and the cursor now, as long as no tick corrects the saved NAV |
| `DailyLossLaws.DrawdownIsTradingLoss` | execution/daily_loss_limit.py:226-229 | the judged drawdown is the trading loss since the tick that set its baseline, whatever funds moved |
| `DailyLossLaws.NothingMissedWhenSaved` | execution/daily_loss_limit.py:262-268 | no day is opened on a NAV that misses funds when every tick that folds funds saves its NAV |
| `DailyLossLaws.LostSaveHaltsWithoutALoss` | execution/daily_loss_limit.py:231-245 | a run without any trading loss that halts after a lost save and a day roll |
| `DailyLossLaws.AllowedEntryStaysWithinTheLimit` | execution/daily_loss_limit.py:101-110 | an allowed entry that loses its planned risk leaves the judged result, the trading result since the opening plus the funds it missed, within the limit; when it is allowed, and without a start-equity override, the NAV is above the drawdown floor |
| `DailyLossHalts.HaltStandsExactly` | execution/daily_loss_limit.py:277-341 | over any run with restarts a drawdown halt, in memory or stored, stands all the way if and only if no event ends it: a restart that finds no flag, or a release that removes all that remembers it |
| `DailyLossHalts.DrawdownHaltIsSticky` | execution/broker_demo_router.py:1577-1604 | until then no tick of any process allows an entry, and a tick asks to flatten exactly when it can tell: from the latches and the flags it can read, in the order it reads them, or by a verdict on the account |
| `DailyLossHalts.LatchedHaltAlwaysFlattens` | execution/daily_loss_limit.py:253-260 | in the process that latched it every tick asks to flatten, whatever fails, until restart or complete release |
| `DailyLossHalts.HaltBeginsExactly` | execution/daily_loss_limit.py:253-275 | a halt begins exactly with a tick that gets to a verdict while, by flags and account before it, the NAV is at or below 95 percent of the baseline corrected for the funds moved, or is not positive; it is latched whether or not its flag is written |
| `DailyLossHalts.RestartKeepsExactly` | execution/daily_loss_limit.py:309-311 | a halt whose flag was not written when it began survives a restart exactly when a judging tick wrote it before |
| `DailyLossHalts.StoredHaltMissesABlindTick` | execution/daily_loss_limit.py:331-341 | a run in which an inherited halt asks to flatten on one tick and not on the next, blind one |
| `DailyLossHalts.DayHaltBeginsExactly` | execution/daily_loss_limit.py:315-318 | a day's halt begins exactly with a tick that gets to a verdict while, by flags and account before it, the loss since the opening, which for a new day is the last saved NAV if fresh and positive with the funds moved, is at the limit; it is latched whether or not its flag is written |
| `DailyLossHalts.DayHaltStands` | execution/daily_loss_limit.py:231-245 | a day's halt lasts until an event ends it, and exactly the end of the day, a release, and a restart that finds no flag do |
| `DailyLossHalts.DailyHaltIsSticky` | execution/broker_demo_router.py:1577-1604 | until then no tick of any process allows an entry; with flattening on, a tick asks for it exactly when it can tell |
| `DailyLossHalts.RestartKeepsDayExactly` | execution/daily_loss_limit.py:312-313 | a day's halt whose flag was not written when it began survives a restart exactly when a judging tick wrote it before |
| `DailyLossLaws.OpeningNavIsFixed` | execution/daily_loss_limit.py:277-296 | nothing changes the opening NAV of a day once it is open |
| `MarketEvidence.Arrange` | data/market_evidence.py:211-220 | the presentation without repeats in start order; refused exactly when two bars claim one start with different values |
| `MarketEvidence.SplitClosed` | data/market_evidence.py:244-249 | the closed prefix and the rest |
| `MarketEvidence.MarketEvidenceEngine.CommitBar` | data/market_evidence.py:251-280 | one transaction: duplicate, revision, late, or a new row with its gap record |
| `MarketEvidence.MarketEvidenceEngine.Ingest` | data/market_evidence.py:207-232 | a presentation, stopped after any number of transactions, commits that prefix of its closed bars |
| `EvidenceLaws.IngestKeeps` | data/market_evidence.py:251-280 | append-only, strictly chronological, numbered 1 to n, and recorded anomalies never change |
| `EvidenceLaws.RetryIsExactlyOnce` | data/market_evidence.py:207-232 | a presentation cut anywhere and presented again leaves exactly what one presentation leaves, anomalies included |
| `EvidenceLaws.WindowExtendsExactly` | data/market_evidence.py:265-271 | a window of a history extends the committed prefix if and only if it starts inside or right after it |
| `EvidenceLaws.WindowsConverge` | data/market_evidence.py:207-288 | any overlapping windows cut anywhere commit the same stream and gap records as one uninterrupted presentation |
| `EvidenceLaws.IngestRecordsGaps` | data/market_evidence.py:272-277 | gaps are recorded exactly where rows are more than one step apart, with what is missing |
| `EvidenceLaws.GapsAddUp` | data/market_evidence.py:272-277 | on the grid the recorded intervals add up to exactly the slots without a row |
| `CatchUp.CatchUpPosition` | execution/position_catch_up.py:114-159 | one undisturbed call applies the eligible closed bars in order, and all of them unless it stops or one closes the position |
| `CatchUpSafety.ProcessBarView` | execution/trade_manager.py:21-84 | a bar changes the position of its symbol and that position's trades as specified and leaves every other symbol alone |
| `CatchUpSafety.SavesTheNextBar` | execution/position_catch_up.py:141-153 | a swap that succeeds saves exactly the next eligible bar, whichever position its call was started for |
| `CatchUpSafety.CatchUpIsExactlyOnce` | execution/position_catch_up.py:55-159 | for every interleaving of concurrent, stopping and retried calls, also ones started for earlier positions of the symbol, the durable position is one fold over a prefix of its eligible bars: none twice, none skipped, none out of order, none after the close |
| `RouterTrace.SubmittedOnce` | execution/broker_demo_router.py:787-799 | each client id is submitted at most once ever, after its durable intent |
| `RouterTrace.SubmitOnFlatSnapshot` | execution/broker_demo_router.py:530-567 | a submit happens only while the latest snapshot of the tick shows no trade of the instrument and no other open trade but those whose row was recorded closed after it |
| `RouterTrace.RepeatedOnlyWhen` | execution/broker_demo_router.py:1123-1139 | an action is followed by another for its row only if it definitely failed, or was unknown and there was evidence, a release, a stop before the record or a record that failed, or was a close or cancel the broker took and whose record was lost, or was another action the broker took |
| `RouterTrace.RepeatedClose` | execution/broker_demo_router.py:1306-1331 | a repeated close follows a definite failure, an unknown outcome that was settled, or a close that was taken and whose record failed or was overtaken by a stop |
| `RouterTrace.MayAskAgainExactly` | execution/broker_demo_router.py:1306-1354 | in every reachable state a row may be asked again if and only if it was not recorded as over since its last action and that action was one of these |
| `RouterTrace.LostRecordAsksAgain` | execution/broker_demo_router.py:1306-1331 | traces that close again with nothing but a failed record in between, after an unknown outcome and after a close the broker took |
| `BrokerDemoRouter.FailedRecordIsAskedAgain` | execution/broker_demo_router.py:1453-1513 | from any state with a requested open row, a close that is taken or stays unknown and whose record fails is repeated by the flatten of the same tick |
| `BrokerDemoRouter.BrokerDemoRouter.Close` | execution/broker_demo_router.py:1306-1331 | the row is what the answer makes of it and the broker was asked |
| `BrokerDemoRouter.BrokerDemoRouter.MoveToBreakeven` | execution/broker_demo_router.py:1333-1354 | the row is what the answer makes of it |
| `BrokerDemoRouter.BrokerDemoRouter.ApplyStep` | execution/broker_demo_router.py:1239-1304 | the row is what the answer makes of it, and the next step follows only an accepted one |
| `BrokerDemoRouter.BrokerDemoRouter.Cancel` | execution/broker_demo_router.py:984-1017 | the row is what the answer makes of it; the branch without an order id is never taken |
| `BrokerDemoRouter.BrokerDemoRouter.CloseRows` | execution/broker_demo_router.py:1627-1651 | a flatten asks the broker to close every open row that is not waiting for an outcome |
| `BrokerDemoRouter.BrokerDemoRouter.LossCheck` | execution/broker_demo_router.py:1577-1597 | a decision that does not flatten changes nothing; one that does asks for every open settled row |
| `BrokerDemoRouter.BrokerDemoRouter.Manage` | execution/broker_demo_router.py:1107-1139 | a tick that flattens and runs to its end has asked for every row that was open with nothing unknown, or has seen it end |
| `BrokerDemoRouter.BrokerDemoRouter.OnCycle` | execution/broker_demo_router.py:463-479 | the same for the pass of a cycle, whatever it routes |
| `LossLimitedTick.KnownHaltFlattens` | execution/broker_demo_router.py:1577-1604 | a drawdown halt that is latched, or stored and readable, makes the check flatten and refuse, whatever else fails |
| `LossLimitedTick.Manage` | execution/broker_demo_router.py:1107-1121 | the requests first, then the tracker's decision, then the rest under it: while a drawdown halt is known every tick that runs to its end has asked the broker to close every open settled row, or has seen it end |
| `BrokerDemoRouter.BrokerDemoRouter.ReconcileRow` | execution/broker_demo_router.py:879-982 | a live row becomes what the snapshot proves about it |
| `BrokerDemoRouter.BrokerDemoRouter.UpdateBlock` | execution/broker_demo_router.py:865-877 | drift first, lifted only on a verified match and only if that could be stored; an unknown action blocks until settled |
| `RouterRows.MatchedMeansReconciled` | execution/broker_demo_router.py:846-877 | an unmatched broker trade means blocked by drift; unblocked means every open row has its trade and no unknown action |
| `BrokerDemoRouter.BrokerDemoRouter.Reconcile` | execution/broker_demo_router.py:846-877 | every successful reconcile ends in that state |
| `RouterRows.UnblockedIsOneToOne` | execution/broker_demo_router.py:846-921 | unblocked after a reconcile, open rows and broker trades are in one-to-one correspondence, at most one of each |
| `BrokerDemoRouter.BrokerDemoRouter.CloseOpposite` | execution/broker_demo_router.py:558-573 | a reversal is flat only after a fresh read shows no live row and no trade at all |
| `BrokerDemoRouter.BrokerDemoRouter.MayEnter` | execution/broker_demo_router.py:530-554 | an entry may be sent only unblocked, with no live row, and with every trade of the latest snapshot recorded closed since |
| `BrokerDemoRouter.BrokerDemoRouter.SendOrder` | execution/broker_demo_router.py:787-844 | one intent, one submit, and the row the answer makes; nothing is sent without a stored intent, and an outcome that cannot be stored leaves the row as inserted |
| `BrokerDemoRouter.Run` | execution/broker_demo_router.py:463-479 | every run of ticks, polls, operator calls, failing store calls, stops and restarts keeps all of it; at most one row is live, and a resting limit has its order id |
| `SubmitLatch.Call` | execution/oanda_client.py:283-306 | at most 1 + max429 + max read retries requests, each but the last a 429 or, for reads, a 5xx |
| `SubmitLatch.Post` | execution/oanda_client.py:283-306 | a trading request is sent again only after a 429 |
| `SubmitLatch.OandaBroker.Submit` | execution/oanda_broker.py:360-484 | accepted means a trade exists, unknown leaves the id latched; once past the checks before the latch, which change nothing, a definite answer leaves the id unlatched and nothing that could still become a trade; an exception leaves the latch as it was |
| `SubmitLatch.Run` | execution/oanda_broker.py:360-484 | at most one trade per client id over any submits, however late the broker processes |
| `DemoStateStore.DemoStateStore.SetFlagIfAbsent` | execution/broker_demo_state.py:286-305 | a pending request is never overwritten |
| `DemoStateStore.DemoStateStore.ConsumeFlag` | execution/broker_demo_state.py:230-250 | request, completion event and alert in one step, only while the request still is the one read |
| `DemoStateStore.DemoStateStore.ClaimOutbox` | execution/broker_demo_state.py:252-275 | stale claims are given up and every pending alert becomes the caller's |
| `OperatorRequests.Run` | execution/broker_demo_state.py:230-285 | the store under any clicks, completions, claims, deliveries and stops holds what the specified run says |
| `OperatorRequests.RequestsAlternate` | execution/broker_demo_router.py:1453-1513 | requests and completions alternate, each completion is of the request before it, and the stored request is the open one |
| `OperatorRequests.NeverDeliveredTwice` | execution/broker_demo_router.py:408-440 | no alert leaves twice, and only for a completion on record |
| `DriftEpisodes.RequestEndsItsOwnDrift` | execution/broker_demo_router.py:1028-1064 | a request ends the drift it was made in if and only if that drift's block was stored; no episode ends two drifts |
| `DriftEpisodes.StoredBlocksAreNeverConfused` | execution/operator_actions.py:108-126 | while every block is stored a request only ends the drift it was made in |
| `DriftEpisodes.LostBlockIsEndedByAnOldRequest` | execution/broker_demo_router.py:449-454 | a run in which a block whose write failed is ended by an older request |
| `RrContract.FillRrIsFillRisk` | core/risk_policy.py:14-22 | with levels frozen and the plan exactly P, the fill's R:R reaches F if and only if its risk is at most planned risk times (1+P)/(1+F) |
| `PaperBroker.PaperBroker.ProcessNextBar` | execution/paper_broker.py:144-210 | one bar fills, rejects or cancels exactly as the order's own gate says and changes nothing else |
| `PortfolioRisk.MoneyGateNeverRejects` | execution/paper_broker.py:120-142 | the fixed-3R money gate cannot reject what the R:R gate passed |
| `PortfolioRisk.FillWithinReservation` | execution/paper_broker.py:93-142 | a permitted fill risks at most what its pending order had reserved |
| `PortfolioRisk.ProcessingNeverGrows` | execution/paper_broker.py:144-210 | neither fill nor rejection nor cancellation of an order admitted as planned makes the potential grow, whatever other orders are pending |
| `PortfolioRisk.AdmissionWithinLimit` | execution/risk_engine_v2.py:190-247 | an admission is within the per-trade ceiling and brings the potential to at most the aggregate limit |
| `PortfolioRisk.PotentialStaysWithinLimit` | execution/risk_engine_v2.py:125-252 | in every run the potential stays within the limit of the latest admission |
| `TargetPlanner.RoundingOnlyLowers` | agents/target_planner.py:163-166 | directed rounding of entry, stop and target never raises the R:R, for both sides |
| `TargetPlanner.RoundingNeverLiftsAPlan` | agents/target_planner.py:163-183 | a rounded plan within the policy was at least 2R before, and within the policy exactly when its raw stop was protective and its raw R:R at most 5 |
| `TargetPlanner.RoundingCanAdmit` | agents/target_planner.py:15-18 | two plans outside the policy that rounding brings inside |
| `TargetPlanner.PlanPolicyD` | agents/target_planner.py:83-196 | the outcome is decided by an eligible obstacle with none nearer; no evidence exactly when no timeframe is trusted, no target exactly when one is but no level is eligible |
| `FixedMultiples.FixedPlansAreExact` | agents/target_planner.py:229-291 | a plan whose stop is accepted is exactly its multiple and on the grid, for FX 25 and 50 pips, or refused as off the grid; the latter if and only if it is a SHORT whose multiple of the risk reaches the entry (FX: an entry of at most 50 pips); the geometry and exactness refusals never happen |
| `FixedMultiples.ShortBelowZeroIsOffTheGrid` | agents/target_planner.py:270-277 | a SHORT from 100 with its stop at 140 is refused as off the grid |
| `FixedMultiples.LimitIsExact` | execution/eurusd_pullback.py:176-201 | a pullback limit is exactly 25 pips from its stop and 50 from its target whatever the structure, or refused only because the far side would not be positive |
| `Simulator.Simulate` | simulador.py:62-150 | the loop computes the run in which bar i sees the signal of bar i - 1 |
| `Simulator.PrefixIsPrefix` | simulador.py:62-150 | no look-ahead: a prefix of the history gives the prefix of the curve and exactly the trades closed by then |
| `Simulator.TradesInOrder` | simulador.py:87-147 | trades never overlap and each lasts the configured bars |
| `Simulator.CapitalIsConserved` | simulador.py:113-147 | realised capital is initial capital plus net results |
| `RiskSimulator.SimulateWithRisk` | simulador.py:153-307 | the loop computes the specified run |
| `RiskSimulator.SizeWithin` | riesgo.py:44-87 | a sized plan puts at most the configured share of the capital at risk between entry and stop |
| `RiskSimulator.PrefixIsPrefix` | simulador.py:153-307 | no look-ahead |
| `RiskSimulator.TradesInOrder` | simulador.py:180-296 | trades never overlap and leave a bar between them |
| `RiskSimulator.CapitalIsConserved` | simulador.py:262-296 | realised capital is initial capital plus net results |
| `RiskSimulator.StopLossIsBounded` | simulador.py:236-275 | a stop that is not jumped by a gap loses, before cost, at most the configured share of the capital before the trade |

## Left out

- Submission: candidate validation, slot ownership, account ids and the `RISK_V2_DECISION` evidence rows; a fingerprint is
  modelled by the fields it hashes, so collisions do not exist; an order is identified by its place in the table instead
  of a random id, which makes no difference to its decisions (`IdsMakeNoDifference`); the two reads of the final
  reconciliation are one step; reservations made outside this path are not part of the interleavings.
- ConflictSafety.SubmissionIsSafe: proved for a Risk whose answer does not depend on the drawdown basis, which is exactly
  when it holds.
- Catch-up: the route over an observed snapshot instead of committed evidence, the halt gate, and the observer. A new
  position of a symbol opens at or after the last bar saved for the one before it.
- Pending-order gate (`execution/pending_order_gate.py`): its journal rows and the choice of the current cycle's bar.
- Evidence: symbols that are not enabled, price validation, and frames; a digest is taken as collision free.
- Router: dry-run, the emergency close that deliberately ignores the latch, event and alert text, quotes and fill checks,
  sizing, and the candidate checks, which are inputs that may take any value. The reads of one reconcile are one snapshot;
  store reads with nothing between them are one call.
- SubmitLatch.Run: market orders only; a limit order that rests is known and its id is released, so a second submit of the
  same id in the same process would be sent. It covers one process, as the latch lives in memory.
- DailyLossLaws.PnlIsTradingGain: for summaries that carry a transaction id; transfers entered by hand are not part of it.
- Daily loss: unparsable flag text, other than as a failed read; event and alert text.
- Scale-out: a stop or a failed write between a partial close and the store update its answer calls for, and the
  whole-trade close of the week rule.
- PortfolioRisk.ProcessingNeverGrows: for a processed order stamped with a registered policy and planned at exactly its
  multiple, which is what every admission produces; the first version's unstamped orders have no reservation to compare
  their fill with.
- PortfolioRisk.AdmissionWithinLimit: the declared R:R of a plan and the journal record are not modelled; the drawdown gate
  is an input.
- Planner: reading levels out of analysis records, timestamps other than as numbers, and the audit record of a decision.
- RiskSimulator.CapitalIsConserved: the mark-to-market curve of a short position uses the long formula in the code and the
  model; only realised results are claimed.
- RiskSimulator.TradesInOrder: decisions that arrive with an event are marked as not sized by the simulator; nothing is
  claimed about their risk.
- Providers, agents, dashboards, HTTP, JSON, logging, configuration parsing and calendars.
