# Verified model of the paper-trading platform

This project models the behaviour of the quantum_trader platform in Dafny and proves what its design promises: that
a paper order is sent at most once through any crash, that its durable journal agrees with the broker, that fills are
ingested exactly once, that the operator's pause switch cannot be bypassed or replayed, and that the simulated
accounting, the risk limits and the walk-forward evaluation hold over every run. `dafny verify dfyconfig.toml` checks
everything.

How the parts fit together:

- `Prelude`, `Sums`, `Brokerage` hold the shared datatypes, counting and sums, and the broker's snapshots.
- `BrokerJournal` and `OperatorControl` are the two durable stores: functions that say what each transaction does to the
  tables, lemmas about them, and the store classes, whose methods are proved to do exactly that.
- `MarketControls` and `Reconciliation` are the pre-trade controls and the reconciler, loops included.
- `PaperProtocol` is the submission protocol as a state machine. One step is one store transaction, one broker call, one
  operator or broker event, or a crash that forgets the program counter. `PaperSafety` holds the invariant,
  `PaperGuarantees`, `PaperRecovery` and `PaperRates` the theorems over runs. `OverlappingReconciliations` is a second, smaller
  machine in which any number of reconciliations read and commit at once.
- `PaperExecutor` is the executor on the real journal, operator store and reconciler. A ghost machine takes the protocol's
  step beside each of its own, so its calls are runs of the protocol and inherit the theorems.
- `OperatorActions` is resuming and cancelling on the same objects.
- `Portfolio`, `Reporting`, `Risk`, `SimulatedBroker` and `Engine` are the simulation: mutable classes proved against
  functions, and theorems over every fill history and every run of bars. `ExecutionBounds` compares the broker's rounded fills
  with the bound the risk limits are sized by.
- `RateLimits` is the request budget. `MovingAverage` is the strategy. `WalkForward` is the fold loop over any backtest, and
  `Backtest` is the backtest it is used with: an engine run of that strategy over a slice, and the metrics of the run.

Assumptions the protocol theorems rest on, all from the port contracts or the way the program is used: one live executor
at a time works on a journal (pauses, resumes, crashes and the broker are concurrent); status 400, 403 and 422 mean that
no order was or will be created (`src/quantum_trader/ports/external_broker.py:25-30`); nobody else uses client ids with
the strategy's prefix; a lookup finds an order exactly when the broker shows it; fill activities are only appended, with
ids of their own; a store transaction commits whole or not at all.

Where the code and its documentation disagree, the model follows the code:

- `Portfolio.apply_fill` is documented as atomic, but a sell whose fee exceeds cash plus proceeds is booked before it is
  refused (`Portfolio.RejectedYetAppliedExactly`).
- The risk bound adds slippage and buffer while a fill multiplies them, and a fill rounds its price and fee, so the buffer does
  not cover every gap it names (`ExecutionBounds.FillsStayWithinBoundExactly`, with `ExecutionBounds.RoundingExceedsTheBound` for
  an order without any gap; before rounding, `Risk.UnroundedBoundCoversExactly`).
- A fill within the bound can still halt a run, through the position limit or the reserve
  (`Risk.ApprovedBuyNeverHaltsExactly`).
- The protocol loader accepts windows and grids that can never be evaluated: with one validation bar no trial has an annualized
  turnover and selecting among eligible trials raises (`Backtest.OneValidationBarRaises`), and every trial of a grid candidate
  that the configuration refuses raises (`Backtest.GridAdmitsRaisingCandidate`).
- The journal documents validated transitions, but reconciliation moves a submission to RECONCILED from any state but
  REJECTED, and with an unchecked timestamp (`BrokerJournal.ResolveOnlySettles`, `BrokerJournal.SettledIsReadableExactly`).
- The reconciler has an issue for a repeated broker position, but such a listing always makes the commit fail instead
  (`Reconciliation.StoredSymbolsAreDistinct`).

## Model

| member | source | states |
|---|---|---|
| PaperSafety.EveryRunIsSafe | src/quantum_trader/application/paper_execution.py:94-294 | every state that any run can reach, with a crash, pause, resume, broker event or failing call before any step, satisfies one invariant over both stores, the broker and the program counter |
| PaperSafety.StepKeepsSafe | src/quantum_trader/application/paper_execution.py:94-294 | one step of anybody, the executor, the operator, the broker or a crash, keeps that invariant |
| PaperSafety.PostingIsSafe | src/quantum_trader/adapters/alpaca_paper.py:336-384 | at the one step that sends a request its client id has never been sent before, and the invariant survives the request being in flight |
| PaperSafety.RecordingPauseIsSafe | src/quantum_trader/application/paper_execution.py:142-164 | rejecting a submission because of a late pause is truthful: nothing was ever sent for it |
| PaperSafety.RecordingRejectionIsSafe | src/quantum_trader/application/paper_execution.py:184-192 | a submission is recorded as rejected by the broker only when no order exists or can still come into being |
| PaperSafety.AcknowledgingIsSafe | src/quantum_trader/application/paper_execution.py:166-183 | an acknowledgement stores the id of the order the broker holds |
| PaperSafety.RecoverWriteIsSafe | src/quantum_trader/application/paper_execution.py:257-281 | what recovery writes agrees with the broker: never-started means never sent, and a found order's id is the broker's |
| PaperSafety.BrokerMoves | src/quantum_trader/ports/external_broker.py:25-30 | whatever the broker does alone (accept, drop, show, fill, foreign orders) keeps the world well formed and only moves it forward |
| PaperSafety.ResolvedTruthfully | src/quantum_trader/adapters/sqlite_broker_journal.py:429-460 | a reconciliation whose lookups were truthful gives every submission it settles the broker's own id and leaves the others alone |
| PaperSafety.CommitKeepsIngested | src/quantum_trader/adapters/sqlite_broker_journal.py:384-473 | a commit of what was read after the checkpoint never conflicts with stored fills and leaves exactly the stream prefix that was read, with the checkpoint at its end |
| PaperGuarantees.AtMostOnePost | src/quantum_trader/application/paper_execution.py:110-171 | in every run each client order id causes at most one POST, and only after it was durably recorded |
| PaperGuarantees.OnlyExecutionPosts | src/quantum_trader/adapters/alpaca_paper.py:352-361 | a request leaves the program at one step only, inside an execution, for that execution's own id |
| PaperGuarantees.NoExecutionNoPost | src/quantum_trader/application/paper_execution.py:231-294 | recoveries, reconciliations, crashes and operator or broker events send nothing, in any number and order |
| PaperGuarantees.JournalAgreesWithBroker | src/quantum_trader/application/paper_execution.py:142-202 | in every reachable state REJECTED means no order and none in flight, ACKNOWLEDGED and RECONCILED name the broker's own order, every own broker order is durably known, and at most one submission is unresolved |
| PaperGuarantees.FillsAreTheStreamPrefix | src/quantum_trader/application/reconciliation.py:313-333 | across any reconciliations and crashes the stored fills are exactly the broker's stream up to the checkpoint, owners aside |
| PaperGuarantees.CommitReachesWhatWasRead | src/quantum_trader/adapters/sqlite_broker_journal.py:461-473 | a commit that changes the journal moves the checkpoint to the end of what was read |
| OverlappingReconciliations.EveryRunIsConsistent | src/quantum_trader/application/reconciliation.py:295-333 | however reconciliations overlap, fail or are abandoned, the stored fills are a prefix of the broker's stream that reaches at least the checkpoint and every token a reader started from |
| OverlappingReconciliations.NothingStoredIsLost | src/quantum_trader/adapters/sqlite_broker_journal.py:384-428 | over every such run the stored prefix never gets shorter and no stored fill changes but for an owner added once |
| OverlappingReconciliations.CommitReachesItsRead | src/quantum_trader/adapters/sqlite_broker_journal.py:461-473 | a commit stores everything it read and puts the checkpoint at the end of its own read, whatever overlapped it |
| OverlappingReconciliations.OnlyLostOwnersConflict | src/quantum_trader/adapters/sqlite_broker_journal.py:387-408 | a commit conflicts with stored fills if and only if it read one of them back with its owner missing or different |
| OverlappingReconciliations.StoringOverlap | src/quantum_trader/adapters/sqlite_broker_journal.py:384-428 | storing a read that starts anywhere inside the stored prefix leaves the longer of the two prefixes, and succeeds under exactly that condition |
| OverlappingReconciliations.CheckpointMovesBack | src/quantum_trader/adapters/sqlite_broker_journal.py:461-473 | two overlapping reconciliations after which the checkpoint is behind the stored fills |
| PaperGuarantees.StepAdvances | src/quantum_trader/adapters/sqlite_broker_journal.py:221-280 | no step of the machine takes a submission back: its rank only rises, a reconciled broker id stays, content and creation time never change |
| PaperGuarantees.ChangesAreBounded | src/quantum_trader/adapters/sqlite_broker_journal.py:29-42 | over any run the rank a submission ends at is at least the rank it had plus the number of its state changes |
| PaperGuarantees.SubmissionsSettle | src/quantum_trader/adapters/sqlite_broker_journal.py:28-42 | each submission changes state at most three times; REJECTED and RECONCILED never change again, and RECONCILED keeps its broker id |
| PaperGuarantees.DoubtEndsPaused | src/quantum_trader/application/paper_execution.py:184-222 | an execution that ends ambiguous or rejected by the broker ends with the operator store paused |
| PaperGuarantees.NothingSentWhilePaused | src/quantum_trader/application/paper_execution.py:133-164 | once the operator store is paused and the executor is not between its last look at the switch and the request, nothing is sent until somebody resumes, whatever is called, crashes or answered |
| PaperGuarantees.NothingSentBeforeResume | src/quantum_trader/adapters/sqlite_operator_control.py:91-105 | a new store starts paused, so no run sends anything before its first resume |
| PaperRecovery.RecoverySettles | src/quantum_trader/application/paper_execution.py:231-294 | from wherever a run crashed, a recovery of a readable, matching submission whose order the broker shows, interleaved with any broker and operator events but a resume, has ended RECONCILED, readable and paused whenever it has ended, and has sent nothing |
| PaperRecovery.RecoveryFinishesWith | src/quantum_trader/application/paper_execution.py:231-294 | such a recovery can always be finished, in at most nine steps, with any order and position listing that the journal can take |
| PaperRecovery.RecoveryCanFinish | src/quantum_trader/application/paper_execution.py:231-294 | in particular while committing the recovered order itself, as a reconciliation does |
| PaperRecovery.EarlyRecoveryNeverCompletes | src/quantum_trader/application/paper_execution.py:275-294 | the condition on time is exact: a recovery timed before the creation of an unresolved submission never completes, whatever is answered |
| PaperRecovery.CommitSucceeds | src/quantum_trader/adapters/sqlite_broker_journal.py:429-473 | in a reachable state a recovery's commit cannot fail on fills, checkpoint, broker ids or resolutions, only on the order and position projections |
| PaperRates.DurableRateBound | src/quantum_trader/domain/market_controls.py:378-393 | with caller timestamps that never decrease, every closed window of the configured length and every session holds at most its limit of durable submissions, across crashes and rejections |
| PaperRates.DecisionAdmits | src/quantum_trader/application/paper_controls.py:126-143 | an order the controls let pass was counted against exactly the submissions the journal holds |
| PaperExecutor.PaperOrderExecutor.ExecuteOnce | src/quantum_trader/application/paper_execution.py:94-229 | a call on the real objects, with others acting before every step, is a run of the protocol; in doubt it ends paused, completed means durably RECONCILED |
| PaperExecutor.PaperOrderExecutor.RecoverSubmission | src/quantum_trader/application/paper_execution.py:231-294 | a recovery call on the real objects is a run of the protocol, sends nothing, and completed means durably RECONCILED |
| PaperExecutor.PaperOrderExecutor.SubmitOnce | src/quantum_trader/adapters/alpaca_paper.py:336-384 | the lookup, the single request and the lookup after a failure end at exactly the acknowledgement, rejection or doubt the protocol allows |
| PaperExecutor.PaperOrderExecutor.RecordAmbiguous | src/quantum_trader/application/paper_execution.py:300-309 | doubt is recorded if the journal allows it and the store is paused in either case |
| PaperExecutor.PaperOrderExecutor.RequireReconciled | src/quantum_trader/application/paper_execution.py:212-229 | a submission completes only on a durable RECONCILED row |
| PaperExecutor.PaperOrderExecutor.PauseGate | src/quantum_trader/application/paper_execution.py:142-164 | each of the two looks at the pause switch between recording and sending stops a paused submission |
| PaperExecutor.ReadsMatch | src/quantum_trader/application/reconciliation.py:164-268 | what the reconciler read and committed is what the protocol's reading steps read, for a broker that shows what it holds |
| BrokerJournal.SQLiteBrokerJournal.PersistApprovedOrder | src/quantum_trader/adapters/sqlite_broker_journal.py:151-219 | first content is appended with the next sequence, the same content again returns its row, other content is refused and changes nothing |
| BrokerJournal.SQLiteBrokerJournal.TransitionSubmission | src/quantum_trader/adapters/sqlite_broker_journal.py:221-280 | the whole outcome of a transition, all refusals included; a refusal leaves the tables alone |
| BrokerJournal.SQLiteBrokerJournal.UnresolvedSubmissions | src/quantum_trader/adapters/sqlite_broker_journal.py:282-295 | exactly the non-terminal rows in sequence order, failing exactly when one of them cannot be read back |
| BrokerJournal.SQLiteBrokerJournal.SubmissionTimestamps | src/quantum_trader/adapters/sqlite_broker_journal.py:313-316 | the creation times of all submissions, rejected ones too, in sequence order |
| BrokerJournal.SQLiteBrokerJournal.ApplyReconciliation | src/quantum_trader/adapters/sqlite_broker_journal.py:318-495 | orders, positions, fills, resolutions, checkpoint and report are written together or not at all |
| BrokerJournal.ResolveOnlySettles | src/quantum_trader/adapters/sqlite_broker_journal.py:429-460 | resolutions touch a submission only by making it RECONCILED, never a rejected one, never the broker id of a reconciled one, and keep broker ids unique |
| BrokerJournal.SettledIsReadableExactly | src/quantum_trader/adapters/sqlite_broker_journal.py:448-460 | a settled submission can be read back if and only if the reconciliation was not timed before its creation, because the timestamp is written unchecked |
| BrokerJournal.StoredIsMerged | src/quantum_trader/adapters/sqlite_broker_journal.py:384-428 | whenever storing fills succeeds, the stored table is the last-wins merge that the reconciler computed in memory |
| BrokerJournal.StoredFillsAreKept | src/quantum_trader/adapters/sqlite_broker_journal.py:628-641 | no stored fill is lost or altered; an owner is added at most once, and activity ids stay unique |
| BrokerJournal.ApplyKeepsOk | src/quantum_trader/adapters/sqlite_broker_journal.py:318-495 | a committed reconciliation keeps the table invariants, only settles submissions and only adds owners to fills |
| BrokerJournal.TransitionKeepsOk | src/quantum_trader/adapters/sqlite_broker_journal.py:221-280 | a transition keeps sequences, keys and the unique broker-id index |
| BrokerJournal.TransitionAdvances | src/quantum_trader/adapters/sqlite_broker_journal.py:29-42 | every transition the table allows raises the rank, and keeps content and creation time |
| BrokerJournal.ApplyAdvances | src/quantum_trader/adapters/sqlite_broker_journal.py:429-460 | reconciliation bypasses the transition table and still only raises the rank |
| BrokerJournal.PersistIsIdempotent | src/quantum_trader/adapters/sqlite_broker_journal.py:171-184 | persisting the same approved content again, at any time, finds the first row and changes nothing |
| Reconciliation.ReadAllFillPages | src/quantum_trader/application/reconciliation.py:313-333 | over a stream that grows while it is read, paging returns the whole stream after the checkpoint as of the last page; it succeeds exactly when some page within the limit is not full, and never reports a stall |
| Reconciliation.FrozenStreamNeedsExactly | src/quantum_trader/adapters/alpaca_paper.py:447-448 | on a quiet stream paging succeeds if and only if floor(remaining / page_size) + 1 is at most maximum_pages |
| Reconciliation.PageContinues | src/quantum_trader/adapters/alpaca_paper.py:417-453 | a page continues where the last one ended, and only a full one leads on, to a token never seen before |
| Reconciliation.ProjectOwnedPositions | src/quantum_trader/application/reconciliation.py:336-362 | the projection is, for every symbol, the signed sum of the owned fills, whatever their order, and complains exactly about owned fills nobody recorded |
| Reconciliation.PositionMap | src/quantum_trader/application/reconciliation.py:365-383 | the broker's net quantity for every symbol, and an issue exactly when a symbol is repeated |
| Reconciliation.ComparePositions | src/quantum_trader/application/reconciliation.py:386-403 | no mismatch is reported if and only if both sides agree on every symbol |
| Reconciliation.StoredSymbolsAreDistinct | src/quantum_trader/adapters/sqlite_broker_journal.py:374-383 | the positions table accepts a listing if and only if no symbol repeats, so the duplicate issue is never part of a returned report |
| Reconciliation.LookUpUnresolved | src/quantum_trader/application/reconciliation.py:172-186 | one resolution per unresolved submission the broker knows, one issue per unknown one |
| Reconciliation.CheckOpenOrders | src/quantum_trader/application/reconciliation.py:188-225 | no issue if and only if every open order is owned, durably known and of known status |
| Reconciliation.NormalizeActivities | src/quantum_trader/application/reconciliation.py:227-252 | fills keep everything but a missing owner, which is added from the order cache or a lookup and is the true owner if the broker names its orders consistently |
| Reconciliation.StoringExtendsPrefix | src/quantum_trader/adapters/sqlite_broker_journal.py:384-428 | new activities never conflict with a stored stream prefix and extend it to the whole stream |
| Reconciliation.ReconcileCatchesUp | src/quantum_trader/application/reconciliation.py:227-308 | a reconciliation that commits leaves the stored fills equal to the broker's stream at its last read |
| Reconciliation.AllFoundSettlesAll | src/quantum_trader/application/reconciliation.py:172-186 | when the broker knows every unresolved submission, the commit leaves none unresolved |
| Reconciliation.PaperReconciler.Reconcile | src/quantum_trader/application/reconciliation.py:152-311 | it raises before its commit and changes nothing, or commits and returns: expected positions are those of the committed fills, the report is ready if and only if reads, owners, positions and account are clean, and ready means nothing is left unresolved |
| MarketControls.EvaluatePaperPretrade | src/quantum_trader/domain/market_controls.py:250-406 | an order is allowed if and only if no control is violated; the reasons are exactly the violated controls, each once, with the amounts they compare |
| MarketControls.OpenOrderCommitment | src/quantum_trader/domain/market_controls.py:409-431 | the cash that open owned buys may still take, the number of open owned orders, and exactly which complaints they raise |
| MarketControls.PositionExposure | src/quantum_trader/domain/market_controls.py:434-449 | gross and per-symbol value and quantity of the positions, and whether one is negative |
| MarketControls.MoneyControlsAreExact | src/quantum_trader/domain/market_controls.py:336-376 | a buy passes the three money controls if and only if no partial fills of it and of the open buys, at or below their reserved prices, can break reserve, exposure or buying power |
| MarketControls.AllowedBuyIsWorstCaseSafe | src/quantum_trader/domain/market_controls.py:319-376 | an allowed buy is a limit order with no foreign order beside it, and stays safe however it and the open owned buys fill at or below their limits |
| MarketControls.OutcomesWithinCommitment | src/quantum_trader/domain/market_controls.py:409-431 | no outcome of the open orders costs, or is worth, more than what was committed for them |
| MarketControls.WorstIsCommitment | src/quantum_trader/domain/market_controls.py:409-431 | the commitment is reached: filling everything at its limit costs exactly that |
| OperatorControl.InvariantOverEveryHistory | src/quantum_trader/adapters/sqlite_operator_control.py:91-306 | over every history the store starts paused, runs at most one action and only while paused, and each unpaused row carries its own completed resume approval |
| OperatorControl.PauseBetweenResumes | src/quantum_trader/adapters/sqlite_operator_control.py:154-212 | between any two unpaused rows lies a paused one, and their approvals differ |
| OperatorControl.ApprovalsAreOneUse | src/quantum_trader/adapters/sqlite_operator_control.py:327-337 | over every history an approval was used once if it is on record and never otherwise |
| OperatorControl.OnlyResumeUnpauses | src/quantum_trader/adapters/sqlite_operator_control.py:163-212 | a paused store is unpaused if and only if the call is a resume with a valid, unused approval and no action running |
| OperatorControl.FinishedIsFinal | src/quantum_trader/adapters/sqlite_operator_control.py:263-306 | no later call changes the record of a finished action |
| OperatorControl.CompletionIsDurable | src/quantum_trader/adapters/sqlite_operator_control.py:285-306 | completing a running action is durable, and raises if and only if it is timed before the start of the action |
| OperatorControl.RunsUntilCompleted | src/quantum_trader/adapters/sqlite_operator_control.py:214-306 | over every history an action is in progress if and only if a call began it and no later call completed it, so a crash in between leaves it in progress until it is completed |
| OperatorControl.StuckWhileRunning | src/quantum_trader/adapters/sqlite_operator_control.py:163-261 | until then the store is paused, nothing else runs, every resume and every other action is refused, and completing it frees the store |
| OperatorControl.SQLiteOperatorControl.Resume | src/quantum_trader/adapters/sqlite_operator_control.py:154-212 | approval, unused id, paused store and no running action are checked in that order; success records the approval and the unpaused row together |
| OperatorControl.SQLiteOperatorControl.BeginAction | src/quantum_trader/adapters/sqlite_operator_control.py:214-261 | an action begins only with a valid unused approval, while paused, with no other action running |
| OperatorControl.SQLiteOperatorControl.CompleteAction | src/quantum_trader/adapters/sqlite_operator_control.py:263-306 | only a running action is finished, once, and the update is committed before the record is read back |
| OperatorControl.SQLiteOperatorControl.Pause | src/quantum_trader/adapters/sqlite_operator_control.py:116-152 | a pause appends a paused row whatever the state was |
| OperatorActions.PaperOperatorActions.ResumePaperAssessments | src/quantum_trader/application/operator_actions.py:71-103 | success means the journal has nothing unresolved and its fills account for exactly the broker's positions; failure leaves the operator store as it was |
| OperatorActions.PaperOperatorActions.CancelOwnedOrders | src/quantum_trader/application/operator_actions.py:105-209 | every exit leaves the store paused and a begun action finished, only own orders are targeted, and success means no own order in the second listing |
| OperatorActions.RunningActionBlocksResume | src/quantum_trader/adapters/sqlite_operator_control.py:175-178 | while an action runs nobody can resume |
| Portfolio.Portfolio.ApplyFill | src/quantum_trader/domain/portfolio.py:37-62 | a fill changes cash, position, realized profit and fees exactly as the specification says, including on the path that raises afterwards |
| Portfolio.ApplyConserves | src/quantum_trader/domain/portfolio.py:37-62 | a fill keeps cash plus cost basis equal to initial cash plus realized profit less fees, and positions never short |
| Portfolio.AcceptedExactly | src/quantum_trader/domain/portfolio.py:43-62 | a buy is accepted if and only if cash covers it, a sell if and only if the shares are held and the fee is covered by cash and proceeds |
| Portfolio.RejectedYetAppliedExactly | src/quantum_trader/domain/portfolio.py:52-62 | the promised atomicity fails if and only if a covered sell has a fee above cash plus proceeds: the fill is booked and then refused |
| Portfolio.AtomicityCounterexample | src/quantum_trader/domain/portfolio.py:52-62 | one such sell, with the state it leaves behind |
| Portfolio.ConservationOverEveryHistory | src/quantum_trader/domain/portfolio.py:37-62 | conservation over every fill history, rejected fills included; cash is nonnegative while fills are accepted |
| Portfolio.EquityIdentity | src/quantum_trader/domain/portfolio.py:64-85 | every equity point equals initial cash plus realized plus unrealized profit less fees |
| Portfolio.Portfolio.MarkToMarket | src/quantum_trader/domain/portfolio.py:64-85 | the snapshot of the one held symbol, or an error exactly when another symbol is held |
| Portfolio.FloorDivideBounds | src/quantum_trader/domain/portfolio.py:93-94 | the share count is the largest whole number whose value still fits |
| Reporting.RoundTripTrades | src/quantum_trader/application/reporting.py:324-385 | flat-to-flat grouping of a whole fill history, with the very error a rejected history raises |
| Reporting.TripsAlwaysBalance | src/quantum_trader/application/reporting.py:356-357 | an open trip holds what it entered less what it exited, so the check that a closing trip's quantities agree never fails |
| Reporting.AccountsAgree | src/quantum_trader/application/reporting.py:324-385 | on every history the portfolio accepted, grouping never raises, its open trips are the held symbols and its profit matches the portfolio's, symbol by symbol |
| Reporting.ReportMatchesPortfolio | src/quantum_trader/application/reporting.py:324-385 | completed gross profit plus the open trips' share is the realized profit, and the open count is the number of held symbols |
| Reporting.FlatNetIsCashChange | src/quantum_trader/application/reporting.py:324-385 | when everything is flat the net profit of all trips is the change in cash |
| Reporting.ExitDiagnosticMatchesPortfolio | src/quantum_trader/application/reporting.py:129 | the exit diagnostic of a single-symbol history is the realized profit less the fees paid on exits |
| Reporting.MaximumDrawdown | src/quantum_trader/application/reporting.py:119-125 | the loop computes the one-pass scan |
| Reporting.ScanBoundsEveryPair | src/quantum_trader/application/reporting.py:119-125 | no earlier-to-later pair of a nonnegative curve is deeper than the scan's result |
| Reporting.ScanIsReached | src/quantum_trader/application/reporting.py:119-125 | the result is zero or is reached by some earlier-to-later pair |
| Risk.SizingGuarantees | src/quantum_trader/domain/risk.py:128-150 | every approved quantity fits order limit, spendable cash and position limit at the conservative price with declared fees |
| Risk.ApprovedBuyIsAccepted | src/quantum_trader/domain/risk.py:128-193 | an approved buy that executes within the bound is accepted by the portfolio and keeps the order commitment |
| Risk.ApprovedBuyFromFlatKeepsReserve | src/quantum_trader/domain/risk.py:80-98 | bought into a flat portfolio, such a fill never trips the reserve halt |
| Risk.ApprovedBuyWithoutFeesKeepsPosition | src/quantum_trader/domain/risk.py:80-98 | without fees such a fill never trips the position halt, whatever was held |
| Risk.PositionSafeExactly | src/quantum_trader/domain/risk.py:87-95 | with fees, every fill within the bound keeps the position limit if and only if the worst one does |
| Risk.FeeTripsPositionLimit | src/quantum_trader/domain/risk.py:87-95 | an approved buy whose fee trips the position halt although it fills within the bound |
| Risk.ReserveSafeExactly | src/quantum_trader/domain/risk.py:96-98 | whatever was held, every fill within the bound keeps the cash reserve if and only if the worst one does |
| Risk.FillWithinBoundBreaksReserve | src/quantum_trader/domain/risk.py:96-98 | an approved buy that fills at its bound, keeps the position limit and breaks the reserve |
| Risk.ApprovedBuyNeverHaltsExactly | src/quantum_trader/domain/risk.py:80-98 | no fill of an approved buy within the bound halts the run if and only if its worst fill keeps both the position limit and the reserve |
| Risk.UnroundedBoundCoversExactly | src/quantum_trader/domain/risk.py:180-182 | for prices before rounding: the bound covers every open up to the buffered reference price if and only if slippage or buffer is zero |
| ExecutionBounds.RoundedPriceCoveredExactly | src/quantum_trader/adapters/simulated_broker.py:77-84 | the broker's rounded price is within the bound for every open up to the buffered reference price if and only if it is for the highest one |
| ExecutionBounds.FillsStayWithinBoundExactly | src/quantum_trader/adapters/simulated_broker.py:77-87 | every fill the broker makes of a buy up to that open is within the bound, price and fee as rounded, if and only if the highest price and the rounded fee are |
| ExecutionBounds.RoundingExceedsTheBound | src/quantum_trader/adapters/simulated_broker.py:84 | without buffer or gap, a fill at 1.235918 against a bound of 1.23591765 |
| ExecutionBounds.RoundingExceedsTheFee | src/quantum_trader/adapters/simulated_broker.py:85-87 | a declared fee of 0.0000006 is charged as 0.000001 |
| ExecutionBounds.ApprovedBuyIsSafeBeforehand | src/quantum_trader/domain/risk.py:80-98 | four comparisons known before the order is sent suffice for an approved buy to be filled within the bound, accepted, and not to cause a post-fill halt |
| ExecutionBounds.FillsGoThroughExactly | src/quantum_trader/domain/risk.py:80-98 | for any buy, every fill the broker makes up to the buffered open is accepted and causes no post-fill halt if and only if the fill at the highest price with the rounded fee is paid for and keeps the order, position and reserve limits |
| Risk.RiskManager.Evaluate | src/quantum_trader/domain/risk.py:100-178 | one decision and the whole new breaker state: duplicates, exits, halts and sizing |
| Risk.RiskManager.Observe | src/quantum_trader/domain/risk.py:66-78 | peak, realized-loss and drawdown breakers after one equity point |
| Risk.RiskManager.ObserveFill | src/quantum_trader/domain/risk.py:80-98 | the recheck of an executed buy at its actual price |
| SimulatedBroker.SimulatedBroker.SubmitOrder | src/quantum_trader/adapters/simulated_broker.py:48-66 | an allowed, matching, new order is queued; every refusal leaves the queue alone |
| SimulatedBroker.SimulatedBroker.OnMarketEvent | src/quantum_trader/adapters/simulated_broker.py:68-114 | eligible orders fill at the slipped, quantized open and leave the queue, the others stay; a non-positive price raises and changes nothing |
| Engine.SimulationEngine.Run | src/quantum_trader/application/engine.py:118-297 | the loop over real portfolio, risk manager and broker objects is the run the theorems speak about, with end-of-run cancellation |
| Engine.RunKeepsInvariant | src/quantum_trader/application/engine.py:118-297 | in every run at most one order is pending, allowed orders are filled, rejected or pending, money is conserved, and only a standing clock or a consumed price can raise |
| Engine.EveryPointReconciles | src/quantum_trader/application/engine.py:175-183 | every equity point of every run reconciles to realized and unrealized profit less fees |
| Engine.HaltLeadsToFlat | src/quantum_trader/application/engine.py:218-282 | once halted when an intent is formed, the position is zero after the next bar and for the rest of the run, even if the exit fill is rejected by the accounting |
| Engine.ApprovedBuyFillsInRun | src/quantum_trader/application/engine.py:141-182 | in every run, a buy queued by one bar whose rounded fill at the next bar is within the bound is booked in full, and causes no order-commitment halt; no post-fill halt when its worst fill keeps both limits |
| Engine.UnhaltedRunReportsSmallDrawdown | src/quantum_trader/application/reporting.py:119-125 | a run that ends unhalted reports a drawdown strictly above the negated limit |
| RateLimits.SlidingWindowRequestBudget.Acquire | src/quantum_trader/domain/rate_limits.py:34-47 | the pruned deque decides as the full history would, returns the remaining capacity, and a denied call leaves it unchanged |
| RateLimits.RateBound | src/quantum_trader/domain/rate_limits.py:34-47 | over any call sequence every interval (s - window, s] holds at most max_requests accepted instants |
| RateLimits.KeptAgainstHistory | src/quantum_trader/domain/rate_limits.py:49-55 | at or after the newest accept the deque counts what the full history holds; earlier it under-reports exactly when a dropped instant is in the window |
| RateLimits.VerdictFromKept | src/quantum_trader/domain/rate_limits.py:38-45 | the decision over the full history can be read off the deque |
| WalkForward.EvaluateAsset | src/quantum_trader/application/evaluation.py:675-808 | it raises if and only if a trial or the selection of one of the max(0, floor((N - holdout - train - validation - test) / step) + 1) folds does; otherwise it returns exactly those folds and their trials, none of which reads the holdout |
| WalkForward.FoldFitsExactly | src/quantum_trader/application/evaluation.py:679 | a fold fits before the holdout if and only if its number is below that count |
| WalkForward.RunFold | src/quantum_trader/application/evaluation.py:680-808 | one fold: validate all candidates, select, and test only the selected one; it raises if and only if one of those trials or the selection does |
| WalkForward.Validate | src/quantum_trader/application/evaluation.py:692-708 | the validation trials of all candidates, in their order |
| WalkForward.TestSelected | src/quantum_trader/application/evaluation.py:750-805 | the cost, buffer and offset trials of a selected candidate, raising if and only if one of them does |
| WalkForward.FoldRunsExactly | src/quantum_trader/application/evaluation.py:680-808 | with a backtest that never raises on the data, a fold raises if and only if an eligible candidate has no annualized turnover, or some candidate is eligible and an offset would start before the data |
| WalkForward.SelectIsBest | src/quantum_trader/application/evaluation.py:709-728 | selection raises if and only if an eligible trial has no annualized turnover to compare; otherwise it succeeds if and only if some trial is eligible, and no eligible trial beats its result |
| WalkForward.SelectionIsCausal | src/quantum_trader/application/evaluation.py:692-728 | a fold's selection, or the error it raises, depends only on events before its test window |
| WalkForward.SelectedIgnoresCandidateOrder | src/quantum_trader/application/evaluation.py:421-427 | a fold's selection does not depend on the order of the candidates |
| MovingAverage.MovingAverageCrossover.OnMarketEvent | src/quantum_trader/domain/strategy.py:48-77 | the bounded queue answers as the whole history would: cash until both averages are defined, then invested exactly while the fast one is above the slow one |
| MovingAverage.WindowDecides | src/quantum_trader/domain/strategy.py:42-64 | only the closes of the slow window matter |
| Backtest.EveryRunIsReportable | src/quantum_trader/application/reporting.py:128-129 | after every engine run of one symbol both groupings of its fills succeed and hold at least the shares the portfolio holds, even when a sale was booked and refused |
| Backtest.ContextOnlyWarmsUp | src/quantum_trader/application/engine.py:118-141 | before the evaluation starts nothing is bought, measured or halted; then each event has one equity point, the first is the initial cash at the first instant, and the first of them brings no fill and no halt |
| Backtest.SoundRunNeverRaises | src/quantum_trader/application/engine.py:118-297 | over an increasing clock, one symbol and opens that slippage does not round away, an engine run never raises |
| Backtest.TrialRaisesExactly | src/quantum_trader/application/evaluation.py:261-324 | a whole trial over such data, with configuration, strategy, run and metrics, raises if and only if its candidate's windows or fraction are refused |
| Backtest.GridAdmitsRaisingCandidate | src/quantum_trader/application/evaluation.py:185-205 | windows 1 and 2 pass the grid, and every trial of that candidate raises |
| Backtest.TurnoverMissingExactly | src/quantum_trader/application/reporting.py:142-147 | over such data a trial has no annualized turnover if and only if it evaluates a single event or its average equity is not positive |
| Backtest.UnhaltedCurveIsPositive | src/quantum_trader/domain/risk.py:66-78 | a run that never halted only ever had positive equity, so its average equity is positive |
| Backtest.FoldRaisesExactly | src/quantum_trader/application/evaluation.py:675-808 | a fold of an evaluation run on the engine over such data raises if and only if a candidate is refused, an eligible candidate has no annualized turnover, or a candidate is eligible and an offset would start before the data |
| Backtest.UnhaltedFoldRaisesExactly | src/quantum_trader/application/evaluation.py:675-808 | where selection demands unhalted runs: if and only if a candidate is refused, or one is eligible while the validation window has one bar or an offset would start before the data |
| Backtest.OneValidationBarRaises | src/quantum_trader/application/evaluation.py:709-728 | with one validation bar and an ordinary selection rule every fold over such data raises, whatever the candidates |
| Backtest.EligibleStaysWithinDrawdown | src/quantum_trader/application/evaluation.py:354-359 | where selection demands unhalted runs, an eligible trial's drawdown is above the negated drawdown limit, and it lacks a turnover if and only if it evaluates a single event |
| Backtest.SelectedStaysWithinDrawdown | src/quantum_trader/application/evaluation.py:709-728 | then every selected candidate stayed within the drawdown limit on its validation window |

## Left out

- SQLite itself: pragmas, file permissions, integrity checks and schema versions; a store call is one atomic update.
- HTTP transports, JSON, credentials, calendar and quote adapters: their answers are inputs.
- SHA-256, HMAC and UUIDv5: identifiers are the data they are derived from, a payload digest is an abstract injective value, and
  whether a signature verifies is a field of the approval.
- Time zones and datetime parsing: instants are integers, and the exchange's local date is an input of the controls.
- Decimal rounding: amounts are exact reals; fill prices and fees are rounded half-even to six places as the code does, other
  divisions are exact, and stored fills are compared by value, not by their decimal text. Selection compares exact numbers where
  the code compares their binary floats, and no metric overflows.
- Upper-casing and stripping of symbols, namespaces and reasons: they are taken as already normalized, except that blank reasons
  are refused.
- Namespace prefixes are a given string: that prefixes are truncated, and that two namespaces may share one, is not modelled.
- The fault hook is a step that may fail with an ordinary exception; a hook that raises the broker's own rejection error is not
  part of this model.
- The reads of one reconciliation in the state machine: lookups, fill reading and commit are three steps, each at one instant,
  while `Reconciliation` models paging over a growing stream and repeated lookups.
- The reconciler called outside the executor while an execution is under way: in `PaperProtocol` reconciliations are serialized
  with the other jobs; `OverlappingReconciliations` lets them overlap, and states what then holds of fills and checkpoint.
- Reconciliation.PaperReconciler.Reconcile: does not model the error raised after the commit when the journal's integrity check
  fails (`src/quantum_trader/application/reconciliation.py:309-310`); the commit is then durable although the call raised. In the
  state machine that is a commit followed by a crash, not by the caller's handling of the error.
- Reason codes of the executor's pauses: one constant stands for all of them.
- Order of issues about fills and positions: the loops visit fills and symbols in any order where the code sorts first.
- The account snapshot and report tables beyond a count, and the standalone broker order state machine.
- `as_dict` methods, command line, Markdown and CSV writers, lifecycle locking, Sharpe ratio and annualized return.
- The adjusted-close benchmark of a trial: `Backtest` takes it as an arbitrary function of the evaluated events.
- The adjusted-close consistency check, event-store records, trade ids, average prices and holding seconds.
- Exceptions inside the risk manager during a run: the modelled methods cannot raise, so those handlers are not reached.
- Candidate identifiers are integers where the code orders strings.
- Engine theorems about whole runs are for runs of one symbol, as the data sources supply; `Portfolio` and `Reporting` are for any.
- MarketControls.AllowedBuyIsWorstCaseSafe: needs every open owned buy to have a limit price, because the code commits only the
  average fill price of one that has none; fees are not part of the commitment.
- PaperRates.DurableRateBound: needs calendar answers that name equal or disjoint sessions.
- PaperRecovery.RecoverySettles: allows no resume during the call, since a resume ends the pause it promises.
- OperatorActions.PaperOperatorActions.CancelOwnedOrders: the operator store is not changed by others during the call;
  `OperatorActions.RunningActionBlocksResume` shows that nobody could resume while the action runs.
- PaperExecutor.PaperOrderExecutor.ExecuteOnce: others act before every step but not inside the one reconciliation call.
