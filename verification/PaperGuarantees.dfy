/** The promises of the submission protocol, over every run. */
module PaperGuarantees {
  import opened Prelude
  import opened Brokerage
  import opened BrokerJournal
  import opened PaperProtocol
  import opened PaperSafety
  import OperatorControl
  import Reconciliation

  // ----- at most one request -----

  /** Every client order id causes at most one request, through any crashes, recoveries and repeated calls, and only
      for an order that was durably recorded first. */
  lemma {:induction false} AtMostOnePost(setup: Setup, created: int, actions: seq<Action>, client: ClientId)
    ensures var s := Run(setup, Initial(created), actions);
            multiset(s.world.posts)[client] <= 1 && (client in s.world.posts ==> client in s.journal.entries)
  {
    EveryRunIsSafe(setup, created, actions);
    DistinctMeansOnce(Run(setup, Initial(created), actions).world.posts, client);
  }

  lemma {:induction false} DistinctMeansOnce(posts: seq<ClientId>, client: ClientId)
    requires Distinct(posts)
    ensures multiset(posts)[client] <= 1
    ensures client !in posts ==> multiset(posts)[client] == 0
  {
    if posts != [] {
      var init, last := posts[..|posts| - 1], posts[|posts| - 1];
      assert posts == init + [last];
      DistinctMeansOnce(init, client);
    }
  }

  predicate Executing(s: System) { s.process.Running? && s.process.job.Execute? }

  /** Requests are sent by one step only: an execution, not paused when it last looked, at its sending step. */
  lemma {:induction false} OnlyExecutionPosts(setup: Setup, s: System, action: Action)
    ensures var after := Next(setup, s, action);
            after.world.posts == s.world.posts
            || (&& Executing(s) && s.process.stage == Post && action.Proceed?
                && after.world.posts == s.world.posts + [s.process.job.order.clientId])
  {
    if action.Proceed? && s.process.Running? && !Reconciling(s.process.stage) && s.process.job.Recover? {
      assert RecoverStep(s, s.process.job, s.process.stage).world == s.world;
    }
  }

  /** Recovery and reconciliation never send anything. */
  lemma {:induction false} NoExecutionNoPost(setup: Setup, s: System, actions: seq<Action>)
    requires !Executing(s)
    requires forall i :: 0 <= i < |actions| ==> !(actions[i].Call? && actions[i].job.Execute?)
    ensures Run(setup, s, actions).world.posts == s.world.posts && !Executing(Run(setup, s, actions))
  {
    if actions != [] {
      var init, last := actions[..|actions| - 1], actions[|actions| - 1];
      NoExecutionNoPost(setup, s, init);
      OnlyExecutionPosts(setup, Run(setup, s, init), last);
      StaysIdleOfExecution(setup, Run(setup, s, init), last);
    }
  }

  lemma {:induction false} StaysIdleOfExecution(setup: Setup, s: System, action: Action)
    requires !Executing(s) && !(action.Call? && action.job.Execute?)
    ensures !Executing(Next(setup, s, action))
  {
    if action.Proceed? && s.process.Running? {
      StepKeepsJob(setup, s, action.answer);
    }
  }

  predicate KeepsJob(job: Job, process: Process) { process.Running? ==> process.job == job }

  lemma {:induction false} FailureKeepsJob(s: System, job: Job, stage: Stage)
    ensures s.process == Running(job, stage) ==> KeepsJob(job, AfterFailure(s, job, stage).process)
  {
  }

  lemma {:induction false} AssessKeepsJob(setup: Setup, s: System, job: Job, stage: Stage, answer: Answer)
    requires job.Execute? && s.process == Running(job, stage)
    ensures KeepsJob(job, AssessStep(setup, s, job, stage, answer).process)
  {
  }

  lemma {:induction false} SubmitKeepsJob(s: System, job: Job, stage: Stage, answer: Answer)
    requires job.Execute? && s.process == Running(job, stage)
    ensures KeepsJob(job, SubmitStep(s, job, stage, answer).process)
  {
  }

  lemma {:induction false} RecoverKeepsJob(s: System, job: Job, stage: Stage)
    requires job.Recover? && s.process == Running(job, stage)
    ensures KeepsJob(job, RecoverStep(s, job, stage).process)
  {
  }

  lemma {:induction false} ReconcileKeepsJob(s: System, job: Job, stage: Stage, answer: Answer)
    requires s.process == Running(job, stage)
    ensures KeepsJob(job, ReconcileStep(s, job, stage, answer).process)
  {
  }

  /** A step of the executor goes on with its job or ends it. */
  lemma {:induction false} StepKeepsJob(setup: Setup, s: System, answer: Answer)
    requires s.process.Running?
    ensures KeepsJob(s.process.job, Next(setup, s, Proceed(answer)).process)
  {
    var job, stage := s.process.job, s.process.stage;
    assert Next(setup, s, Proceed(answer)) == ProcessStep(setup, s, job, stage, answer);
    if answer.Fails? {
      FailureKeepsJob(s, job, stage);
    } else if Reconciling(stage) {
      ReconcileKeepsJob(s, job, stage, answer);
    } else if stage.RequireReconciled? || stage.PauseAnd? {
      assert KeepsJob(job, FinishStep(s, job, stage).process);
    } else if job.Execute? && Assessing(stage) {
      AssessKeepsJob(setup, s, job, stage, answer);
    } else if job.Execute? {
      SubmitKeepsJob(s, job, stage, answer);
    } else if job.Recover? {
      RecoverKeepsJob(s, job, stage);
    }
  }

  // ----- the journal and the broker -----

  /** In every reachable state a rejected submission has no broker order and never will, an acknowledged or reconciled
      one stores the broker's own id, and at most one submission is unresolved. */
  lemma {:induction false} JournalAgreesWithBroker(setup: Setup, created: int, actions: seq<Action>, client: ClientId)
    ensures var s := Run(setup, Initial(created), actions);
            && (InState(s.journal, client, Rejected) ==> client !in s.world.orders && client !in s.world.inFlight)
            && (InState(s.journal, client, Acknowledged) || InState(s.journal, client, SubmissionState.Reconciled) ==>
                  client in s.world.orders && s.journal.entries[client].brokerId == Some(s.world.orders[client]))
            && (client in s.world.orders && Owned(client, setup.prefix) ==>
                  client in s.journal.entries && s.journal.entries[client].state != Persisted)
            && AtMostOneUnresolved(s.journal)
  {
    EveryRunIsSafe(setup, created, actions);
    var s := Run(setup, Initial(created), actions);
    if client in s.journal.entries { assert Agrees(setup, client, s.journal.entries[client], s.world); }
  }

  /** The stored fills are always exactly the broker's stream up to the checkpoint, owners aside. */
  lemma {:induction false} FillsAreTheStreamPrefix(setup: Setup, created: int, actions: seq<Action>)
    ensures var s := Run(setup, Initial(created), actions);
            var end := Reconciliation.StartOf(s.world.stream, s.journal.checkpoint);
            end.Some? && Reconciliation.StoredPrefix(s.journal.fills, s.world.stream, end.value)
  {
    EveryRunIsSafe(setup, created, actions);
  }

  lemma {:induction false} CommitWritesTheJournal(s: System, job: Job, stage: Stage, answer: Answer)
    requires stage.CommitReads? && answer.Projections?
    ensures var commit := CommitOf(s.journal, job.timestamp, stage.resolutions, stage.fills, answer.orders, answer.positions);
            var result := ApplyCommit(s.journal, commit);
            ReconcileStep(s, job, stage, answer).journal == if result.Ok? then result.value else s.journal
  {
  }

  /** A commit moves the checkpoint to the end of what was read, in whichever job it runs. */
  lemma {:induction false} CommitReachesWhatWasRead(setup: Setup, s: System, job: Job, stage: Stage, answer: Answer)
    requires Before(setup, s, job, stage) && stage.CommitReads? && answer.Projections?
    ensures var after := ReconcileStep(s, job, stage, answer).journal;
            after == s.journal || Reconciliation.StartOf(s.world.stream, after.checkpoint) == Some(stage.upTo)
  {
    CommitWritesTheJournal(s, job, stage, answer);
    var commit := CommitOf(s.journal, job.timestamp, stage.resolutions, stage.fills, answer.orders, answer.positions);
    CommitKeepsIngested(s.journal, s.world.stream, stage.upTo, commit);
  }

  // ----- submissions only go forward -----

  lemma {:induction false} WriteAdvances(s: System, job: Job, client: ClientId, state: SubmissionState, broker: Option<BrokerId>,
                      reason: Option<string>, next: Process, stage: Stage)
    ensures Advances(s.journal.entries, Written(s, job, client, state, broker, reason, next, stage).journal.entries)
  {
    var result := Transition(s.journal, client, state, job.timestamp, broker, reason);
    if result.Ok? {
      TransitionAdvances(s.journal, client, state, job.timestamp, broker, reason);
      assert Written(s, job, client, state, broker, reason, next, stage).journal == result.value.0;
    } else {
      assert Written(s, job, client, state, broker, reason, next, stage).journal == s.journal;
    }
  }

  /** One step of the machine, whatever it is, only moves submissions forward. */
  lemma {:induction false} StepAdvances(setup: Setup, s: System, action: Action)
    ensures Advances(s.journal.entries, Next(setup, s, action).journal.entries)
  {
    if action.Proceed? && s.process.Running? {
      ProcessAdvances(setup, s, s.process.job, s.process.stage, action.answer);
    }
  }

  lemma {:induction false} ProcessAdvances(setup: Setup, s: System, job: Job, stage: Stage, answer: Answer)
    ensures Advances(s.journal.entries, ProcessStep(setup, s, job, stage, answer).journal.entries)
  {
    if answer.Fails? {
      assert AfterFailure(s, job, stage).journal == s.journal;
    } else if Reconciling(stage) {
      ReconcileAdvances(s, job, stage, answer);
    } else if stage.RequireReconciled? || stage.PauseAnd? {
      assert FinishStep(s, job, stage).journal == s.journal;
    } else if job.Execute? && Assessing(stage) {
      AssessAdvances(setup, s, job, stage, answer);
    } else if job.Execute? {
      SubmitAdvances(s, job, stage, answer);
    } else if job.Recover? {
      RecoverAdvances(s, job, stage);
    }
  }

  lemma {:induction false} ReconcileAdvances(s: System, job: Job, stage: Stage, answer: Answer)
    ensures Advances(s.journal.entries, ReconcileStep(s, job, stage, answer).journal.entries)
  {
    if stage.CommitReads? && answer.Projections? {
      var commit := CommitOf(s.journal, job.timestamp, stage.resolutions, stage.fills, answer.orders, answer.positions);
      CommitWritesTheJournal(s, job, stage, answer);
      if ApplyCommit(s.journal, commit).Ok? { ApplyAdvances(s.journal, commit); }
    }
  }

  lemma {:induction false} AssessAdvances(setup: Setup, s: System, job: Job, stage: Stage, answer: Answer)
    requires job.Execute?
    ensures Advances(s.journal.entries, AssessStep(setup, s, job, stage, answer).journal.entries)
  {
    if stage.PersistOrder? && Persist(s.journal, job.order, setup.hash(job.order), job.timestamp).Ok? {
      PersistAdvances(s.journal, job.order, setup.hash(job.order), job.timestamp);
    }
  }

  lemma {:induction false} SubmitAdvances(s: System, job: Job, stage: Stage, answer: Answer)
    requires job.Execute?
    ensures Advances(s.journal.entries, SubmitStep(s, job, stage, answer).journal.entries)
  {
    match stage
    case StartSubmission =>
      WriteAdvances(s, job, job.order.clientId, Started, None, Some(job.attempt), Running(job, CheckAfterStart), stage);
    case AcknowledgeOrder(broker) =>
      WriteAdvances(s, job, job.order.clientId, Acknowledged, Some(broker), None, Running(job, AfterAcknowledged), stage);
    case RecordPaused => SettleAdvances(s, job, stage, answer);
    case RecordRejected => SettleAdvances(s, job, stage, answer);
    case RecordAmbiguous => SettleAdvances(s, job, stage, answer);
    case _ =>
  }

  lemma {:induction false} SettleAdvances(s: System, job: Job, stage: Stage, answer: Answer)
    requires job.Execute? && (stage.RecordPaused? || stage.RecordRejected? || stage.RecordAmbiguous?)
    ensures Advances(s.journal.entries, SubmitStep(s, job, stage, answer).journal.entries)
  {
    var client := job.order.clientId;
    match stage
    case RecordPaused => WriteAdvances(s, job, client, Rejected, None, Some(PausedReason), Idle(Some(Blocked)), stage);
    case RecordRejected =>
      WriteAdvances(s, job, client, Rejected, None, Some(RejectedReason), Running(job, PauseAnd(RejectedByBroker)), stage);
    case RecordAmbiguous =>
      WriteAdvances(s, job, client, Ambiguous, None, Some(AmbiguousReason), Running(job, PauseAnd(Uncertain)), stage);
  }

  lemma {:induction false} NeverStartedWrites(s: System, job: Job)
    requires job.Recover?
    ensures RecoverStep(s, job, RecordNeverStarted)
            == Written(s, job, job.client, Rejected, None, Some(NeverStartedReason), Idle(Some(RejectedByBroker)), RecordNeverStarted)
  {
  }

  lemma {:induction false} FoundWrites(s: System, job: Job, broker: BrokerId)
    requires job.Recover?
    ensures RecoverStep(s, job, AcknowledgeFound(broker))
            == Written(s, job, job.client, Acknowledged, Some(broker), None, Running(job, LookUpRows(Recovery)), AcknowledgeFound(broker))
  {
  }

  lemma {:induction false} RecoverReads(s: System, job: Job, stage: Stage)
    requires job.Recover? && !stage.RecordNeverStarted? && !stage.AcknowledgeFound?
    ensures RecoverStep(s, job, stage).journal == s.journal
  {
  }

  lemma {:induction false} RecoverAdvances(s: System, job: Job, stage: Stage)
    requires job.Recover?
    ensures Advances(s.journal.entries, RecoverStep(s, job, stage).journal.entries)
  {
    match stage
    case RecordNeverStarted =>
      NeverStartedWrites(s, job);
      WriteAdvances(s, job, job.client, Rejected, None, Some(NeverStartedReason), Idle(Some(RejectedByBroker)), stage);
    case AcknowledgeFound(broker) =>
      FoundWrites(s, job, broker);
      WriteAdvances(s, job, job.client, Acknowledged, Some(broker), None, Running(job, LookUpRows(Recovery)), stage);
    case _ => RecoverReads(s, job, stage);
  }

  predicate ChangesState(before: Journal, after: Journal, client: ClientId) {
    client in before.entries && client in after.entries && before.entries[client].state != after.entries[client].state
  }

  /** How often a submission changes its durable state during a run. */
  ghost function Changes(setup: Setup, s: System, actions: seq<Action>, client: ClientId): nat {
    if actions == [] then 0
    else
      var before := Run(setup, s, actions[..|actions| - 1]);
      Changes(setup, s, actions[..|actions| - 1], client)
      + (if ChangesState(before.journal, Next(setup, before, actions[|actions| - 1]).journal, client) then 1 else 0)
  }

  function RankOf(journal: Journal, client: ClientId): nat {
    if client in journal.entries then journal.entries[client].state.Rank() else 0
  }

  /** Each change moves the submission up, so the changes of any run are bounded by the rank it ends at. */
  lemma {:induction false} ChangesAreBounded(setup: Setup, s: System, actions: seq<Action>, client: ClientId)
    ensures RankOf(s.journal, client) + Changes(setup, s, actions, client) <= RankOf(Run(setup, s, actions).journal, client)
  {
    if actions != [] {
      var init := actions[..|actions| - 1];
      ChangesAreBounded(setup, s, init, client);
      StepAdvances(setup, Run(setup, s, init), actions[|actions| - 1]);
    }
  }

  /** Every submission changes state at most three times, and one that is terminal never again, in any run. */
  lemma {:induction false} SubmissionsSettle(setup: Setup, s: System, actions: seq<Action>, client: ClientId)
    ensures Changes(setup, s, actions, client) <= 3
    ensures client in s.journal.entries && s.journal.entries[client].state.Terminal() ==>
              var end := Run(setup, s, actions).journal.entries;
              && Changes(setup, s, actions, client) == 0
              && client in end && end[client].state == s.journal.entries[client].state
              && (end[client].state == SubmissionState.Reconciled ==> end[client].brokerId == s.journal.entries[client].brokerId)
  {
    ChangesAreBounded(setup, s, actions, client);
    if client in s.journal.entries && s.journal.entries[client].state.Terminal() {
      TerminalStays(setup, s, actions, client);
    }
  }

  lemma {:induction false} TerminalStays(setup: Setup, s: System, actions: seq<Action>, client: ClientId)
    requires client in s.journal.entries && s.journal.entries[client].state.Terminal()
    ensures var end := Run(setup, s, actions).journal.entries;
            && client in end && end[client].state == s.journal.entries[client].state
            && (end[client].state == SubmissionState.Reconciled ==> end[client].brokerId == s.journal.entries[client].brokerId)
  {
    if actions != [] {
      TerminalStays(setup, s, actions[..|actions| - 1], client);
      StepAdvances(setup, Run(setup, s, actions[..|actions| - 1]), actions[|actions| - 1]);
    }
  }

  // ----- doubt ends paused -----

  predicate InDoubt(process: Process) {
    process == Idle(Some(Uncertain)) || process == Idle(Some(RejectedByBroker))
  }

  lemma {:induction false} FailureIsNoDoubt(s: System, job: Job, stage: Stage)
    ensures !InDoubt(AfterFailure(s, job, stage).process)
  {
  }

  lemma {:induction false} SubmittingIsNoDoubt(s: System, job: Job, stage: Stage, answer: Answer)
    requires job.Execute? && s.process.Running?
    ensures !InDoubt(SubmitStep(s, job, stage, answer).process)
  {
  }

  lemma {:induction false} AssessingIsNoDoubt(setup: Setup, s: System, job: Job, stage: Stage, answer: Answer)
    requires job.Execute? && s.process.Running?
    ensures !InDoubt(AssessStep(setup, s, job, stage, answer).process)
  {
  }

  lemma {:induction false} ReconcilingIsNoDoubt(s: System, job: Job, stage: Stage, answer: Answer)
    requires s.process.Running?
    ensures !InDoubt(ReconcileStep(s, job, stage, answer).process)
  {
  }

  /** An execution that ends in doubt, or with a rejection by the broker, ends by pausing the operator store. */
  lemma {:induction false} DoubtEndsPaused(setup: Setup, s: System, answer: Answer)
    requires OperatorControl.StoreInvariant(s.operator) && Executing(s)
    ensures var after := Next(setup, s, Proceed(answer));
            InDoubt(after.process) ==> after.operator.rows != [] && IsPaused(after.operator)
  {
    var job, stage := s.process.job, s.process.stage;
    assert Next(setup, s, Proceed(answer)) == ProcessStep(setup, s, job, stage, answer);
    if answer.Fails? {
      FailureIsNoDoubt(s, job, stage);
    } else if Reconciling(stage) {
      ReconcilingIsNoDoubt(s, job, stage, answer);
    } else if stage.PauseAnd? {
      PauseKeepsStore(s.operator, job.timestamp);
    } else if !stage.RequireReconciled? {
      if Assessing(stage) { AssessingIsNoDoubt(setup, s, job, stage, answer); } else { SubmittingIsNoDoubt(s, job, stage, answer); }
    }
  }

  // ----- a pause stops sending -----

  /** Past its last look at the pause switch, with the request still to be sent. */
  predicate Cleared(stage: Stage) { stage.VerifyBeforeSubmit? || stage.LookUpExisting? || stage.Post? }

  predicate PastLastGate(process: Process) {
    process.Running? && process.job.Execute? && Cleared(process.stage)
  }

  /** The store is paused, and the executor will look at it before it sends anything. */
  predicate Held(s: System) {
    Paused(s.operator) && !PastLastGate(s.process)
  }

  lemma {:induction false} FailureClearsNothing(s: System, job: Job, stage: Stage)
    requires s.process == Running(job, stage)
    ensures !PastLastGate(AfterFailure(s, job, stage).process)
  {
  }

  lemma {:induction false} AssessmentClearsNothing(setup: Setup, s: System, job: Job, stage: Stage, answer: Answer)
    requires s.process == Running(job, stage) && job.Execute? && Assessing(stage)
    ensures !PastLastGate(AssessStep(setup, s, job, stage, answer).process)
  {
  }

  lemma {:induction false} GateClearsOnlyUnpaused(s: System, job: Job, stage: Stage, answer: Answer)
    requires s.process == Running(job, stage) && job.Execute? && !Cleared(stage) && IsPaused(s.operator)
    ensures !PastLastGate(SubmitStep(s, job, stage, answer).process)
  {
  }

  lemma {:induction false} ReconciliationClearsNothing(s: System, job: Job, stage: Stage, answer: Answer)
    requires s.process == Running(job, stage) && Reconciling(stage)
    ensures !PastLastGate(ReconcileStep(s, job, stage, answer).process)
  {
  }

  lemma {:induction false} RecoveryClearsNothing(s: System, job: Job, stage: Stage)
    requires s.process == Running(job, stage) && job.Recover?
    ensures !PastLastGate(RecoverStep(s, job, stage).process)
  {
  }

  lemma {:induction false} ProcessStaysHeld(setup: Setup, s: System, job: Job, stage: Stage, answer: Answer)
    requires s.process == Running(job, stage) && Held(s)
    ensures !PastLastGate(ProcessStep(setup, s, job, stage, answer).process)
  {
    if answer.Fails? {
      FailureClearsNothing(s, job, stage);
    } else if Reconciling(stage) {
      ReconciliationClearsNothing(s, job, stage, answer);
    } else if stage.RequireReconciled? || stage.PauseAnd? {
      assert !PastLastGate(FinishStep(s, job, stage).process);
    } else if job.Execute? && Assessing(stage) {
      AssessmentClearsNothing(setup, s, job, stage, answer);
    } else if job.Execute? {
      GateClearsOnlyUnpaused(s, job, stage, answer);
    } else if job.Recover? {
      RecoveryClearsNothing(s, job, stage);
    }
  }

  /** A store that is paused, whoever looks at it. */
  predicate Paused(store: OperatorControl.Store) { store.rows != [] && IsPaused(store) }

  lemma {:induction false} SubmittingTouchesNoOperator(s: System, job: Job, stage: Stage, answer: Answer)
    requires job.Execute?
    ensures SubmitStep(s, job, stage, answer).operator == s.operator
  {
  }

  lemma {:induction false} FailingTouchesNoOperator(s: System, job: Job, stage: Stage)
    ensures AfterFailure(s, job, stage).operator == s.operator
  {
  }

  lemma {:induction false} ReconcilingTouchesNoOperator(s: System, job: Job, stage: Stage, answer: Answer)
    ensures ReconcileStep(s, job, stage, answer).operator == s.operator
  {
  }

  lemma {:induction false} AssessingTouchesNoOperator(setup: Setup, s: System, job: Job, stage: Stage, answer: Answer)
    requires job.Execute?
    ensures AssessStep(setup, s, job, stage, answer).operator == s.operator
  {
  }

  /** The operator store after a step of the executor: as it was, or with a pause of its own. */
  predicate OnlyPauses(before: OperatorControl.Store, after: OperatorControl.Store, timestamp: int) {
    after == before || after == PausedAt(before, timestamp)
  }

  lemma {:induction false} FinishingOnlyPauses(s: System, job: Job, stage: Stage)
    ensures OnlyPauses(s.operator, FinishStep(s, job, stage).operator, job.timestamp)
  {
  }

  lemma {:induction false} RecoveringOnlyPauses(s: System, job: Job, stage: Stage)
    requires job.Recover?
    ensures OnlyPauses(s.operator, RecoverStep(s, job, stage).operator, job.timestamp)
  {
  }

  lemma {:induction false} ProcessOnlyPauses(setup: Setup, s: System, job: Job, stage: Stage, answer: Answer)
    ensures OnlyPauses(s.operator, ProcessStep(setup, s, job, stage, answer).operator, job.timestamp)
  {
    if answer.Fails? {
      FailingTouchesNoOperator(s, job, stage);
    } else if Reconciling(stage) {
      ReconcilingTouchesNoOperator(s, job, stage, answer);
    } else if stage.RequireReconciled? || stage.PauseAnd? {
      FinishingOnlyPauses(s, job, stage);
    } else if job.Execute? && Assessing(stage) {
      AssessingTouchesNoOperator(setup, s, job, stage, answer);
    } else if job.Execute? {
      SubmittingTouchesNoOperator(s, job, stage, answer);
    } else if job.Recover? {
      RecoveringOnlyPauses(s, job, stage);
    }
  }

  lemma {:induction false} OwnPauseStaysPaused(before: OperatorControl.Store, after: OperatorControl.Store, timestamp: int)
    requires Paused(before) && OnlyPauses(before, after, timestamp)
    ensures Paused(after)
  {
  }

  lemma {:induction false} StepStaysHeld(setup: Setup, s: System, action: Action)
    requires Held(s) && !(action.OperatorCall? && action.command.Resume?)
    ensures Held(Next(setup, s, action)) && Next(setup, s, action).world.posts == s.world.posts
  {
    OnlyExecutionPosts(setup, s, action);
    if action.Proceed? && s.process.Running? {
      ProcessStaysHeld(setup, s, s.process.job, s.process.stage, action.answer);
      ProcessOnlyPauses(setup, s, s.process.job, s.process.stage, action.answer);
      OwnPauseStaysPaused(s.operator, Next(setup, s, action).operator, s.process.job.timestamp);
    } else if action.OperatorCall? {
      OperatorControl.OnlyResumeUnpauses(s.operator, setup.namespace, action.command);
    }
  }

  /** The kill switch works: once the store is paused and the executor is not between its last look at it and the
      request, nothing is sent until somebody resumes, whatever is called, crashes or answered. */
  lemma {:induction false} NothingSentWhilePaused(setup: Setup, s: System, actions: seq<Action>)
    requires Held(s)
    requires forall i :: 0 <= i < |actions| ==> !(actions[i].OperatorCall? && actions[i].command.Resume?)
    ensures Held(Run(setup, s, actions)) && Run(setup, s, actions).world.posts == s.world.posts
  {
    if actions != [] {
      NothingSentWhilePaused(setup, s, actions[..|actions| - 1]);
      StepStaysHeld(setup, Run(setup, s, actions[..|actions| - 1]), actions[|actions| - 1]);
    }
  }

  /** A new store starts paused, so no run sends anything before its first resume. */
  lemma {:induction false} NothingSentBeforeResume(setup: Setup, created: int, actions: seq<Action>)
    requires forall i :: 0 <= i < |actions| ==> !(actions[i].OperatorCall? && actions[i].command.Resume?)
    ensures Run(setup, Initial(created), actions).world.posts == []
  {
    NothingSentWhilePaused(setup, Initial(created), actions);
  }
}
