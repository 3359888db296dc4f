/** One recovery call settles a submission whose order the broker shows, from wherever a crash left it. */
module PaperRecovery {
  import opened Prelude
  import opened Brokerage
  import opened BrokerJournal
  import opened PaperProtocol
  import opened PaperSafety
  import OperatorControl
  import Reconciliation

  // ----- what a recovery needs, and where it stands -----

  /** The submission can be recovered by this call: the content matches, the row can be read, and the call is not
      timed before the submission was created. */
  ghost predicate Recoverable(journal: Journal, job: Job)
    requires job.Recover?
  {
    && job.client in journal.entries
    && var entry := journal.entries[job.client];
       && entry.state != Rejected && ValidSubmission(entry) && entry.payloadHash == job.expectedHash
       && (Unresolved(entry) ==> entry.createdAt <= job.timestamp)
  }

  /** What a reconciliation is about to settle: the unresolved submission, if there is one. */
  ghost predicate Settling(journal: Journal, client: ClientId, resolutions: seq<Resolution>) {
    && |resolutions| <= 1
    && (resolutions != [] ==>
          resolutions[0].client in journal.entries && Unresolved(journal.entries[resolutions[0].client]))
    && (client in journal.entries && Unresolved(journal.entries[client]) ==>
          resolutions != [] && resolutions[0].client == client)
  }

  ghost predicate OnTrackAt(s: System, job: Job, stage: Stage)
    requires job.Recover?
  {
    && (stage != PauseFirst ==> IsPaused(s.operator))
    && match stage
       case PauseFirst => true
       case ReadEntry => true
       case VerifyRecovery(_) => true
       case FindOrder(_) => true
       case AcknowledgeFound(_) => true
       case LookUpRows(purpose) => purpose == Recovery
       case ReadFills(purpose, resolutions) => purpose == Recovery && Settling(s.journal, job.client, resolutions)
       case CommitReads(purpose, resolutions, _, _) => purpose == Recovery && Settling(s.journal, job.client, resolutions)
       case RequireReconciled(_) => InState(s.journal, job.client, SubmissionState.Reconciled)
       case _ => false
  }

  ghost predicate Recovered(s: System, job: Job)
    requires job.Recover?
  {
    s.process == Idle(Some(Completed)) && IsPaused(s.operator) && InState(s.journal, job.client, SubmissionState.Reconciled)
  }

  /** The recovery is under way, or done: nothing has been sent since it began. */
  ghost predicate OnTrack(s: System, job: Job, posts: seq<ClientId>)
    requires job.Recover?
  {
    && s.world.posts == posts && Shown(s.world, job.client) && Recoverable(s.journal, job)
    && match s.process
       case Idle(_) => Recovered(s, job)
       case Running(current, stage) => current == job && OnTrackAt(s, job, stage)
  }

  /** No call fails, no crash, no resume; the broker and the operator may do anything else at any time. */
  ghost predicate Helpful(s: System, action: Action) {
    match action
    case Crash => false
    case Call(_) => false
    case OperatorCall(command) => !command.Resume?
    case Proceed(answer) =>
      && !answer.Fails?
      && (answer.Projections? ==> StoreOrders(s.journal.orders, answer.orders).Ok? && StorePositions(map[], answer.positions).Ok?)
    case _ => true
  }

  // ----- the steps that could fail, and do not -----

  lemma {:induction false} NotTaken(setup: Setup, s: System, client: ClientId)
    requires Tables(setup, s) && client in s.world.orders
    ensures !Taken(s.journal.entries, client, Some(s.world.orders[client]))
  {
    forall other | other in s.journal.entries && other != client
      ensures s.journal.entries[other].brokerId != Some(s.world.orders[client])
    {
      assert Agrees(setup, other, s.journal.entries[other], s.world);
    }
  }

  lemma {:induction false} AcknowledgeSucceeds(setup: Setup, s: System, job: Job, broker: BrokerId)
    requires Tables(setup, s) && job.Recover? && Recoverable(s.journal, job)
    requires InState(s.journal, job.client, Started) && Holds(s.world, job.client, broker)
    ensures var result := Transition(s.journal, job.client, Acknowledged, job.timestamp, Some(broker), None);
            result.Ok? && Recoverable(result.value.0, job)
  {
    NotTaken(setup, s, job.client);
  }

  lemma {:induction false} OneRowAtMost(journal: Journal, n: nat)
    requires JournalOk(journal) && AtMostOneUnresolved(journal) && n <= |journal.clients|
    ensures |UnresolvedUpTo(journal, n)| <= 1
    ensures UnresolvedUpTo(journal, n) != [] ==>
              exists k :: 0 <= k < n && journal.entries[journal.clients[k]] == UnresolvedUpTo(journal, n)[0]
                          && Unresolved(journal.entries[journal.clients[k]])
  {
    if n > 0 {
      OneRowAtMost(journal, n - 1);
      var last := journal.entries[journal.clients[n - 1]];
      if Unresolved(last) {
        forall k | 0 <= k < n - 1 ensures !Unresolved(journal.entries[journal.clients[k]]) {
          assert journal.clients[k] != journal.clients[n - 1];
        }
      }
    }
  }

  /** The lookup finds the submission that is being recovered, whenever it is still unresolved. */
  lemma {:induction false} LookUpSettles(setup: Setup, s: System, client: ClientId)
    requires Tables(setup, s) && client in s.journal.entries && Shown(s.world, client)
    ensures AllReadable(Rows(s.journal)) && Settling(s.journal, client, Resolutions(Rows(s.journal), s.world))
  {
    var rows := Rows(s.journal);
    RowsAreUnresolved(s.journal);
    OneRowAtMost(s.journal, |s.journal.clients|);
    forall i | 0 <= i < |rows| ensures ValidSubmission(rows[i]) {
      assert rows[i] in rows;
      assert Agrees(setup, rows[i].order.clientId, s.journal.entries[rows[i].order.clientId], s.world);
    }
    if rows != [] {
      assert rows[0] in rows;
      assert rows[..|rows| - 1] == [];
    }
  }

  lemma {:induction false} ResolveSucceeds(setup: Setup, s: System, job: Job, resolutions: seq<Resolution>)
    requires Tables(setup, s) && job.Recover? && Recoverable(s.journal, job)
    requires Truthful(resolutions, s.world) && Settling(s.journal, job.client, resolutions)
    ensures var result := Resolve(s.journal.entries, resolutions, job.timestamp);
            && result.Ok? && job.client in result.value && result.value[job.client].state == SubmissionState.Reconciled
            && ValidSubmission(result.value[job.client])
            && result.value[job.client].payloadHash == s.journal.entries[job.client].payloadHash
  {
    assert Agrees(setup, job.client, s.journal.entries[job.client], s.world);
    if resolutions != [] {
      var first := resolutions[0];
      assert Holds(s.world, first.client, first.broker) && resolutions[1..] == [];
      assert Agrees(setup, first.client, s.journal.entries[first.client], s.world);
      NotTaken(setup, s, first.client);
    }
  }

  lemma {:induction false} CommitSucceeds(setup: Setup, s: System, job: Job, stage: Stage, answer: Answer)
    requires Before(setup, s, job, stage) && job.Recover? && Recoverable(s.journal, job)
    requires stage.CommitReads? && Settling(s.journal, job.client, stage.resolutions)
    requires answer.Projections? && Helpful(s, Proceed(answer))
    ensures var commit := CommitOf(s.journal, job.timestamp, stage.resolutions, stage.fills, answer.orders, answer.positions);
            var result := ApplyCommit(s.journal, commit);
            result.Ok? && Recoverable(result.value, job) && InState(result.value, job.client, SubmissionState.Reconciled)
  {
    var commit := CommitOf(s.journal, job.timestamp, stage.resolutions, stage.fills, answer.orders, answer.positions);
    ResolveSucceeds(setup, s, job, stage.resolutions);
    CommitKeepsIngested(s.journal, s.world.stream, stage.upTo, commit);
    TokenIsNotBlank(s.journal, s.world.stream, stage.upTo, stage.fills);
  }

  lemma {:induction false} TokenIsNotBlank(journal: Journal, stream: seq<FillActivity>, upTo: nat, fills: seq<FillActivity>)
    requires CouldRead(journal, stream, upTo, fills)
    requires forall i :: 0 <= i < |stream| ==> !BlankToken(Some(stream[i].activityId))
    ensures !BlankToken(Reconciliation.LastToken(fills, journal.checkpoint))
  {
    var start := Reconciliation.StartOf(stream, journal.checkpoint).value;
    if fills != [] {
      LastTokenOfNormalized(stream[..upTo], start, fills, journal.checkpoint);
      assert stream[..upTo][start..][|fills| - 1] == stream[upTo - 1];
    } else if journal.checkpoint.Some? {
      Reconciliation.StartFollowsToken(stream, journal.checkpoint.value);
    }
  }

  // ----- the recovery stays on track -----

  lemma {:induction false} RecoverStaysOnTrack(setup: Setup, s: System, job: Job, stage: Stage, posts: seq<ClientId>)
    requires Before(setup, s, job, stage) && job.Recover? && OnTrack(s, job, posts)
    requires !Reconciling(stage) && !stage.RequireReconciled?
    ensures OnTrack(RecoverStep(s, job, stage), job, posts)
  {
    if stage.PauseFirst? { PauseKeepsStore(s.operator, job.timestamp); }
    if stage.AcknowledgeFound? { AcknowledgeSucceeds(setup, s, job, stage.broker); }
  }

  lemma {:induction false} ReadsStayOnTrack(setup: Setup, s: System, job: Job, stage: Stage, answer: Answer, posts: seq<ClientId>)
    requires Before(setup, s, job, stage) && job.Recover? && OnTrack(s, job, posts)
    requires stage.LookUpRows? || stage.ReadFills?
    ensures OnTrack(ReconcileStep(s, job, stage, answer), job, posts)
  {
    if stage.LookUpRows? { LookUpSettles(setup, s, job.client); }
  }

  lemma {:induction false} CommittedIsOnTrack(s: System, after: System, job: Job, ready: bool, posts: seq<ClientId>)
    requires job.Recover? && OnTrack(s, job, posts) && s.process.Running? && s.process.stage.CommitReads?
    requires after.operator == s.operator && after.world == s.world
    requires after.process == AfterReconcile(after, job, Recovery, ready).process
    requires Recoverable(after.journal, job) && InState(after.journal, job.client, SubmissionState.Reconciled)
    ensures OnTrack(after, job, posts)
  {
  }

  lemma {:induction false} CommitStaysOnTrack(setup: Setup, s: System, job: Job, stage: Stage, answer: Answer, posts: seq<ClientId>)
    requires Before(setup, s, job, stage) && job.Recover? && OnTrack(s, job, posts)
    requires stage.CommitReads? && Helpful(s, Proceed(answer))
    ensures OnTrack(ReconcileStep(s, job, stage, answer), job, posts)
  {
    if answer.Projections? {
      CommitSucceeds(setup, s, job, stage, answer);
      CommitLeads(s, job, stage.purpose, CommitOf(s.journal, job.timestamp, stage.resolutions, stage.fills, answer.orders,
                                                  answer.positions), stage.upTo, answer.ready);
      CommittedIsOnTrack(s, ReconcileStep(s, job, stage, answer), job, answer.ready, posts);
    }
  }

  lemma {:induction false} FinishStaysOnTrack(s: System, job: Job, stage: Stage, posts: seq<ClientId>)
    requires job.Recover? && OnTrack(s, job, posts) && s.process == Running(job, stage)
    requires stage.RequireReconciled?
    ensures OnTrack(FinishStep(s, job, stage), job, posts)
  {
  }

  lemma {:induction false} ProceedStaysOnTrack(setup: Setup, s: System, job: Job, stage: Stage, answer: Answer, posts: seq<ClientId>)
    requires Before(setup, s, job, stage) && job.Recover? && OnTrack(s, job, posts) && Helpful(s, Proceed(answer))
    ensures OnTrack(ProcessStep(setup, s, job, stage, answer), job, posts)
  {
    if stage.CommitReads? {
      CommitStaysOnTrack(setup, s, job, stage, answer, posts);
    } else if Reconciling(stage) {
      ReadsStayOnTrack(setup, s, job, stage, answer, posts);
    } else if stage.RequireReconciled? {
      FinishStaysOnTrack(s, job, stage, posts);
    } else {
      assert stage.PauseAnd? ==> false;
      RecoverStaysOnTrack(setup, s, job, stage, posts);
    }
  }

  lemma {:induction false} OutsideStaysOnTrack(setup: Setup, s: System, job: Job, action: Action, posts: seq<ClientId>)
    requires Safe(setup, s) && job.Recover? && OnTrack(s, job, posts) && Helpful(s, action) && !action.Proceed?
    ensures OnTrack(Next(setup, s, action), job, posts)
  {
    if action.OperatorCall? {
      OperatorControl.CommandKeepsInvariant(s.operator, setup.namespace, action.command);
      if IsPaused(s.operator) { OperatorControl.OnlyResumeUnpauses(s.operator, setup.namespace, action.command); }
    } else {
      BrokerMoves(setup, s.world, action);
    }
  }

  ghost predicate AllHelpful(setup: Setup, s: System, actions: seq<Action>) {
    forall i :: 0 <= i < |actions| ==> Helpful(Run(setup, s, actions[..i]), actions[i])
  }

  lemma {:induction false} StepStaysOnTrack(setup: Setup, s: System, job: Job, action: Action, posts: seq<ClientId>)
    requires Safe(setup, s) && job.Recover? && OnTrack(s, job, posts) && Helpful(s, action)
    ensures OnTrack(Next(setup, s, action), job, posts)
  {
    if action.Proceed? {
      if s.process.Running? { ProceedStaysOnTrack(setup, s, job, s.process.stage, action.answer, posts); }
    } else {
      OutsideStaysOnTrack(setup, s, job, action, posts);
    }
  }

  lemma {:induction false} HelpfulPrefix(setup: Setup, s: System, actions: seq<Action>)
    requires actions != [] && AllHelpful(setup, s, actions)
    ensures AllHelpful(setup, s, actions[..|actions| - 1])
    ensures Helpful(Run(setup, s, actions[..|actions| - 1]), actions[|actions| - 1])
  {
    var init := actions[..|actions| - 1];
    forall i | 0 <= i < |init| ensures Helpful(Run(setup, s, init[..i]), init[i]) {
      assert init[..i] == actions[..i];
    }
  }

  lemma {:induction false} RunStaysOnTrack(setup: Setup, s: System, job: Job, actions: seq<Action>, posts: seq<ClientId>)
    requires Safe(setup, s) && job.Recover? && OnTrack(s, job, posts) && AllHelpful(setup, s, actions)
    ensures Safe(setup, Run(setup, s, actions)) && OnTrack(Run(setup, s, actions), job, posts)
  {
    if actions != [] {
      var init, last := actions[..|actions| - 1], actions[|actions| - 1];
      HelpfulPrefix(setup, s, actions);
      RunStaysOnTrack(setup, s, job, init, posts);
      StepKeepsSafe(setup, Run(setup, s, init), last);
      StepStaysOnTrack(setup, Run(setup, s, init), job, last, posts);
    }
  }

  /** The durable submission is reconciled, can be read back, and names the broker's own order. */
  ghost predicate SettledWithBroker(s: System, client: ClientId) {
    && InState(s.journal, client, SubmissionState.Reconciled) && ValidSubmission(s.journal.entries[client])
    && client in s.world.orders && s.journal.entries[client].brokerId == Some(s.world.orders[client])
  }

  lemma {:induction false} RecoveredIsSettled(setup: Setup, s: System, job: Job, posts: seq<ClientId>)
    requires Safe(setup, s) && job.Recover? && OnTrack(s, job, posts) && s.process.Idle?
    ensures s.process == Idle(Some(Completed)) && IsPaused(s.operator) && SettledWithBroker(s, job.client)
  {
    assert Agrees(setup, job.client, s.journal.entries[job.client], s.world);
  }

  lemma {:induction false} CallIsOnTrack(setup: Setup, s: System, job: Job)
    requires job.Recover? && s.process.Idle? && Recoverable(s.journal, job) && Shown(s.world, job.client)
    ensures OnTrack(Next(setup, s, Call(job)), job, s.world.posts)
  {
  }

  /** However a run went, and wherever it crashed: call recovery for a submission whose order the broker shows, let
      broker and operator events interleave as they may, and whenever that call has ended it has ended RECONCILED and
      paused, with nothing sent. */
  lemma {:induction false} RecoverySettles(setup: Setup, created: int, history: seq<Action>, s: System, job: Job, actions: seq<Action>, end: System)
    requires s == Run(setup, Initial(created), history) && s.process.Idle?
    requires job.Recover? && Recoverable(s.journal, job) && Shown(s.world, job.client)
    requires AllHelpful(setup, Next(setup, s, Call(job)), actions) && end == Run(setup, Next(setup, s, Call(job)), actions)
    ensures end.world.posts == s.world.posts
    ensures end.process.Idle? ==>
              end.process == Idle(Some(Completed)) && IsPaused(end.operator) && SettledWithBroker(end, job.client)
  {
    EveryRunIsSafe(setup, created, history);
    StepKeepsSafe(setup, s, Call(job));
    CallIsOnTrack(setup, s, job);
    RunStaysOnTrack(setup, Next(setup, s, Call(job)), job, actions, s.world.posts);
    if end.process.Idle? { RecoveredIsSettled(setup, end, job, s.world.posts); }
  }

  // ----- the recovery gets there -----

  function Remaining(process: Process): nat {
    match process
    case Idle(_) => 0
    case Running(_, stage) =>
      match stage
      case PauseFirst => 9
      case ReadEntry => 8
      case VerifyRecovery(_) => 7
      case FindOrder(_) => 6
      case AcknowledgeFound(_) => 5
      case LookUpRows(_) => 4
      case ReadFills(_, _) => 3
      case CommitReads(_, _, _, _) => 2
      case _ => 1
  }

  /** An order and position listing that the journal can take. */
  predicate Storable(journal: Journal, listing: Answer)
    requires listing.Projections?
  {
    StoreOrders(journal.orders, listing.orders).Ok? && StorePositions(map[], listing.positions).Ok?
  }

  lemma {:induction false} ReadingAdvances(s: System, job: Job, stage: Stage) returns (answer: Answer)
    requires s.process == Running(job, stage) && stage.ReadFills? && Reconciliation.Ingested(s.journal, s.world.stream)
    ensures Helpful(s, Proceed(answer)) && answer.Fills?
    ensures Remaining(ReconcileStep(s, job, stage, answer).process) < Remaining(s.process)
  {
    var stream := s.world.stream;
    var start := Reconciliation.StartOf(stream, s.journal.checkpoint).value;
    assert stream[..|stream|] == stream;
    answer := Fills(|stream|, stream[start..]);
  }

  lemma {:induction false} CommittingAdvances(setup: Setup, s: System, job: Job, stage: Stage, answer: Answer)
    requires Before(setup, s, job, stage) && job.Recover? && Recoverable(s.journal, job) && stage.CommitReads?
    requires stage.purpose == Recovery && Settling(s.journal, job.client, stage.resolutions)
    requires answer.Projections? && Storable(s.journal, answer)
    ensures Helpful(s, Proceed(answer))
    ensures Remaining(ReconcileStep(s, job, stage, answer).process) < Remaining(s.process)
  {
    CommitSucceeds(setup, s, job, stage, answer);
    CommitMovesOn(s, job, stage, answer);
  }

  lemma {:induction false} CommitMovesOn(s: System, job: Job, stage: Stage, answer: Answer)
    requires s.process == Running(job, stage) && stage.CommitReads? && stage.purpose == Recovery && answer.Projections?
    requires ApplyCommit(s.journal, CommitOf(s.journal, job.timestamp, stage.resolutions, stage.fills, answer.orders,
                                             answer.positions)).Ok?
    ensures Remaining(ReconcileStep(s, job, stage, answer).process) < Remaining(s.process)
  {
    CommitLeads(s, job, stage.purpose, CommitOf(s.journal, job.timestamp, stage.resolutions, stage.fills, answer.orders,
                                                answer.positions), stage.upTo, answer.ready);
  }

  lemma {:induction false} LookingUpAdvances(setup: Setup, s: System, job: Job, stage: Stage)
    requires Before(setup, s, job, stage) && job.Recover? && Recoverable(s.journal, job) && stage.LookUpRows?
    requires Shown(s.world, job.client)
    ensures Remaining(ReconcileStep(s, job, stage, Proceeds).process) < Remaining(s.process)
  {
    LookUpSettles(setup, s, job.client);
    LookUpMovesOn(s, job, stage);
  }

  lemma {:induction false} LookUpMovesOn(s: System, job: Job, stage: Stage)
    requires s.process == Running(job, stage) && stage.LookUpRows? && AllReadable(Rows(s.journal))
    ensures Remaining(ReconcileStep(s, job, stage, Proceeds).process) < Remaining(s.process)
  {
    assert ReconcileStep(s, job, stage, Proceeds)
        == Goto(s, job, ReadFills(stage.purpose, Resolutions(Rows(s.journal), s.world)));
  }

  lemma {:induction false} RecoverStepAdvances(setup: Setup, s: System, job: Job, stage: Stage)
    requires Before(setup, s, job, stage) && job.Recover? && Recoverable(s.journal, job) && Shown(s.world, job.client)
    requires OnTrackAt(s, job, stage) && !Reconciling(stage) && !stage.RequireReconciled?
    ensures Remaining(RecoverStep(s, job, stage).process) < Remaining(s.process)
  {
    if stage.AcknowledgeFound? {
      AcknowledgeSucceeds(setup, s, job, stage.broker);
      AcknowledgeMovesOn(s, job, stage);
    } else {
      PlainStepMovesOn(s, job, stage);
    }
  }

  lemma {:induction false} AcknowledgeMovesOn(s: System, job: Job, stage: Stage)
    requires s.process == Running(job, stage) && job.Recover? && stage.AcknowledgeFound?
    requires Transition(s.journal, job.client, Acknowledged, job.timestamp, Some(stage.broker), None).Ok?
    ensures Remaining(RecoverStep(s, job, stage).process) < Remaining(s.process)
  {
  }

  lemma {:induction false} PlainStepMovesOn(s: System, job: Job, stage: Stage)
    requires s.process == Running(job, stage) && job.Recover? && Recoverable(s.journal, job) && Shown(s.world, job.client)
    requires OnTrackAt(s, job, stage) && !Reconciling(stage) && !stage.RequireReconciled? && !stage.AcknowledgeFound?
    ensures Remaining(RecoverStep(s, job, stage).process) < Remaining(s.process)
  {
  }

  /** What the broker answers to a step: the reads that step needs, and at the commit this listing. */
  ghost predicate Answers(answer: Answer, listing: Answer) {
    answer.Proceeds? || answer.Fills? || answer == listing
  }

  /** At every point some answer moves a recovery on, at the commit any listing that can be stored. */
  lemma {:induction false} SomeAnswerAdvances(setup: Setup, s: System, job: Job, posts: seq<ClientId>, listing: Answer)
    returns (answer: Answer)
    requires Safe(setup, s) && job.Recover? && OnTrack(s, job, posts) && s.process.Running?
    requires listing.Projections? && (Remaining(s.process) > 1 ==> Storable(s.journal, listing))
    ensures Helpful(s, Proceed(answer)) && Answers(answer, listing)
    ensures Remaining(Next(setup, s, Proceed(answer)).process) < Remaining(s.process)
  {
    answer := StageAdvances(setup, s, job, s.process.stage, posts, listing);
    assert Next(setup, s, Proceed(answer)) == ProcessStep(setup, s, job, s.process.stage, answer);
  }

  lemma {:induction false} StageAdvances(setup: Setup, s: System, job: Job, stage: Stage, posts: seq<ClientId>, listing: Answer)
    returns (answer: Answer)
    requires Before(setup, s, job, stage) && job.Recover? && OnTrack(s, job, posts)
    requires listing.Projections? && (stage.CommitReads? ==> Storable(s.journal, listing))
    ensures Helpful(s, Proceed(answer)) && Answers(answer, listing)
    ensures Remaining(ProcessStep(setup, s, job, stage, answer).process) < Remaining(s.process)
  {
    answer := Proceeds;
    if stage.ReadFills? {
      answer := ReadingAdvances(s, job, stage);
    } else if stage.CommitReads? {
      answer := listing;
      CommittingAdvances(setup, s, job, stage, answer);
    } else if stage.LookUpRows? {
      LookingUpAdvances(setup, s, job, stage);
    } else if !stage.RequireReconciled? {
      RecoverStepAdvances(setup, s, job, stage);
    }
  }

  lemma {:induction false} WritingKeepsOrders(s: System, job: Job, client: ClientId, state: SubmissionState, broker: Option<BrokerId>,
                                              reason: Option<string>, next: Process, stage: Stage)
    ensures Written(s, job, client, state, broker, reason, next, stage).journal.orders == s.journal.orders
  {
    TransitionKeepsOrders(s.journal, client, state, job.timestamp, broker, reason);
    FailureKeepsOrders(s, job, stage);
  }

  lemma {:induction false} TransitionKeepsOrders(journal: Journal, client: ClientId, state: SubmissionState, timestamp: int,
                                                 broker: Option<BrokerId>, reason: Option<string>)
    ensures var result := Transition(journal, client, state, timestamp, broker, reason);
            result.Ok? ==> result.value.0.orders == journal.orders
  {
  }

  lemma {:induction false} FailureKeepsOrders(s: System, job: Job, stage: Stage)
    ensures AfterFailure(s, job, stage).journal == s.journal
  {
  }

  lemma {:induction false} RecoverStepKeepsOrders(s: System, job: Job, stage: Stage)
    requires job.Recover?
    ensures RecoverStep(s, job, stage).journal.orders == s.journal.orders
  {
    if stage.RecordNeverStarted? {
      WritingKeepsOrders(s, job, job.client, Rejected, None, Some(NeverStartedReason), Idle(Some(RejectedByBroker)), stage);
    } else if stage.AcknowledgeFound? {
      WritingKeepsOrders(s, job, job.client, Acknowledged, Some(stage.broker), None, Running(job, LookUpRows(Recovery)), stage);
    }
  }

  /** Only the commit changes the stored orders. */
  lemma {:induction false} StepKeepsOrders(setup: Setup, s: System, job: Job, stage: Stage, answer: Answer)
    requires s.process == Running(job, stage) && job.Recover? && !stage.CommitReads? && !answer.Fails?
    ensures ProcessStep(setup, s, job, stage, answer).journal.orders == s.journal.orders
  {
    if !Reconciling(stage) && !stage.RequireReconciled? && !stage.PauseAnd? { RecoverStepKeepsOrders(s, job, stage); }
  }

  /** So one call can always be finished, in at most nine steps, with any order and position listing that the journal
      can take, and finishing is settling. */
  lemma {:induction false} RecoveryFinishesWith(setup: Setup, s: System, job: Job, posts: seq<ClientId>, listing: Answer)
    returns (answers: seq<Answer>)
    requires Safe(setup, s) && job.Recover? && OnTrack(s, job, posts)
    requires listing.Projections? && (Remaining(s.process) > 1 ==> Storable(s.journal, listing))
    ensures |answers| <= Remaining(s.process) && AllAnswers(answers, listing)
    ensures Recovered(Answered(setup, s, answers), job) && Answered(setup, s, answers).world.posts == posts
    decreases Remaining(s.process)
  {
    if s.process.Idle? {
      answers := [];
    } else {
      var answer := StepTowardsEnd(setup, s, job, posts, listing);
      var rest := RecoveryFinishesWith(setup, Next(setup, s, Proceed(answer)), job, posts, listing);
      answers := [answer] + rest;
      assert answers[1..] == rest;
      AnswersGrow(answer, rest, listing);
    }
  }

  ghost predicate AllAnswers(answers: seq<Answer>, listing: Answer) {
    forall i :: 0 <= i < |answers| ==> Answers(answers[i], listing)
  }

  lemma {:induction false} AnswersGrow(answer: Answer, answers: seq<Answer>, listing: Answer)
    requires Answers(answer, listing) && AllAnswers(answers, listing)
    ensures AllAnswers([answer] + answers, listing)
  {
  }

  lemma {:induction false} StepTowardsEnd(setup: Setup, s: System, job: Job, posts: seq<ClientId>, listing: Answer)
    returns (answer: Answer)
    requires Safe(setup, s) && job.Recover? && OnTrack(s, job, posts) && s.process.Running?
    requires listing.Projections? && (Remaining(s.process) > 1 ==> Storable(s.journal, listing))
    ensures Answers(answer, listing)
    ensures var next := Next(setup, s, Proceed(answer));
            && Safe(setup, next) && OnTrack(next, job, posts) && Remaining(next.process) < Remaining(s.process)
            && (Remaining(next.process) > 1 ==> Storable(next.journal, listing))
  {
    answer := SomeAnswerAdvances(setup, s, job, posts, listing);
    StepKeepsSafe(setup, s, Proceed(answer));
    StepStaysOnTrack(setup, s, job, Proceed(answer), posts);
    StillStorable(setup, s, job, answer, listing);
  }

  lemma {:induction false} StillStorable(setup: Setup, s: System, job: Job, answer: Answer, listing: Answer)
    requires s.process.Running? && s.process.job == job && job.Recover? && !answer.Fails? && listing.Projections?
    requires Remaining(s.process) > 1 ==> Storable(s.journal, listing)
    requires Remaining(Next(setup, s, Proceed(answer)).process) < Remaining(s.process)
    ensures Remaining(Next(setup, s, Proceed(answer)).process) > 1 ==> Storable(Next(setup, s, Proceed(answer)).journal, listing)
  {
    var stage := s.process.stage;
    assert Next(setup, s, Proceed(answer)) == ProcessStep(setup, s, job, stage, answer);
    if !stage.CommitReads? { StepKeepsOrders(setup, s, job, stage, answer); }
  }

  /** A listing that carries the recovered order, no older than what is stored of it. */
  ghost predicate ListsOrder(s: System, client: ClientId, listing: Answer) {
    && listing.Projections? && client in s.world.orders
    && exists order :: order in listing.orders && order.clientId == client && order.brokerId == s.world.orders[client]
  }

  /** In particular with the listing of a reconciliation, which always carries the recovered order. */
  lemma {:induction false} RecoveryCanFinish(setup: Setup, s: System, job: Job, posts: seq<ClientId>, order: OrderSnapshot)
    returns (answers: seq<Answer>)
    requires Safe(setup, s) && job.Recover? && OnTrack(s, job, posts)
    requires order.clientId == job.client && order.brokerId == s.world.orders[job.client]
    ensures |answers| <= Remaining(s.process)
    ensures forall i :: 0 <= i < |answers| && answers[i].Projections? ==> ListsOrder(s, job.client, answers[i])
    ensures Recovered(Answered(setup, s, answers), job) && Answered(setup, s, answers).world.posts == posts
  {
    var stored := s.journal.orders;
    var latest := if order.brokerId in stored && stored[order.brokerId].updatedAt > order.updatedAt
                  then order.(updatedAt := stored[order.brokerId].updatedAt) else order;
    var listing := Projections([latest], [], true);
    assert [latest][1..] == [];
    assert latest in listing.orders;
    answers := RecoveryFinishesWith(setup, s, job, posts, listing);
  }

  ghost function Answered(setup: Setup, s: System, answers: seq<Answer>): System
    decreases |answers|
  {
    if answers == [] then s else Answered(setup, Next(setup, s, Proceed(answers[0])), answers[1..])
  }

  // ----- a recovery timed too early -----

  predicate RecoveryStage(stage: Stage) {
    || stage.PauseFirst? || stage.ReadEntry? || stage.VerifyRecovery? || stage.FindOrder? || stage.AcknowledgeFound?
    || stage.RecordNeverStarted? || stage.RequireReconciled? || (Reconciling(stage) && stage.purpose == Recovery)
  }

  /** The submission was created after the time of the call, and is unresolved or can no longer be read. */
  ghost predicate TooEarly(s: System, job: Job)
    requires job.Recover?
  {
    && job.client in s.journal.entries && job.timestamp < s.journal.entries[job.client].createdAt
    && (Unresolved(s.journal.entries[job.client]) || !ValidSubmission(s.journal.entries[job.client]))
    && match s.process
       case Idle(ending) => ending != Some(Completed)
       case Running(current, stage) => current == job && RecoveryStage(stage)
  }

  lemma {:induction false} ResolvedAtTimestamp(entries: map<ClientId, Submission>, resolutions: seq<Resolution>, timestamp: int,
                                               client: ClientId)
    requires client in entries && Resolve(entries, resolutions, timestamp).Ok?
    ensures var after := Resolve(entries, resolutions, timestamp).value;
            client in after && after[client].createdAt == entries[client].createdAt
            && (after[client] == entries[client] || after[client].updatedAt == timestamp)
    decreases |resolutions|
  {
    if resolutions != [] {
      ResolvedAtTimestamp(ResolveOne(entries, resolutions[0], timestamp).value, resolutions[1..], timestamp, client);
    }
  }

  lemma {:induction false} EarlyCommit(s: System, job: Job, stage: Stage, answer: Answer)
    requires job.Recover? && TooEarly(s, job) && s.process == Running(job, stage) && Reconciling(stage)
    ensures TooEarly(ReconcileStep(s, job, stage, answer), job)
  {
    if stage.CommitReads? && answer.Projections? {
      var commit := CommitOf(s.journal, job.timestamp, stage.resolutions, stage.fills, answer.orders, answer.positions);
      if ApplyCommit(s.journal, commit).Ok? {
        ResolvedAtTimestamp(s.journal.entries, stage.resolutions, job.timestamp, job.client);
      }
    }
  }

  lemma {:induction false} EarlyStep(setup: Setup, s: System, job: Job, action: Action)
    requires job.Recover? && TooEarly(s, job) && !action.Call?
    ensures TooEarly(Next(setup, s, action), job)
  {
    if action.Proceed? && s.process.Running? {
      var stage := s.process.stage;
      assert Next(setup, s, action) == ProcessStep(setup, s, job, stage, action.answer);
      if !action.answer.Fails? && Reconciling(stage) {
        EarlyCommit(s, job, stage, action.answer);
      }
    }
  }

  /** The condition on the timestamp is exact: a recovery timed before the creation of an unresolved submission never
      completes, whatever the broker answers. */
  lemma {:induction false} EarlyRecoveryNeverCompletes(setup: Setup, s: System, job: Job, actions: seq<Action>)
    requires job.Recover? && s.process == Running(job, PauseFirst) && job.client in s.journal.entries
    requires Unresolved(s.journal.entries[job.client]) && job.timestamp < s.journal.entries[job.client].createdAt
    requires forall i :: 0 <= i < |actions| ==> !actions[i].Call?
    ensures TooEarly(Run(setup, s, actions), job)
    ensures Run(setup, s, actions).process != Idle(Some(Completed))
  {
    if actions != [] {
      EarlyRecoveryNeverCompletes(setup, s, job, actions[..|actions| - 1]);
      EarlyStep(setup, Run(setup, s, actions[..|actions| - 1]), job, actions[|actions| - 1]);
    }
  }
}
