/**
 * The executor itself: it works on the journal, the operator store and the broker step by step, while others act on
 * the operator store and the broker in between. A ghost machine takes the protocol's step beside every one of its
 * own, so each call is a run of the protocol, and what holds of every run holds of these objects.
 */
module PaperExecutor {
  import opened Prelude
  import opened Brokerage
  import opened BrokerJournal
  import opened PaperProtocol
  import opened PaperSafety
  import opened OperatorControl
  import Reconciliation
  import MarketControls

  /** What the outside does before one step of the executor, how that step's call is answered, and what the broker
      shows to a reconciliation. */
  datatype Moment = Moment(outside: seq<Action>, answer: Answer, show: World -> Reconciliation.BrokerView)

  /** A broker that shows what it holds. */
  ghost predicate Conforms(view: Reconciliation.BrokerView, w: World) {
    && (forall c :: view.byClient(c).Found? ==> Shown(w, c) && view.byClient(c).order.brokerId == w.orders[c])
    && (forall c :: view.byClient(c).NotFound? ==> !Shown(w, c))
    && (forall k: nat :: view.streams(k) == w.stream)
  }

  ghost predicate Honest(moments: nat -> Moment) {
    forall n: nat, w: World :: Conforms(moments(n).show(w), w)
  }

  /** An end before anything was sent. */
  predicate Stops(ending: Ending) { ending == Blocked || ending == Raised }

  lemma {:induction false} RunOneMore(setup: Setup, s: System, actions: seq<Action>, action: Action)
    ensures Run(setup, s, actions + [action]) == Next(setup, Run(setup, s, actions), action)
  {
    assert (actions + [action])[..|actions|] == actions;
  }

  class PaperOrderExecutor {
    const setup: Setup
    const journal: SQLiteBrokerJournal
    const control: SQLiteOperatorControl
    const reconciler: Reconciliation.PaperReconciler
    const moments: nat -> Moment
    var clock: nat
    var world: World
    ghost const created: int
    ghost var machine: System
    ghost var history: seq<Action>

    /** The objects and the machine are in the same state, which the protocol can reach. */
    ghost predicate Mirrors()
      reads this, journal, control
    {
      && journal.Valid() && control.Valid() && control.namespace == setup.namespace
      && reconciler.Configured() && reconciler.journal == journal && Honest(moments)
      && machine.journal == journal.tables && machine.operator == control.View() && machine.world == world
      && machine == Run(setup, Initial(created), history)
    }

    ghost predicate Sits(job: Job, stage: Stage)
      reads this, journal, control
    {
      Mirrors() && machine.process == Running(job, stage)
    }

    ghost predicate Finished(ending: Ending)
      reads this, journal, control
    {
      Mirrors() && machine.process == Idle(Some(ending))
    }

    /** An executor is built over stores and a broker that some earlier run of the protocol left, idle or crashed. */
    constructor (setup: Setup, journal: SQLiteBrokerJournal, control: SQLiteOperatorControl,
                 reconciler: Reconciliation.PaperReconciler, moments: nat -> Moment, world: World,
                 ghost created: int, ghost history: seq<Action>)
      requires journal.Valid() && control.Valid() && control.namespace == setup.namespace
      requires reconciler.Configured() && reconciler.journal == journal && Honest(moments)
      requires var s := Run(setup, Initial(created), history);
               s.journal == journal.tables && s.operator == control.View() && s.world == world && s.process.Idle?
      ensures Mirrors() && machine.process.Idle? && this.journal == journal && this.control == control
      ensures this.setup == setup && this.created == created && this.history == history
    {
      this.setup, this.journal, this.control, this.reconciler := setup, journal, control, reconciler;
      this.moments, this.clock, this.world := moments, 0, world;
      this.created, this.history := created, history;
      this.machine := Run(setup, Initial(created), history);
    }

    /** The machine's side of one action. */
    ghost method Follow(action: Action)
      requires machine == Run(setup, Initial(created), history)
      modifies this`machine, this`history
      ensures machine == Next(setup, old(machine), action) && machine == Run(setup, Initial(created), history)
    {
      RunOneMore(setup, Initial(created), history, action);
      machine, history := Next(setup, machine, action), history + [action];
    }

    method Operate(command: Command)
      requires Mirrors()
      modifies control, this`machine, this`history
      ensures Mirrors() && machine.process == old(machine.process) && machine.journal == old(machine.journal)
      ensures world == old(world)
    {
      var error;
      match command {
        case Pause(at, code, reason) => error := control.Pause(at, code, reason);
        case Resume(approval, fingerprint, at, reason) => error := control.Resume(approval, fingerprint, at, reason);
        case Begin(approval, action, fingerprint, at) => error := control.BeginAction(approval, action, fingerprint, at);
        case Complete(id, succeeded, at, summary) => error := control.CompleteAction(id, succeeded, at, summary);
      }
      Follow(OperatorCall(command));
    }

    method Trade(action: Action)
      requires Mirrors() && !action.OperatorCall? && !action.Crash? && !action.Call? && !action.Proceed?
      modifies this`world, this`machine, this`history
      ensures Mirrors() && machine.process == old(machine.process) && machine.journal == old(machine.journal)
      ensures world.posts == old(world.posts)
    {
      world := BrokerStep(setup, world, action);
      Follow(action);
    }

    /** Let the operator and the broker act, then look at how the next call is answered. */
    method Outside() returns (answer: Answer)
      requires Mirrors()
      modifies control, this`clock, this`world, this`machine, this`history
      ensures Mirrors() && machine.process == old(machine.process) && machine.journal == old(machine.journal)
      ensures world.posts == old(world.posts)
    {
      var moment := moments(clock);
      clock := clock + 1;
      for i := 0 to |moment.outside|
        invariant Mirrors() && machine.process == old(machine.process) && machine.journal == old(machine.journal)
        invariant world.posts == old(world.posts)
      {
        var action := moment.outside[i];
        match action {
          case OperatorCall(command) => Operate(command);
          case Crash => continue;
          case Call(_) => continue;
          case Proceed(_) => continue;
          case _ => Trade(action);
        }
      }
      return moment.answer;
    }

    // ----- the machine's steps -----

    ghost method Fail(job: Job, stage: Stage)
      requires Sits(job, stage)
      modifies this`machine, this`history
      ensures machine == AfterFailure(old(machine), job, stage) && Mirrors()
      ensures machine.process == AfterFailure(machine, job, stage).process
    {
      FailureCases(machine, job, stage);
      FailOn(job, stage);
    }

    /** Come to a step: others act first, and then it may fail. */
    method Enter(job: Job, stage: Stage) returns (answer: Answer)
      requires Sits(job, stage)
      modifies control, this`clock, this`world, this`machine, this`history
      ensures Mirrors() && machine.journal == old(machine.journal) && world.posts == old(world.posts)
      ensures machine.process == if answer.Fails? then AfterFailure(machine, job, stage).process else Running(job, stage)
    {
      answer := Outside();
      if answer.Fails? {
        FailureCases(machine, job, stage);
        Fail(job, stage);
      }
    }

    ghost method FailOn(job: Job, stage: Stage)
      requires machine.process == Running(job, stage) && machine == Run(setup, Initial(created), history)
      modifies this`machine, this`history
      ensures machine == AfterFailure(old(machine), job, stage) && machine == Run(setup, Initial(created), history)
    {
      Follow(Proceed(Fails));
    }

    ghost method FailReconcile(job: Job, purpose: Purpose)
      requires Sits(job, LookUpRows(purpose))
      modifies this`machine, this`history
      ensures Mirrors() && machine.process == ReconcileFailed(machine, job, purpose).process
    {
      Fail(job, LookUpRows(purpose));
    }

    ghost method AssessOn(job: Job, stage: Stage, answer: Answer)
      requires machine.process == Running(job, stage) && machine == Run(setup, Initial(created), history)
      requires job.Execute? && Assessing(stage) && !answer.Fails?
      modifies this`machine, this`history
      ensures machine == AssessStep(setup, old(machine), job, stage, answer) && machine == Run(setup, Initial(created), history)
    {
      Follow(Proceed(answer));
    }

    ghost method SubmitOn(job: Job, stage: Stage, answer: Answer)
      requires machine.process == Running(job, stage) && machine == Run(setup, Initial(created), history)
      requires job.Execute? && !Assessing(stage) && !Reconciling(stage) && !stage.RequireReconciled? && !stage.PauseAnd?
      requires !answer.Fails?
      modifies this`machine, this`history
      ensures machine == SubmitStep(old(machine), job, stage, answer) && machine == Run(setup, Initial(created), history)
    {
      Follow(Proceed(answer));
    }

    ghost method WriteOn(job: Job, stage: Stage, client: ClientId, state: SubmissionState, broker: Option<BrokerId>,
                         reason: Option<string>, next: Process)
      requires machine.process == Running(job, stage) && machine == Run(setup, Initial(created), history)
      requires StepWrites(setup, job, stage, client, state, broker, reason, next)
      modifies this`machine, this`history
      ensures machine == Written(old(machine), job, client, state, broker, reason, next, stage)
      ensures machine == Run(setup, Initial(created), history)
    {
      assert ProcessStep(setup, machine, job, stage, Proceeds) == Written(machine, job, client, state, broker, reason, next, stage);
      Follow(Proceed(Proceeds));
    }

    ghost method RecoverOn(job: Job, stage: Stage)
      requires machine.process == Running(job, stage) && machine == Run(setup, Initial(created), history)
      requires job.Recover? && !Reconciling(stage) && !stage.RequireReconciled? && !stage.PauseAnd?
      modifies this`machine, this`history
      ensures machine == RecoverStep(old(machine), job, stage) && machine == Run(setup, Initial(created), history)
    {
      Follow(Proceed(Proceeds));
    }

    ghost method FinishOn(job: Job, stage: Stage)
      requires machine.process == Running(job, stage) && machine == Run(setup, Initial(created), history)
      requires stage.RequireReconciled? || stage.PauseAnd?
      modifies this`machine, this`history
      ensures machine == FinishStep(old(machine), job, stage) && machine == Run(setup, Initial(created), history)
    {
      Follow(Proceed(Proceeds));
    }

    ghost method ReconcileOn(job: Job, stage: Stage, answer: Answer)
      requires machine.process == Running(job, stage) && machine == Run(setup, Initial(created), history)
      requires Reconciling(stage) && !answer.Fails?
      modifies this`machine, this`history
      ensures machine == ReconcileStep(old(machine), job, stage, answer) && machine == Run(setup, Initial(created), history)
    {
      Follow(Proceed(answer));
    }

    /** The three protocol steps that one uninterrupted reconciliation amounts to. */
    ghost method FollowReconcile(job: Job, purpose: Purpose, commit: Commit, ready: bool)
      requires machine.process == Running(job, LookUpRows(purpose)) && machine == Run(setup, Initial(created), history)
      requires AllReadable(Rows(machine.journal)) && commit.resolutions == Resolutions(Rows(machine.journal), machine.world)
      requires CouldRead(machine.journal, machine.world.stream, |machine.world.stream|, commit.fills)
      requires commit == CommitOf(machine.journal, job.timestamp, commit.resolutions, commit.fills, commit.orders, commit.positions)
      requires ApplyCommit(machine.journal, commit).Ok?
      modifies this`machine, this`history
      ensures ReconciledTo(old(machine), machine, job, purpose, commit, ready)
      ensures machine == Run(setup, Initial(created), history)
    {
      ReadOn(job, purpose, commit);
      CommitOn(job, purpose, commit, |machine.world.stream|, ready);
    }

    ghost method ReadOn(job: Job, purpose: Purpose, commit: Commit)
      requires machine.process == Running(job, LookUpRows(purpose)) && machine == Run(setup, Initial(created), history)
      requires AllReadable(Rows(machine.journal)) && commit.resolutions == Resolutions(Rows(machine.journal), machine.world)
      requires CouldRead(machine.journal, machine.world.stream, |machine.world.stream|, commit.fills)
      modifies this`machine, this`history
      ensures machine == Goto(old(machine), job, CommitReads(purpose, commit.resolutions, |machine.world.stream|, commit.fills))
      ensures machine == Run(setup, Initial(created), history)
    {
      ReconcileOn(job, LookUpRows(purpose), Proceeds);
      ReconcileOn(job, ReadFills(purpose, commit.resolutions), Fills(|machine.world.stream|, commit.fills));
    }

    ghost method CommitOn(job: Job, purpose: Purpose, commit: Commit, upTo: nat, ready: bool)
      requires machine.process == Running(job, CommitReads(purpose, commit.resolutions, upTo, commit.fills))
      requires machine == Run(setup, Initial(created), history) && ApplyCommit(machine.journal, commit).Ok?
      requires commit == CommitOf(machine.journal, job.timestamp, commit.resolutions, commit.fills, commit.orders, commit.positions)
      modifies this`machine, this`history
      ensures ReconciledTo(old(machine), machine, job, purpose, commit, ready)
      ensures machine == Run(setup, Initial(created), history)
    {
      CommitLeads(machine, job, purpose, commit, upTo, ready);
      ReconcileOn(job, CommitReads(purpose, commit.resolutions, upTo, commit.fills),
                  Projections(commit.orders, commit.positions, ready));
    }

    // ----- shared steps -----

    /** Pause the operator store and end the job. */
    method PauseWith(job: Job, ending: Ending) returns (end: Ending)
      requires Sits(job, PauseAnd(ending))
      modifies control, this`clock, this`world, this`machine, this`history
      ensures Finished(end) && world.posts == old(world.posts)
      ensures end == Raised || (end == ending && control.View().Paused())
    {
      var answer := Enter(job, PauseAnd(ending));
      if answer.Fails? {
        return Raised;
      }
      PauseKeepsStore(control.View(), job.timestamp);
      var error := control.Pause(job.timestamp, PauseCode, PauseCode);
      FinishOn(job, PauseAnd(ending));
      return ending;
    }

    /** One whole reconciliation through the reconciler; `None` is a raised error. */
    method Reconcile(job: Job, purpose: Purpose) returns (report: Option<Reconciliation.Report>)
      requires Sits(job, LookUpRows(purpose))
      modifies control, journal, this`clock, this`world, this`machine, this`history
      ensures Mirrors() && world.posts == old(world.posts)
      ensures match report
              case None => machine.process == ReconcileFailed(machine, job, purpose).process
              case Some(value) => machine.process == AfterReconcile(machine, job, purpose, value.ready).process
    {
      var answer := Outside();
      if answer.Fails? {
        FailReconcile(job, purpose);
        return None;
      }
      report := ReconcileNow(job, purpose);
    }

    method ReconcileNow(job: Job, purpose: Purpose) returns (report: Option<Reconciliation.Report>)
      requires Sits(job, LookUpRows(purpose))
      modifies journal, this`machine, this`history
      ensures Mirrors()
      ensures match report
              case None => machine.process == ReconcileFailed(machine, job, purpose).process
              case Some(value) => machine.process == AfterReconcile(machine, job, purpose, value.ready).process
    {
      var result, commit := CallReconciler(job);
      if result.Err? {
        FailReconcile(job, purpose);
        return None;
      }
      FollowReconcile(job, purpose, commit, result.value.ready);
      return Some(result.value);
    }

    method CallReconciler(job: Job)
      returns (result: Result<Reconciliation.Report, Reconciliation.ReconcileError>, ghost commit: Commit)
      requires Mirrors()
      modifies journal
      ensures journal.Valid()
      ensures result.Err? ==> journal.tables == machine.journal
      ensures result.Ok? ==>
                && ApplyCommit(machine.journal, commit) == Ok(journal.tables)
                && AllReadable(Rows(machine.journal)) && commit.resolutions == Resolutions(Rows(machine.journal), machine.world)
                && CouldRead(machine.journal, machine.world.stream, |machine.world.stream|, commit.fills)
                && commit == CommitOf(machine.journal, job.timestamp, commit.resolutions, commit.fills, commit.orders, commit.positions)
    {
      commit := Commit([], [], [], [], None, 0);
      EveryRunIsSafe(setup, created, history);
      var view := moments(clock).show(world);
      ghost var gathered, pages;
      result, gathered, pages := reconciler.Reconcile(view, job.timestamp);
      if result.Ok? {
        commit := gathered.value.commit;
        ReadsMatch(setup, machine, view, job.timestamp, gathered.value, pages);
      }
    }

    /** The durable state after a reconciliation decides how a submission or a recovery ends. */
    method RequireReconciled(job: Job, ready: bool) returns (ending: Ending)
      requires Sits(job, Stage.RequireReconciled(ready))
      modifies control, this`clock, this`world, this`machine, this`history
      ensures Finished(ending) && world.posts == old(world.posts)
      ensures ending == Ending.Completed ==> InState(journal.tables, Client(job), SubmissionState.Reconciled)
      ensures job.Execute? && ending == Uncertain ==> control.View().Paused()
      ensures ending != RejectedByBroker
    {
      var answer := Enter(job, Stage.RequireReconciled(ready));
      if answer.Fails? {
        return Raised;
      }
      ending := ConfirmStored(job, ready);
    }

    method ConfirmStored(job: Job, ready: bool) returns (ending: Ending)
      requires Sits(job, Stage.RequireReconciled(ready))
      modifies control, this`clock, this`world, this`machine, this`history
      ensures Finished(ending) && world.posts == old(world.posts)
      ensures ending == Ending.Completed ==> InState(journal.tables, Client(job), SubmissionState.Reconciled)
      ensures job.Execute? && ending == Uncertain ==> control.View().Paused()
      ensures ending != RejectedByBroker
    {
      var found := journal.SubmissionByClientId(Client(job));
      FinishOn(job, Stage.RequireReconciled(ready));
      if found.Err? || found.value.None? {
        return Raised;
      }
      if found.value.value.state != SubmissionState.Reconciled {
        if job.Execute? {
          ending := PauseWith(job, Uncertain);
          return;
        }
        return Uncertain;
      }
      if job.Execute? && !ready {
        ending := PauseWith(job, Blocked);
        return;
      }
      return Ending.Completed;
    }

    // ----- assessment -----

    method CheckUnresolved(job: Job) returns (stop: Option<Ending>)
      requires job.Execute? && Sits(job, Stage.CheckUnresolved)
      modifies control, this`clock, this`world, this`machine, this`history
      ensures if stop.Some? then Finished(stop.value) && Stops(stop.value) else Sits(job, Stage.CheckUnknown)
    {
      var answer := Enter(job, Stage.CheckUnresolved);
      if answer.Fails? {
        return Some(Raised);
      }
      stop := ReadUnresolved(job);
    }

    method ReadUnresolved(job: Job) returns (stop: Option<Ending>)
      requires job.Execute? && Sits(job, Stage.CheckUnresolved)
      modifies control, this`clock, this`world, this`machine, this`history
      ensures if stop.Some? then Finished(stop.value) && Stops(stop.value) else Sits(job, Stage.CheckUnknown)
    {
      var rows := journal.UnresolvedSubmissions();
      RowsAreUnresolved(journal.tables);
      AssessOn(job, Stage.CheckUnresolved, Proceeds);
      if rows.Err? {
        return Some(Raised);
      }
      if rows.value != [] {
        var ending := PauseWith(job, Blocked);
        return Some(ending);
      }
      return None;
    }

    method CheckUnknown(job: Job) returns (stop: Option<Ending>)
      requires job.Execute? && Sits(job, Stage.CheckUnknown)
      modifies control, this`clock, this`world, this`machine, this`history
      ensures if stop.Some? then Finished(stop.value) && Stops(stop.value) else Sits(job, Stage.VerifyContext)
    {
      var answer := Enter(job, Stage.CheckUnknown);
      if answer.Fails? {
        return Some(Raised);
      }
      var found := journal.SubmissionByClientId(job.order.clientId);
      AssessOn(job, Stage.CheckUnknown, answer);
      if found.Err? {
        return Some(Raised);
      }
      return if found.value.Some? then Some(Blocked) else None;
    }

    method VerifyContext(job: Job) returns (stop: Option<Ending>)
      requires job.Execute? && Sits(job, Stage.VerifyContext)
      modifies control, this`clock, this`world, this`machine, this`history
      ensures if stop.Some? then Finished(stop.value) && Stops(stop.value) else Sits(job, Stage.CheckPaused)
    {
      var answer := Enter(job, Stage.VerifyContext);
      if answer.Fails? {
        return Some(Blocked);
      }
      AssessOn(job, Stage.VerifyContext, answer);
      return None;
    }

    method CheckPaused(job: Job) returns (stop: Option<Ending>)
      requires job.Execute? && Sits(job, Stage.CheckPaused)
      modifies control, this`clock, this`world, this`machine, this`history
      ensures if stop.Some? then Finished(stop.value) && Stops(stop.value) else Sits(job, LookUpRows(Pretrade))
    {
      var answer := Enter(job, Stage.CheckPaused);
      if answer.Fails? {
        return Some(Raised);
      }
      var state := control.CurrentState();
      AssessOn(job, Stage.CheckPaused, answer);
      return if state.paused then Some(Blocked) else None;
    }

    method Decide(job: Job) returns (stop: Option<Ending>, day: MarketControls.CalendarDay)
      requires job.Execute? && Sits(job, Stage.Decide)
      modifies control, this`clock, this`world, this`machine, this`history
      ensures if stop.Some? then Finished(stop.value) && Stops(stop.value) else Sits(job, Stage.CheckPausedAgain(day))
    {
      day := MarketControls.CalendarDay(0, 0, 0);
      var answer := Outside();
      if answer.Denied? {
        AssessOn(job, Stage.Decide, answer);
        return Some(Blocked), day;
      }
      if !answer.View? {
        Fail(job, Stage.Decide);
        return Some(Raised), day;
      }
      stop := Weigh(job, answer.state);
      return stop, answer.state.calendar;
    }

    /** The controls, evaluated on what the market showed and on every submission the journal holds. */
    method Weigh(job: Job, shown: MarketControls.PretradeState) returns (stop: Option<Ending>)
      requires job.Execute? && Sits(job, Stage.Decide)
      modifies this`machine, this`history
      ensures if stop.Some? then Finished(stop.value) && Stops(stop.value) else Sits(job, Stage.CheckPausedAgain(shown.calendar))
    {
      var times := journal.SubmissionTimestamps();
      RowsAreUnresolved(journal.tables);
      var state := shown.(order := job.order, now := job.timestamp, submissionTimestamps := times);
      if !MarketControls.ValidState(state) {
        Fail(job, Stage.Decide);
        return Some(Raised);
      }
      stop := Evaluate(job, state);
    }

    method Evaluate(job: Job, state: MarketControls.PretradeState) returns (stop: Option<Ending>)
      requires job.Execute? && Sits(job, Stage.Decide) && MarketControls.ValidState(state)
      requires state.order == job.order && state.now == job.timestamp && state.submissionTimestamps == Times(journal.tables)
      modifies this`machine, this`history
      ensures if stop.Some? then Finished(stop.value) && Stops(stop.value) else Sits(job, Stage.CheckPausedAgain(state.calendar))
    {
      var decision := MarketControls.EvaluatePaperPretrade(state, setup.limits);
      DecisionLeads(setup, machine, job, state);
      AssessOn(job, Stage.Decide, View(state));
      return if decision.allowed then None else Some(Blocked);
    }

    method CheckPausedAgain(job: Job, day: MarketControls.CalendarDay) returns (stop: Option<Ending>)
      requires job.Execute? && Sits(job, Stage.CheckPausedAgain(day))
      modifies control, this`clock, this`world, this`machine, this`history
      ensures if stop.Some? then Finished(stop.value) && Stops(stop.value) else Sits(job, Stage.PersistOrder(day))
    {
      var answer := Enter(job, Stage.CheckPausedAgain(day));
      if answer.Fails? {
        return Some(Raised);
      }
      var state := control.CurrentState();
      AssessOn(job, Stage.CheckPausedAgain(day), answer);
      return if state.paused then Some(Blocked) else None;
    }

    method PersistOrder(job: Job, day: MarketControls.CalendarDay) returns (stop: Option<Ending>)
      requires job.Execute? && Sits(job, Stage.PersistOrder(day))
      modifies control, journal, this`clock, this`world, this`machine, this`history
      ensures if stop.Some? then Finished(stop.value) && Stops(stop.value) else Sits(job, CheckAfterPersist)
    {
      var answer := Enter(job, Stage.PersistOrder(day));
      if answer.Fails? {
        return Some(Raised);
      }
      var entry := journal.PersistApprovedOrder(job.order, setup.hash(job.order), job.timestamp);
      AssessOn(job, Stage.PersistOrder(day), answer);
      return if entry.Err? then Some(Raised) else None;
    }

    // ----- submission -----

    /** The two looks at the pause switch between recording and sending. */
    method PauseGate(job: Job, stage: Stage) returns (stop: Option<Ending>)
      requires job.Execute? && Sits(job, stage) && (stage == CheckAfterPersist || stage == CheckAfterStart)
      modifies control, journal, this`clock, this`world, this`machine, this`history
      ensures if stop.Some? then Finished(stop.value) && Stops(stop.value)
              else Sits(job, if stage == CheckAfterPersist then Stage.StartSubmission else Stage.VerifyBeforeSubmit)
    {
      var answer := Enter(job, stage);
      if answer.Fails? {
        return Some(Raised);
      }
      var state := control.CurrentState();
      SubmitOn(job, stage, answer);
      if state.paused {
        var ending := RecordPaused(job);
        return Some(ending);
      }
      return None;
    }

    /** A submission write and the protocol step it is. */
    method Write(job: Job, stage: Stage, client: ClientId, state: SubmissionState, broker: Option<BrokerId>,
                 reason: Option<string>, ghost next: Process)
      returns (ok: bool)
      requires Sits(job, stage) && StepWrites(setup, job, stage, client, state, broker, reason, next)
      modifies control, journal, this`clock, this`world, this`machine, this`history
      ensures Mirrors() && world.posts == old(world.posts)
      ensures machine.process == if ok then next else AfterFailure(machine, job, stage).process
    {
      var answer := Enter(job, stage);
      if answer.Fails? {
        return false;
      }
      ok := WriteNow(job, stage, client, state, broker, reason, next);
    }

    method WriteNow(job: Job, stage: Stage, client: ClientId, state: SubmissionState, broker: Option<BrokerId>,
                    reason: Option<string>, ghost next: Process)
      returns (ok: bool)
      requires Sits(job, stage) && StepWrites(setup, job, stage, client, state, broker, reason, next)
      modifies journal, this`machine, this`history
      ensures Mirrors()
      ensures machine.process == if ok then next else AfterFailure(machine, job, stage).process
    {
      var written := journal.TransitionSubmission(client, state, job.timestamp, broker, reason);
      ghost var before := machine;
      WriteOn(job, stage, client, state, broker, reason, next);
      WrittenCases(before, job, client, state, broker, reason, next, stage);
      return written.Ok?;
    }

    method RecordPaused(job: Job) returns (ending: Ending)
      requires job.Execute? && Sits(job, Stage.RecordPaused)
      modifies control, journal, this`clock, this`world, this`machine, this`history
      ensures Finished(ending) && Stops(ending)
    {
      var ok := Write(job, Stage.RecordPaused, job.order.clientId, Rejected, None, Some(PausedReason), Idle(Some(Blocked)));
      return if ok then Blocked else Raised;
    }

    method StartSubmission(job: Job) returns (stop: Option<Ending>)
      requires job.Execute? && Sits(job, Stage.StartSubmission)
      modifies control, journal, this`clock, this`world, this`machine, this`history
      ensures if stop.Some? then Finished(stop.value) && Stops(stop.value) else Sits(job, CheckAfterStart)
    {
      var ok := Write(job, Stage.StartSubmission, job.order.clientId, Started, None, Some(job.attempt), Running(job, CheckAfterStart));
      return if ok then None else Some(Raised);
    }

    /** One submission: look the id up, send it at most once, and look it up again when the answer is not a success. */
    method SubmitOnce(job: Job) returns (found: Option<BrokerId>, refused: bool)
      requires job.Execute? && Sits(job, Stage.VerifyBeforeSubmit)
      modifies control, this`clock, this`world, this`machine, this`history
      ensures Sits(job, if found.Some? then AcknowledgeOrder(found.value) else if refused then Stage.RecordRejected else Stage.RecordAmbiguous)
    {
      refused := false;
      var ok := VerifyBeforeSubmit(job);
      if !ok {
        return None, false;
      }
      ok, found := LookUpExisting(job);
      if !ok || found.Some? {
        return found, false;
      }
      ok := Send(job);
      if ok {
        ok, found, refused := Await(job);
        if !ok || found.Some? {
          return found, false;
        }
      }
      ok, found := LookUpAfterFailure(job, refused);
      return found, ok && refused;
    }

    method VerifyBeforeSubmit(job: Job) returns (ok: bool)
      requires job.Execute? && Sits(job, Stage.VerifyBeforeSubmit)
      modifies control, this`clock, this`world, this`machine, this`history
      ensures Sits(job, if ok then Stage.LookUpExisting else Stage.RecordAmbiguous)
    {
      var answer := Enter(job, Stage.VerifyBeforeSubmit);
      if answer.Fails? {
        return false;
      }
      SubmitOn(job, Stage.VerifyBeforeSubmit, answer);
      return true;
    }

    method LookUpExisting(job: Job) returns (ok: bool, found: Option<BrokerId>)
      requires job.Execute? && Sits(job, Stage.LookUpExisting)
      modifies control, this`clock, this`world, this`machine, this`history
      ensures Sits(job, if !ok then Stage.RecordAmbiguous else if found.Some? then AcknowledgeOrder(found.value) else Post)
      ensures !ok ==> found.None?
    {
      var answer := Enter(job, Stage.LookUpExisting);
      if answer.Fails? {
        return false, None;
      }
      SubmitOn(job, Stage.LookUpExisting, answer);
      return true, LookUp(job.order.clientId);
    }

    function LookUp(client: ClientId): Option<BrokerId>
      reads this
    {
      if Shown(world, client) then Some(world.orders[client]) else None
    }

    /** The request itself. */
    method Send(job: Job) returns (ok: bool)
      requires job.Execute? && Sits(job, Post)
      modifies control, this`clock, this`world, this`machine, this`history
      ensures Sits(job, if ok then AwaitResponse else Stage.LookUpAfterFailure(false))
      ensures ok ==> world.posts == old(world.posts) + [job.order.clientId]
      ensures !ok ==> world.posts == old(world.posts)
    {
      var answer := Enter(job, Post);
      if answer.Fails? {
        return false;
      }
      var client := job.order.clientId;
      world := world.(posts := world.posts + [client], inFlight := world.inFlight + {client});
      SubmitOn(job, Post, answer);
      return true;
    }

    /** The answer the broker can truly give: acceptance of an order it holds, refusal of one that can never exist. */
    function Response(client: ClientId, answer: Answer): Answer
      reads this
    {
      match answer
      case Fails => Fails
      case Accepted(broker) => if client in world.orders && world.orders[client] == broker then answer else Unclear
      case Refused => if client !in world.orders && client !in world.inFlight then answer else Unclear
      case _ => Unclear
    }

    method Await(job: Job) returns (ok: bool, found: Option<BrokerId>, refused: bool)
      requires job.Execute? && Sits(job, AwaitResponse)
      modifies control, this`clock, this`world, this`machine, this`history
      ensures Sits(job, if !ok then Stage.RecordAmbiguous else if found.Some? then AcknowledgeOrder(found.value)
                        else Stage.LookUpAfterFailure(refused))
      ensures !ok ==> found.None?
    {
      var answer := Outside();
      var response := Response(job.order.clientId, answer);
      if response.Fails? {
        Fail(job, AwaitResponse);
        return false, None, false;
      }
      SubmitOn(job, AwaitResponse, response);
      return true, if response.Accepted? then Some(response.broker) else None, response.Refused?;
    }

    method LookUpAfterFailure(job: Job, refused: bool) returns (ok: bool, found: Option<BrokerId>)
      requires job.Execute? && Sits(job, Stage.LookUpAfterFailure(refused))
      modifies control, this`clock, this`world, this`machine, this`history
      ensures Sits(job, if ok && found.Some? then AcknowledgeOrder(found.value)
                        else if ok && refused then Stage.RecordRejected else Stage.RecordAmbiguous)
      ensures !ok ==> found.None?
    {
      var answer := Enter(job, Stage.LookUpAfterFailure(refused));
      if answer.Fails? {
        return false, None;
      }
      SubmitOn(job, Stage.LookUpAfterFailure(refused), answer);
      return true, LookUp(job.order.clientId);
    }

    method Acknowledge(job: Job, broker: BrokerId) returns (ok: bool)
      requires job.Execute? && Sits(job, AcknowledgeOrder(broker))
      modifies control, journal, this`clock, this`world, this`machine, this`history
      ensures Sits(job, if ok then AfterAcknowledged else Stage.RecordAmbiguous)
    {
      ok := Write(job, AcknowledgeOrder(broker), job.order.clientId, Acknowledged, Some(broker), None, Running(job, AfterAcknowledged));
    }

    method PassAcknowledged(job: Job) returns (ok: bool)
      requires job.Execute? && Sits(job, AfterAcknowledged)
      modifies control, this`clock, this`world, this`machine, this`history
      ensures Sits(job, if ok then LookUpRows(PostSubmit) else Stage.RecordAmbiguous)
    {
      var answer := Enter(job, AfterAcknowledged);
      if answer.Fails? {
        return false;
      }
      SubmitOn(job, AfterAcknowledged, answer);
      return true;
    }

    method RecordRejected(job: Job) returns (ending: Ending)
      requires job.Execute? && Sits(job, Stage.RecordRejected)
      modifies control, journal, this`clock, this`world, this`machine, this`history
      ensures Finished(ending) && (ending == Raised || (ending == RejectedByBroker && control.View().Paused()))
    {
      var ok := Write(job, Stage.RecordRejected, job.order.clientId, Rejected, None, Some(RejectedReason), Running(job, PauseAnd(RejectedByBroker)));
      if !ok {
        return Raised;
      }
      ending := PauseWith(job, RejectedByBroker);
    }

    /** Doubt is recorded if the journal allows it, and the store is paused in any case. */
    method RecordAmbiguous(job: Job) returns (ending: Ending)
      requires job.Execute? && Sits(job, Stage.RecordAmbiguous)
      modifies control, journal, this`clock, this`world, this`machine, this`history
      ensures Finished(ending) && (ending == Raised || (ending == Uncertain && control.View().Paused()))
    {
      var ok := Write(job, Stage.RecordAmbiguous, job.order.clientId, Ambiguous, None, Some(AmbiguousReason), Running(job, PauseAnd(Uncertain)));
      ending := PauseWith(job, if ok then Uncertain else Raised);
    }

    // ----- the two calls -----

    method Admit(job: Job) returns (stop: Option<Ending>)
      requires job.Execute? && Sits(job, Stage.CheckUnresolved)
      modifies control, this`clock, this`world, this`machine, this`history
      ensures if stop.Some? then Finished(stop.value) && Stops(stop.value) else Sits(job, LookUpRows(Pretrade))
    {
      stop := CheckUnresolved(job);
      if stop.Some? { return; }
      stop := CheckUnknown(job);
      if stop.Some? { return; }
      stop := VerifyContext(job);
      if stop.Some? { return; }
      stop := CheckPaused(job);
    }

    /** Everything up to the durable record of the order. */
    method Assess(job: Job) returns (stop: Option<Ending>)
      requires job.Execute? && Sits(job, Stage.CheckUnresolved)
      modifies control, journal, this`clock, this`world, this`machine, this`history
      ensures if stop.Some? then Finished(stop.value) && Stops(stop.value) else Sits(job, CheckAfterPersist)
    {
      stop := Admit(job);
      if stop.Some? { return; }
      var report := Reconcile(job, Pretrade);
      if report.None? { return Some(Raised); }
      if !report.value.ready { return Some(Blocked); }
      var day;
      stop, day := Decide(job);
      if stop.Some? { return; }
      stop := CheckPausedAgain(job, day);
      if stop.Some? { return; }
      stop := PersistOrder(job, day);
    }

    /** From the record to the request's outcome. */
    method Submit(job: Job) returns (stop: Option<Ending>)
      requires job.Execute? && Sits(job, CheckAfterPersist)
      modifies control, journal, this`clock, this`world, this`machine, this`history
      ensures if stop.Some? then Finished(stop.value) && PausedIfInDoubt(stop.value) && stop.value != Ending.Completed
              else Sits(job, LookUpRows(PostSubmit))
    {
      stop := PauseGate(job, CheckAfterPersist);
      if stop.Some? { return; }
      stop := StartSubmission(job);
      if stop.Some? { return; }
      stop := PauseGate(job, CheckAfterStart);
      if stop.Some? { return; }
      var found, refused := SubmitOnce(job);
      var ending;
      if found.None? && refused {
        ending := RecordRejected(job);
        return Some(ending);
      }
      var ok := false;
      if found.Some? {
        ok := Acknowledge(job, found.value);
        if ok { ok := PassAcknowledged(job); }
      }
      if !ok {
        ending := RecordAmbiguous(job);
        return Some(ending);
      }
      return None;
    }

    ghost predicate PausedIfInDoubt(ending: Ending)
      reads this, control
    {
      ending == Uncertain || ending == RejectedByBroker ==> IsPaused(control.View())
    }

    /** Submit one order through every durable boundary. However the call ends it is a run of the protocol; in doubt
        it ends paused, and a completed call leaves a reconciled submission with the broker's own order id. */
    method ExecuteOnce(order: ApprovedOrder, attempt: string, timestamp: int) returns (ending: Ending)
      requires Mirrors() && machine.process.Idle?
      requires Owned(order.clientId, setup.prefix) && ValidApproved(order)
      modifies control, journal, this`clock, this`world, this`machine, this`history
      ensures Finished(ending) && Safe(setup, machine) && PausedIfInDoubt(ending)
      ensures ending == Ending.Completed ==> InState(journal.tables, order.clientId, SubmissionState.Reconciled)
    {
      var job := Execute(order, attempt, timestamp);
      StartJob(job);
      ending := RunExecution(job);
      EveryRunIsSafe(setup, created, history);
    }

    ghost method StartJob(job: Job)
      requires Mirrors() && machine.process.Idle? && Startable(setup, job)
      modifies this`machine, this`history
      ensures Sits(job, First(job))
    {
      Follow(Call(job));
    }

    method RunExecution(job: Job) returns (ending: Ending)
      requires job.Execute? && Sits(job, Stage.CheckUnresolved)
      modifies control, journal, this`clock, this`world, this`machine, this`history
      ensures Finished(ending) && PausedIfInDoubt(ending)
      ensures ending == Ending.Completed ==> InState(journal.tables, job.order.clientId, SubmissionState.Reconciled)
    {
      var stop := Assess(job);
      if stop.Some? {
        return stop.value;
      }
      stop := Submit(job);
      if stop.Some? {
        return stop.value;
      }
      ending := Confirm(job);
    }

    /** Reconcile the acknowledged order. */
    method Confirm(job: Job) returns (ending: Ending)
      requires job.Execute? && Sits(job, LookUpRows(PostSubmit))
      modifies control, journal, this`clock, this`world, this`machine, this`history
      ensures Finished(ending) && PausedIfInDoubt(ending)
      ensures ending == Ending.Completed ==> InState(journal.tables, job.order.clientId, SubmissionState.Reconciled)
    {
      var report := Reconcile(job, PostSubmit);
      if report.None? {
        ending := PauseWith(job, Uncertain);
        return;
      }
      ending := RequireReconciled(job, report.value.ready);
    }

    // ----- recovery -----

    method PauseFirst(job: Job) returns (ok: bool)
      requires job.Recover? && Sits(job, Stage.PauseFirst)
      modifies control, this`clock, this`world, this`machine, this`history
      ensures if ok then Sits(job, ReadEntry) && IsPaused(control.View()) else Finished(Raised)
      ensures world.posts == old(world.posts)
    {
      var answer := Enter(job, Stage.PauseFirst);
      if answer.Fails? {
        return false;
      }
      PauseKeepsStore(control.View(), job.timestamp);
      var error := control.Pause(job.timestamp, PauseCode, PauseCode);
      RecoverOn(job, Stage.PauseFirst);
      return true;
    }

    method ReadStored(job: Job) returns (stop: Option<Ending>, state: SubmissionState)
      requires job.Recover? && Sits(job, ReadEntry)
      modifies control, this`clock, this`world, this`machine, this`history
      ensures if stop.Some? then Finished(stop.value) && stop.value != Ending.Completed else Sits(job, Stage.VerifyRecovery(state))
      ensures world.posts == old(world.posts)
    {
      state := Persisted;
      var answer := Enter(job, ReadEntry);
      if answer.Fails? {
        return Some(Raised), state;
      }
      var found := journal.SubmissionByClientId(job.client);
      RecoverOn(job, ReadEntry);
      if found.Err? {
        return Some(Raised), state;
      }
      if found.value.None? || found.value.value.payloadHash != job.expectedHash {
        return Some(Blocked), state;
      }
      state := found.value.value.state;
      return if state == Rejected then Some(RejectedByBroker) else None, state;
    }

    method VerifyRecovery(job: Job, state: SubmissionState) returns (ok: bool)
      requires job.Recover? && Sits(job, Stage.VerifyRecovery(state))
      modifies control, this`clock, this`world, this`machine, this`history
      ensures if ok then Sits(job, Stage.FindOrder(state)) else Finished(Raised)
      ensures world.posts == old(world.posts)
    {
      var answer := Enter(job, Stage.VerifyRecovery(state));
      if answer.Fails? {
        return false;
      }
      RecoverOn(job, Stage.VerifyRecovery(state));
      return true;
    }

    /** Ask the broker by client id; what was never started and is not there was never sent. */
    method FindOrder(job: Job, state: SubmissionState) returns (stop: Option<Ending>)
      requires job.Recover? && Sits(job, Stage.FindOrder(state))
      modifies control, journal, this`clock, this`world, this`machine, this`history
      ensures if stop.Some? then Finished(stop.value) && stop.value != Ending.Completed else Sits(job, LookUpRows(Recovery))
      ensures world.posts == old(world.posts)
    {
      var answer := Enter(job, Stage.FindOrder(state));
      if answer.Fails? {
        return Some(Raised);
      }
      var found := LookUp(job.client);
      RecoverOn(job, Stage.FindOrder(state));
      if found.None? {
        if state != Persisted {
          return Some(Uncertain);
        }
        var ending := RecordNeverStarted(job);
        return Some(ending);
      }
      if state == Started {
        var ok := AcknowledgeFound(job, found.value);
        return if ok then None else Some(Raised);
      }
      return None;
    }

    method RecordNeverStarted(job: Job) returns (ending: Ending)
      requires job.Recover? && Sits(job, Stage.RecordNeverStarted)
      modifies control, journal, this`clock, this`world, this`machine, this`history
      ensures Finished(ending) && ending != Ending.Completed && world.posts == old(world.posts)
    {
      var ok := Write(job, Stage.RecordNeverStarted, job.client, Rejected, None, Some(NeverStartedReason),
                      Idle(Some(RejectedByBroker)));
      return if ok then RejectedByBroker else Raised;
    }

    method AcknowledgeFound(job: Job, broker: BrokerId) returns (ok: bool)
      requires job.Recover? && Sits(job, Stage.AcknowledgeFound(broker))
      modifies control, journal, this`clock, this`world, this`machine, this`history
      ensures if ok then Sits(job, LookUpRows(Recovery)) else Finished(Raised)
      ensures world.posts == old(world.posts)
    {
      ok := Write(job, Stage.AcknowledgeFound(broker), job.client, Acknowledged, Some(broker), None,
                  Running(job, LookUpRows(Recovery)));
    }

    /** Resolve one durable crash state without ever sending anything. */
    method RecoverSubmission(client: ClientId, expectedHash: string, timestamp: int) returns (ending: Ending)
      requires Mirrors() && machine.process.Idle?
      modifies control, journal, this`clock, this`world, this`machine, this`history
      ensures Finished(ending) && Safe(setup, machine) && world.posts == old(world.posts)
      ensures ending == Ending.Completed ==> InState(journal.tables, client, SubmissionState.Reconciled)
    {
      var job := Recover(client, expectedHash, timestamp);
      StartJob(job);
      ending := RecoverStored(job);
      EveryRunIsSafe(setup, created, history);
    }

    /** Pause, read the stored submission, and find its order at the broker. */
    method Locate(job: Job) returns (stop: Option<Ending>)
      requires job.Recover? && Sits(job, Stage.PauseFirst)
      modifies control, journal, this`clock, this`world, this`machine, this`history
      ensures if stop.Some? then Finished(stop.value) && stop.value != Ending.Completed else Sits(job, LookUpRows(Recovery))
      ensures world.posts == old(world.posts)
    {
      var ok := PauseFirst(job);
      if !ok { return Some(Raised); }
      var state;
      stop, state := ReadStored(job);
      if stop.Some? { return; }
      ok := VerifyRecovery(job, state);
      if !ok { return Some(Raised); }
      stop := FindOrder(job, state);
    }

    method RecoverStored(job: Job) returns (ending: Ending)
      requires job.Recover? && Sits(job, Stage.PauseFirst)
      modifies control, journal, this`clock, this`world, this`machine, this`history
      ensures Finished(ending) && world.posts == old(world.posts)
      ensures ending == Ending.Completed ==> InState(journal.tables, job.client, SubmissionState.Reconciled)
    {
      var stop := Locate(job);
      if stop.Some? { return stop.value; }
      var report := Reconcile(job, Recovery);
      if report.None? { return Raised; }
      ending := RequireReconciled(job, report.value.ready);
    }
  }

  /** A protocol step that is one submission write. */
  ghost predicate StepWrites(setup: Setup, job: Job, stage: Stage, client: ClientId, state: SubmissionState,
                             broker: Option<BrokerId>, reason: Option<string>, next: Process) {
    forall s :: ProcessStep(setup, s, job, stage, Proceeds) == Written(s, job, client, state, broker, reason, next, stage)
  }

  lemma {:induction false} DecisionLeads(setup: Setup, s: System, job: Job, state: MarketControls.PretradeState)
    requires job.Execute? && MarketControls.ValidState(state) && state.order == job.order && state.now == job.timestamp
    requires state.submissionTimestamps == Times(s.journal)
    ensures AssessStep(setup, s, job, Stage.Decide, View(state))
            == if MarketControls.Permitted(state, setup.limits) then Goto(s, job, Stage.CheckPausedAgain(state.calendar))
               else Ended(s, Blocked)
  {
  }

  lemma {:induction false} WrittenCases(s: System, job: Job, client: ClientId, state: SubmissionState, broker: Option<BrokerId>,
                     reason: Option<string>, next: Process, stage: Stage)
    ensures var result, after := Transition(s.journal, client, state, job.timestamp, broker, reason),
                                 Written(s, job, client, state, broker, reason, next, stage);
            && after.operator == s.operator && after.world == s.world
            && after.journal == (if result.Ok? then result.value.0 else s.journal)
            && after.process == (if result.Ok? then next else AfterFailure(after, job, stage).process)
  {
    FailureCases(s, job, stage);
  }

  lemma {:induction false} FailureCases(s: System, job: Job, stage: Stage)
    ensures var after := AfterFailure(s, job, stage);
            && after.operator == s.operator && after.world == s.world && after.journal == s.journal
            && after.process == AfterFailure(after, job, stage).process
  {
  }

  /** A reconciliation that saw what the broker holds read what the protocol's reading steps read. */
  lemma {:induction false} ReadsMatch(setup: Setup, s: System, view: Reconciliation.BrokerView, timestamp: int,
                   gathered: Reconciliation.Gathered, pages: nat)
    requires Safe(setup, s) && Conforms(view, s.world)
    requires Reconciliation.ReadsFaithful(s.journal, view, timestamp, gathered, pages)
    ensures AllReadable(Rows(s.journal)) && gathered.commit.resolutions == Resolutions(Rows(s.journal), s.world)
    ensures CouldRead(s.journal, s.world.stream, |s.world.stream|, gathered.commit.fills)
    ensures gathered.commit == CommitOf(s.journal, timestamp, gathered.commit.resolutions, gathered.commit.fills,
                                        gathered.commit.orders, gathered.commit.positions)
  {
    var stream, commit := s.world.stream, gathered.commit;
    var start := Reconciliation.StartOf(stream, s.journal.checkpoint).value;
    RowsAreUnresolved(s.journal);
    ReadableRows(setup, s);
    assert view.streams(0) == stream == view.streams(pages);
    SameResolutions(Rows(s.journal), view, s.world);
    assert stream[..|stream|] == stream;
    LastTokenOfNormalized(stream, start, commit.fills, s.journal.checkpoint);
  }

  lemma {:induction false} ReadableRows(setup: Setup, s: System)
    requires Tables(setup, s)
    ensures AllReadable(Rows(s.journal))
  {
    var rows := Rows(s.journal);
    RowsAreUnresolved(s.journal);
    forall i | 0 <= i < |rows| ensures ValidSubmission(rows[i]) {
      assert rows[i] in rows;
      assert Agrees(setup, rows[i].order.clientId, s.journal.entries[rows[i].order.clientId], s.world);
    }
  }

  lemma {:induction false} SameResolutions(rows: seq<Submission>, view: Reconciliation.BrokerView, w: World)
    requires Conforms(view, w) && forall i :: 0 <= i < |rows| ==> !view.byClient(rows[i].order.clientId).Failed?
    ensures Reconciliation.ResolutionsOf(rows, view) == Resolutions(rows, w)
  {
    if rows != [] {
      SameResolutions(rows[..|rows| - 1], view, w);
      var client := rows[|rows| - 1].order.clientId;
      assert view.byClient(client).Found? || view.byClient(client).NotFound?;
    }
  }
}
