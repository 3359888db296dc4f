/** The order-rate limits hold of the durable journal, across crashes and rejected orders, not only of one call. */
module PaperRates {
  import opened Prelude
  import opened Brokerage
  import opened BrokerJournal
  import opened MarketControls
  import opened PaperProtocol
  import opened PaperSafety
  import PaperGuarantees
  import Reconciliation

  /** The timestamp of the latest execution that was called for. */
  function Latest(actions: seq<Action>): Option<int> {
    if actions == [] then None
    else
      var last := actions[|actions| - 1];
      if last.Call? && last.job.Execute? then Some(last.job.timestamp) else Latest(actions[..|actions| - 1])
  }

  /** Callers pass timestamps that never decrease. */
  ghost predicate Monotone(actions: seq<Action>) {
    actions == []
    || (&& Monotone(actions[..|actions| - 1])
        && var last, latest := actions[|actions| - 1], Latest(actions[..|actions| - 1]);
           last.Call? && last.job.Execute? && latest.Some? ==> latest.value <= last.job.timestamp)
  }

  /** Two answers about the calendar name the same session or sessions that do not overlap. */
  predicate SessionsFit(a: CalendarDay, b: CalendarDay) {
    || (a.regularOpen == b.regularOpen && a.regularClose == b.regularClose)
    || a.regularClose <= b.regularOpen || b.regularClose <= a.regularOpen
  }

  predicate FitsSession(action: Action, day: CalendarDay) {
    action.Proceed? && action.answer.View? ==> SessionsFit(action.answer.state.calendar, day)
  }

  // ----- the invariant -----

  ghost predicate AllBy(times: seq<int>, latest: int) {
    forall i :: 0 <= i < |times| ==> times[i] <= latest
  }

  /** Submissions in the closed window of the given length that starts at `lo`. */
  function WindowCount(times: seq<int>, lo: int, length: int): nat {
    CountIn(times, lo, lo + length)
  }

  ghost predicate WithinRates(times: seq<int>, limits: ControlLimits, day: CalendarDay) {
    && (forall lo :: WindowCount(times, lo, limits.orderWindow) <= limits.maxOrdersPerWindow)
    && SessionCount(times, day) <= limits.maxOrdersPerSession
  }

  /** What the controls have established for an order that is about to be recorded. */
  ghost predicate Admitted(times: seq<int>, limits: ControlLimits, t: int, decided: CalendarDay, day: CalendarDay) {
    && RecentCount(times, limits, t) < limits.maxOrdersPerWindow
    && SessionCount(times, decided) < limits.maxOrdersPerSession
    && decided.regularOpen <= t < decided.regularClose && SessionsFit(decided, day)
  }

  /** The order of this job is not in the journal yet. */
  predicate Clearing(stage: Stage) {
    Assessing(stage) || (Reconciling(stage) && stage.purpose == Pretrade)
  }

  ghost predicate StageRates(setup: Setup, times: seq<int>, day: CalendarDay, job: Job, stage: Stage) {
    job.Execute? && Clearing(stage) ==>
      && AllBy(times, job.timestamp)
      && (stage.CheckPausedAgain? || stage.PersistOrder? ==> Admitted(times, setup.limits, job.timestamp, stage.day, day))
  }

  ghost predicate RatesOk(setup: Setup, s: System, day: CalendarDay, latest: Option<int>) {
    var times := Times(s.journal);
    && WithinRates(times, setup.limits, day)
    && (times != [] ==> latest.Some? && AllBy(times, latest.value))
    && (s.process.Running? && s.process.job.Execute? ==> latest.Some? && s.process.job.timestamp <= latest.value)
    && (s.process.Running? ==> StageRates(setup, times, day, s.process.job, s.process.stage))
  }

  // ----- steps -----

  lemma {:induction false} SameTimes(before: Journal, after: Journal)
    requires JournalOk(before) && after.clients == before.clients && Advances(before.entries, after.entries)
    ensures Times(after) == Times(before)
  {
  }

  lemma {:induction false} PersistAppendsTime(journal: Journal, order: ApprovedOrder, hash: string, t: int)
    requires JournalOk(journal) && order.clientId !in journal.entries
    ensures Persist(journal, order, hash, t).Ok?
    ensures Times(Persist(journal, order, hash, t).value.0) == Times(journal) + [t]
  {
    var after := Persist(journal, order, hash, t).value.0;
    forall c | c in after.clients ensures c in after.entries { }
    forall i | 0 <= i < |journal.clients| ensures CreatedTimes(after)[i] == CreatedTimes(journal)[i] {
      assert journal.clients[i] in journal.clients;
    }
  }

  lemma {:induction false} RecordKeepsRates(times: seq<int>, limits: ControlLimits, t: int, decided: CalendarDay, day: CalendarDay)
    requires limits.orderWindow > 0 && WithinRates(times, limits, day) && AllBy(times, t) && Admitted(times, limits, t, decided, day)
    ensures WithinRates(times + [t], limits, day) && AllBy(times + [t], t)
  {
    forall lo ensures WindowCount(times + [t], lo, limits.orderWindow) <= limits.maxOrdersPerWindow {
      assert WindowCount(times, lo, limits.orderWindow) <= limits.maxOrdersPerWindow;
      WindowKeepsBound(times, t, limits.orderWindow, limits.maxOrdersPerWindow, lo);
    }
    CountInAppend(times, t, day.regularOpen, day.regularClose - 1);
  }

  lemma {:induction false} SubmitKeepsClients(s: System, job: Job, stage: Stage, answer: Answer)
    requires job.Execute?
    ensures SubmitStep(s, job, stage, answer).journal.clients == s.journal.clients
  {
  }

  lemma {:induction false} ReconcileKeepsClients(s: System, job: Job, stage: Stage, answer: Answer)
    ensures ReconcileStep(s, job, stage, answer).journal.clients == s.journal.clients
  {
    if stage.CommitReads? && answer.Projections? { PaperGuarantees.CommitWritesTheJournal(s, job, stage, answer); }
  }

  lemma {:induction false} RecoverKeepsClients(s: System, job: Job, stage: Stage)
    requires job.Recover?
    ensures RecoverStep(s, job, stage).journal.clients == s.journal.clients
  {
  }

  lemma {:induction false} ProcessKeepsClients(setup: Setup, s: System, job: Job, stage: Stage, answer: Answer)
    requires !(job.Execute? && stage.PersistOrder?)
    ensures ProcessStep(setup, s, job, stage, answer).journal.clients == s.journal.clients
  {
    if answer.Fails? {
      assert AfterFailure(s, job, stage).journal == s.journal;
    } else if Reconciling(stage) {
      ReconcileKeepsClients(s, job, stage, answer);
    } else if stage.RequireReconciled? || stage.PauseAnd? {
      assert FinishStep(s, job, stage).journal == s.journal;
    } else if job.Execute? && Assessing(stage) {
      assert AssessStep(setup, s, job, stage, answer).journal == s.journal;
    } else if job.Execute? {
      SubmitKeepsClients(s, job, stage, answer);
    } else if job.Recover? {
      RecoverKeepsClients(s, job, stage);
    }
  }

  /** Where a step can lead: a stage before recording is only reached from one. */
  ghost predicate LeadsClearly(job: Job, stage: Stage, after: Process) {
    after.Running? ==>
      && after.job == job
      && (Clearing(after.stage) ==> Clearing(stage))
      && (after.stage.PersistOrder? && after.stage != stage ==> stage == CheckPausedAgain(after.stage.day))
      && (after.stage.CheckPausedAgain? && after.stage != stage ==> stage.Decide?)
  }

  lemma {:induction false} FailureLeads(s: System, job: Job, stage: Stage)
    requires s.process == Running(job, stage) && job.Execute?
    ensures LeadsClearly(job, stage, AfterFailure(s, job, stage).process)
  {
  }

  lemma {:induction false} AssessLeads(setup: Setup, s: System, job: Job, stage: Stage, answer: Answer)
    requires s.process == Running(job, stage) && job.Execute? && Assessing(stage)
    ensures LeadsClearly(job, stage, AssessStep(setup, s, job, stage, answer).process)
  {
  }

  lemma {:induction false} SubmitLeads(s: System, job: Job, stage: Stage, answer: Answer)
    requires s.process == Running(job, stage) && job.Execute? && !Assessing(stage)
    ensures LeadsClearly(job, stage, SubmitStep(s, job, stage, answer).process)
  {
  }

  lemma {:induction false} ReconcileLeads(s: System, job: Job, stage: Stage, answer: Answer)
    requires s.process == Running(job, stage) && job.Execute? && Reconciling(stage)
    ensures LeadsClearly(job, stage, ReconcileStep(s, job, stage, answer).process)
  {
  }

  lemma {:induction false} ClearingFromClearing(setup: Setup, s: System, job: Job, stage: Stage, answer: Answer)
    requires s.process == Running(job, stage) && job.Execute?
    ensures LeadsClearly(job, stage, ProcessStep(setup, s, job, stage, answer).process)
  {
    if answer.Fails? {
      FailureLeads(s, job, stage);
    } else if Reconciling(stage) {
      ReconcileLeads(s, job, stage, answer);
    } else if Assessing(stage) {
      AssessLeads(setup, s, job, stage, answer);
    } else if !stage.RequireReconciled? && !stage.PauseAnd? {
      SubmitLeads(s, job, stage, answer);
    }
  }

  lemma {:induction false} DecisionAdmits(setup: Setup, s: System, job: Job, stage: Stage, answer: Answer, day: CalendarDay)
    requires s.process == Running(job, stage) && job.Execute? && stage.Decide? && FitsSession(Proceed(answer), day)
    ensures var after := AssessStep(setup, s, job, stage, answer).process;
            after.Running? && after.stage.CheckPausedAgain? ==>
              Admitted(Times(s.journal), setup.limits, job.timestamp, after.stage.day, day)
  {
    if answer.View? && ValidState(answer.state) {
      assert Violates(answer.state, setup.limits, OrderRateLimit) <==> RateViolation(answer.state, setup.limits, OrderRateLimit);
      assert Violates(answer.state, setup.limits, SessionOrderLimit) <==> RateViolation(answer.state, setup.limits, SessionOrderLimit);
      assert Violates(answer.state, setup.limits, OutsideRegularSession)
             <==> CalendarViolation(answer.state, setup.limits, OutsideRegularSession);
    }
  }

  lemma {:induction false} PersistKeepsRates(setup: Setup, s: System, job: Job, stage: Stage, answer: Answer, day: CalendarDay, latest: Option<int>)
    requires Before(setup, s, job, stage) && job.Execute? && stage.PersistOrder?
    requires RatesOk(setup, s, day, latest) && setup.limits.orderWindow > 0
    ensures RatesOk(setup, AssessStep(setup, s, job, stage, answer), day, latest)
  {
    PersistAppendsTime(s.journal, job.order, setup.hash(job.order), job.timestamp);
    RecordKeepsRates(Times(s.journal), setup.limits, job.timestamp, stage.day, day);
    PersistLeads(setup, s, job, stage, answer);
  }

  lemma {:induction false} PersistLeads(setup: Setup, s: System, job: Job, stage: Stage, answer: Answer)
    requires job.Execute? && stage.PersistOrder? && Persist(s.journal, job.order, setup.hash(job.order), job.timestamp).Ok?
    ensures AssessStep(setup, s, job, stage, answer)
            == Goto(s.(journal := Persist(s.journal, job.order, setup.hash(job.order), job.timestamp).value.0), job, CheckAfterPersist)
  {
  }

  lemma {:induction false} QuietStepKeepsRates(setup: Setup, s: System, job: Job, stage: Stage, answer: Answer, day: CalendarDay, latest: Option<int>)
    requires JournalOk(s.journal) && s.process == Running(job, stage) && !(job.Execute? && stage.PersistOrder?)
    requires RatesOk(setup, s, day, latest) && FitsSession(Proceed(answer), day)
    ensures RatesOk(setup, ProcessStep(setup, s, job, stage, answer), day, latest)
  {
    var after := ProcessStep(setup, s, job, stage, answer);
    ProcessKeepsClients(setup, s, job, stage, answer);
    PaperGuarantees.ProcessAdvances(setup, s, job, stage, answer);
    SameTimes(s.journal, after.journal);
    PaperGuarantees.StepKeepsJob(setup, s, answer);
    assert Next(setup, s, Proceed(answer)) == after;
    if job.Execute? {
      ClearingFromClearing(setup, s, job, stage, answer);
      if stage.Decide? && !answer.Fails? { DecisionAdmits(setup, s, job, stage, answer, day); }
    }
  }

  lemma {:induction false} FailedPersist(setup: Setup, s: System, job: Job, stage: Stage, day: CalendarDay, latest: Option<int>)
    requires s.process == Running(job, stage) && stage.PersistOrder? && RatesOk(setup, s, day, latest)
    ensures RatesOk(setup, AfterFailure(s, job, stage), day, latest)
  {
  }

  lemma {:induction false} ProcessKeepsRates(setup: Setup, s: System, job: Job, stage: Stage, answer: Answer, day: CalendarDay, latest: Option<int>)
    requires Before(setup, s, job, stage) && setup.limits.orderWindow > 0 && FitsSession(Proceed(answer), day)
    requires RatesOk(setup, s, day, latest)
    ensures RatesOk(setup, ProcessStep(setup, s, job, stage, answer), day, latest)
  {
    if !(job.Execute? && stage.PersistOrder?) {
      QuietStepKeepsRates(setup, s, job, stage, answer, day, latest);
    } else if answer.Fails? {
      FailedPersist(setup, s, job, stage, day, latest);
      assert ProcessStep(setup, s, job, stage, answer) == AfterFailure(s, job, stage);
    } else {
      PersistKeepsRates(setup, s, job, stage, answer, day, latest);
      assert ProcessStep(setup, s, job, stage, answer) == AssessStep(setup, s, job, stage, answer);
    }
  }

  /** What the caller's side of a step makes of the latest timestamp. */
  function LatestAfter(action: Action, latest: Option<int>): Option<int> {
    if action.Call? && action.job.Execute? then Some(action.job.timestamp) else latest
  }

  lemma {:induction false} OutsideKeepsRates(setup: Setup, s: System, action: Action, day: CalendarDay, latest: Option<int>)
    requires !action.Proceed? && RatesOk(setup, s, day, latest)
    requires action.Call? && action.job.Execute? && latest.Some? ==> latest.value <= action.job.timestamp
    ensures RatesOk(setup, Next(setup, s, action), day, LatestAfter(action, latest))
  {
    assert Next(setup, s, action).journal == s.journal;
  }

  lemma {:induction false} StepKeepsRates(setup: Setup, s: System, action: Action, day: CalendarDay, latest: Option<int>)
    requires Safe(setup, s) && setup.limits.orderWindow > 0 && FitsSession(action, day)
    requires RatesOk(setup, s, day, latest)
    requires action.Call? && action.job.Execute? && latest.Some? ==> latest.value <= action.job.timestamp
    ensures RatesOk(setup, Next(setup, s, action), day, LatestAfter(action, latest))
  {
    if !action.Proceed? {
      OutsideKeepsRates(setup, s, action, day, latest);
    } else if s.process.Running? {
      ProcessKeepsRates(setup, s, s.process.job, s.process.stage, action.answer, day, latest);
    }
  }

  lemma {:induction false} RatesOverEveryRun(setup: Setup, created: int, actions: seq<Action>, day: CalendarDay)
    requires setup.limits.orderWindow > 0 && Monotone(actions)
    requires forall i :: 0 <= i < |actions| ==> FitsSession(actions[i], day)
    ensures RatesOk(setup, Run(setup, Initial(created), actions), day, Latest(actions))
  {
    if actions != [] {
      var init := actions[..|actions| - 1];
      RatesOverEveryRun(setup, created, init, day);
      EveryRunIsSafe(setup, created, init);
      StepKeepsRates(setup, Run(setup, Initial(created), init), actions[|actions| - 1], day, Latest(init));
    } else {
      var none := Times(Initial(created).journal);
      assert none == [];
      forall lo ensures WindowCount(none, lo, setup.limits.orderWindow) == 0 { }
    }
  }

  /** If callers' timestamps never decrease, no closed window of the configured length and no session ever holds more
      durable submissions than its limit, through crashes, recoveries and rejected orders. */
  lemma {:induction false} DurableRateBound(setup: Setup, created: int, actions: seq<Action>, day: CalendarDay, lo: int)
    requires setup.limits.orderWindow > 0 && Monotone(actions)
    requires forall i :: 0 <= i < |actions| ==> FitsSession(actions[i], day)
    ensures var journal := Run(setup, Initial(created), actions).journal;
            && RowsPresent(journal)
            && WindowCount(CreatedTimes(journal), lo, setup.limits.orderWindow) <= setup.limits.maxOrdersPerWindow
            && SessionCount(CreatedTimes(journal), day) <= setup.limits.maxOrdersPerSession
  {
    RatesOverEveryRun(setup, created, actions, day);
    EveryRunIsSafe(setup, created, actions);
    var journal := Run(setup, Initial(created), actions).journal;
    RowsAreUnresolved(journal);
    assert Times(journal) == CreatedTimes(journal);
    assert WindowCount(Times(journal), lo, setup.limits.orderWindow) <= setup.limits.maxOrdersPerWindow;
  }
}
