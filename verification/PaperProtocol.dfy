/**
 * The crash-safe submission protocol as a state machine: one executor that runs a job at a time, the two durable
 * stores, and the broker. A step is one store transaction, one broker call, one operator or broker event, or a
 * crash that loses the program counter and nothing else. An action that is not enabled changes nothing.
 */
module PaperProtocol {
  import opened Prelude
  import opened Brokerage
  import opened BrokerJournal
  import opened MarketControls
  import OperatorControl
  import Reconciliation

  /** What never changes during a run; `hash` stands for the injective payload digest. */
  datatype Setup = Setup(prefix: string, namespace: string, limits: ControlLimits, hash: ApprovedOrder -> string)

  /** The broker: the orders it holds, which of them lookups already show, the requests that may still become
      orders, and its fill stream. `posts` is the history of order requests sent to it. */
  datatype World = World(orders: map<ClientId, BrokerId>, visible: set<ClientId>, inFlight: set<ClientId>,
                         posts: seq<ClientId>, stream: seq<FillActivity>)

  datatype Job =
    | Execute(order: ApprovedOrder, attempt: string, timestamp: int)
    | Recover(client: ClientId, expectedHash: string, timestamp: int)
    | Reconcile(timestamp: int)

  /** What a reconciliation is run for. */
  datatype Purpose = Pretrade | PostSubmit | Recovery | Standalone

  datatype Ending = Completed | Blocked | RejectedByBroker | Uncertain | Raised

  /** The program counter inside a job, named by the step that comes next. */
  datatype Stage =
    // assessment
    | CheckUnresolved | CheckUnknown | VerifyContext | CheckPaused | Decide
    | CheckPausedAgain(day: CalendarDay) | PersistOrder(day: CalendarDay)
    // submission
    | CheckAfterPersist | StartSubmission | CheckAfterStart | RecordPaused | VerifyBeforeSubmit | LookUpExisting | Post
    | AwaitResponse | LookUpAfterFailure(refused: bool) | AcknowledgeOrder(broker: BrokerId) | AfterAcknowledged
    | RecordRejected | RecordAmbiguous | PauseAnd(ending: Ending)
    // recovery
    | PauseFirst | ReadEntry | VerifyRecovery(found: SubmissionState) | FindOrder(found: SubmissionState)
    | AcknowledgeFound(broker: BrokerId) | RecordNeverStarted
    // reconciliation
    | LookUpRows(purpose: Purpose) | ReadFills(purpose: Purpose, resolutions: seq<Resolution>)
    | CommitReads(purpose: Purpose, resolutions: seq<Resolution>, upTo: nat, fills: seq<FillActivity>)
    | RequireReconciled(ready: bool)

  datatype Process = Idle(ending: Option<Ending>) | Running(job: Job, stage: Stage)

  datatype System = System(journal: Journal, operator: OperatorControl.Store, world: World, process: Process)

  /** What the outside contributes to the executor's next step. `Fails` is an exception of any kind from the call or
      from the fault hook before it. */
  datatype Answer =
    | Proceeds
    | Fails
    | View(state: PretradeState)
    | Denied
    | Accepted(broker: BrokerId)
    | Refused
    | Unclear
    | Fills(upTo: nat, fills: seq<FillActivity>)
    | Projections(orders: seq<OrderSnapshot>, positions: seq<PositionSnapshot>, ready: bool)

  datatype Action =
    | Crash
    | OperatorCall(command: OperatorControl.Command)
    | BrokerAccepts(client: ClientId, broker: BrokerId)
    | BrokerDrops(client: ClientId)
    | BrokerShows(client: ClientId)
    | ForeignOrder(client: ClientId, broker: BrokerId)
    | BrokerFill(fill: FillActivity)
    | Call(job: Job)
    | Proceed(answer: Answer)

  function Initial(created: int): System {
    System(EmptyJournal, OperatorControl.NewStore(created), World(map[], {}, {}, [], []), Idle(None))
  }

  const PausedReason: string := "operator_paused"
  const RejectedReason: string := "broker_rejected_submission"
  const AmbiguousReason: string := "submission_outcome_ambiguous"
  const NeverStartedReason: string := "recovery_confirmed_not_started"

  // ----- the executor -----

  function Ended(s: System, ending: Ending): System { s.(process := Idle(Some(ending))) }

  function Goto(s: System, job: Job, stage: Stage): System { s.(process := Running(job, stage)) }

  function Client(job: Job): ClientId {
    match job
    case Execute(order, _, _) => order.clientId
    case Recover(client, _, _) => client
    case Reconcile(_) => ""
  }

  function First(job: Job): Stage {
    match job
    case Execute(_, _, _) => CheckUnresolved
    case Recover(_, _, _) => PauseFirst
    case Reconcile(_) => LookUpRows(Standalone)
  }

  predicate IsPaused(store: OperatorControl.Store) {
    store.rows == [] || store.rows[|store.rows| - 1].paused
  }

  /** The executor pauses with its own reason; one code stands for all of them. */
  const PauseCode: string := "paper_execution"

  function PausedAt(store: OperatorControl.Store, timestamp: int): OperatorControl.Store {
    OperatorControl.Paused(store, timestamp, PauseCode, PauseCode).store
  }

  predicate RowsPresent(journal: Journal) {
    forall c :: c in journal.clients ==> c in journal.entries
  }

  function Rows(journal: Journal): seq<Submission> {
    if RowsPresent(journal) then UnresolvedUpTo(journal, |journal.clients|) else []
  }

  function Times(journal: Journal): seq<int> {
    if RowsPresent(journal) then CreatedTimes(journal) else []
  }

  predicate AllReadable(rows: seq<Submission>) {
    forall i :: 0 <= i < |rows| ==> ValidSubmission(rows[i])
  }

  /** Where an exception at a step leads. */
  function AfterFailure(s: System, job: Job, stage: Stage): System {
    match stage
    case VerifyContext => Ended(s, Blocked)
    case VerifyBeforeSubmit => Goto(s, job, RecordAmbiguous)
    case LookUpExisting => Goto(s, job, RecordAmbiguous)
    case Post => Goto(s, job, LookUpAfterFailure(false))
    case AwaitResponse => Goto(s, job, RecordAmbiguous)
    case LookUpAfterFailure(_) => Goto(s, job, RecordAmbiguous)
    case AcknowledgeOrder(_) => Goto(s, job, RecordAmbiguous)
    case AfterAcknowledged => Goto(s, job, RecordAmbiguous)
    case RecordAmbiguous => Goto(s, job, PauseAnd(Raised))
    case LookUpRows(purpose) => ReconcileFailed(s, job, purpose)
    case ReadFills(purpose, _) => ReconcileFailed(s, job, purpose)
    case CommitReads(purpose, _, _, _) => ReconcileFailed(s, job, purpose)
    case _ => Ended(s, Raised)
  }

  function ReconcileFailed(s: System, job: Job, purpose: Purpose): System {
    if purpose == PostSubmit then Goto(s, job, PauseAnd(Uncertain)) else Ended(s, Raised)
  }

  /** A journal write and where its success or failure leads. */
  function Written(s: System, job: Job, client: ClientId, state: SubmissionState, broker: Option<BrokerId>,
                   reason: Option<string>, next: Process, stage: Stage): System {
    match Transition(s.journal, client, state, job.timestamp, broker, reason)
    case Err(_) => AfterFailure(s, job, stage)
    case Ok(after) => s.(journal := after.0, process := next)
  }

  function AssessStep(setup: Setup, s: System, job: Job, stage: Stage, answer: Answer): System
    requires job.Execute?
  {
    var order, client, t := job.order, job.order.clientId, job.timestamp;
    match stage
    case CheckUnresolved =>
      var rows := Rows(s.journal);
      if !AllReadable(rows) then Ended(s, Raised)
      else if rows != [] then Goto(s, job, PauseAnd(Blocked))
      else Goto(s, job, CheckUnknown)
    case CheckUnknown =>
      if client !in s.journal.entries then Goto(s, job, VerifyContext)
      else Ended(s, if ValidSubmission(s.journal.entries[client]) then Blocked else Raised)
    case VerifyContext => Goto(s, job, CheckPaused)
    case CheckPaused =>
      if IsPaused(s.operator) then Ended(s, Blocked) else Goto(s, job, LookUpRows(Pretrade))
    case Decide =>
      if answer.Denied? then Ended(s, Blocked)
      else if answer.View? && ValidState(answer.state) && answer.state.order == order && answer.state.now == t
              && answer.state.submissionTimestamps == Times(s.journal) then
        if forall reason :: !Violates(answer.state, setup.limits, reason)
        then Goto(s, job, CheckPausedAgain(answer.state.calendar)) else Ended(s, Blocked)
      else s
    case CheckPausedAgain(day) =>
      if IsPaused(s.operator) then Ended(s, Blocked) else Goto(s, job, PersistOrder(day))
    case PersistOrder(_) =>
      (match Persist(s.journal, order, setup.hash(order), t)
       case Err(_) => Ended(s, Raised)
       case Ok(after) => Goto(s.(journal := after.0), job, CheckAfterPersist))
    case _ => s
  }

  function SubmitStep(s: System, job: Job, stage: Stage, answer: Answer): System
    requires job.Execute?
  {
    var client, t := job.order.clientId, job.timestamp;
    match stage
    case CheckAfterPersist => Goto(s, job, if IsPaused(s.operator) then RecordPaused else StartSubmission)
    case RecordPaused => Written(s, job, client, Rejected, None, Some(PausedReason), Idle(Some(Blocked)), stage)
    case StartSubmission =>
      Written(s, job, client, Started, None, Some(job.attempt), Running(job, CheckAfterStart), stage)
    case CheckAfterStart => Goto(s, job, if IsPaused(s.operator) then RecordPaused else VerifyBeforeSubmit)
    case VerifyBeforeSubmit => Goto(s, job, LookUpExisting)
    case LookUpExisting => Goto(s, job, if Shown(s.world, client) then AcknowledgeOrder(s.world.orders[client]) else Post)
    case Post =>
      var world := s.world.(posts := s.world.posts + [client], inFlight := s.world.inFlight + {client});
      Goto(s.(world := world), job, AwaitResponse)
    case AwaitResponse =>
      (match answer
       case Accepted(broker) =>
         if client in s.world.orders && s.world.orders[client] == broker then Goto(s, job, AcknowledgeOrder(broker)) else s
       case Refused =>
         if client !in s.world.orders && client !in s.world.inFlight then Goto(s, job, LookUpAfterFailure(true)) else s
       case Unclear => Goto(s, job, LookUpAfterFailure(false))
       case _ => s)
    case LookUpAfterFailure(refused) =>
      Goto(s, job, if Shown(s.world, client) then AcknowledgeOrder(s.world.orders[client])
                   else if refused then RecordRejected else RecordAmbiguous)
    case AcknowledgeOrder(broker) =>
      Written(s, job, client, Acknowledged, Some(broker), None, Running(job, AfterAcknowledged), stage)
    case AfterAcknowledged => Goto(s, job, LookUpRows(PostSubmit))
    case RecordRejected =>
      Written(s, job, client, Rejected, None, Some(RejectedReason),
              Running(job, PauseAnd(RejectedByBroker)), stage)
    case RecordAmbiguous =>
      Written(s, job, client, Ambiguous, None, Some(AmbiguousReason),
              Running(job, PauseAnd(Uncertain)), stage)
    case _ => s
  }

  predicate Shown(world: World, client: ClientId) {
    client in world.visible && client in world.orders
  }

  function RecoverStep(s: System, job: Job, stage: Stage): System
    requires job.Recover?
  {
    var client, t := job.client, job.timestamp;
    match stage
    case PauseFirst => Goto(s.(operator := PausedAt(s.operator, t)), job, ReadEntry)
    case ReadEntry =>
      if client !in s.journal.entries then Ended(s, Blocked)
      else
        var entry := s.journal.entries[client];
        if !ValidSubmission(entry) then Ended(s, Raised)
        else if entry.payloadHash != job.expectedHash then Ended(s, Blocked)
        else if entry.state == Rejected then Ended(s, RejectedByBroker)
        else Goto(s, job, VerifyRecovery(entry.state))
    case VerifyRecovery(found) => Goto(s, job, FindOrder(found))
    case FindOrder(found) =>
      if Shown(s.world, client) then
        Goto(s, job, if found == Started then AcknowledgeFound(s.world.orders[client]) else LookUpRows(Recovery))
      else if found == Persisted then Goto(s, job, RecordNeverStarted)
      else Ended(s, Uncertain)
    case RecordNeverStarted =>
      Written(s, job, client, Rejected, None, Some(NeverStartedReason),
              Idle(Some(RejectedByBroker)), stage)
    case AcknowledgeFound(broker) =>
      Written(s, job, client, Acknowledged, Some(broker), None, Running(job, LookUpRows(Recovery)), stage)
    case _ => s
  }

  /** Every unresolved row that a lookup by client id finds. */
  function Resolutions(rows: seq<Submission>, world: World): seq<Resolution> {
    if rows == [] then []
    else
      var client := rows[|rows| - 1].order.clientId;
      Resolutions(rows[..|rows| - 1], world) + (if Shown(world, client) then [Resolution(client, world.orders[client])] else [])
  }

  /** The broker may show any prefix of its stream that reaches past the checkpoint. */
  ghost predicate CouldRead(journal: Journal, stream: seq<FillActivity>, upTo: nat, fills: seq<FillActivity>) {
    var start := Reconciliation.StartOf(stream, journal.checkpoint);
    && start.Some? && start.value <= upTo <= |stream|
    && Reconciliation.NormalizesRest(stream[..upTo], start.value, fills)
  }

  ghost function ReconcileStep(s: System, job: Job, stage: Stage, answer: Answer): System {
    match stage
    case LookUpRows(purpose) =>
      var rows := Rows(s.journal);
      if !AllReadable(rows) then ReconcileFailed(s, job, purpose)
      else Goto(s, job, ReadFills(purpose, Resolutions(rows, s.world)))
    case ReadFills(purpose, resolutions) =>
      if answer.Fills? && CouldRead(s.journal, s.world.stream, answer.upTo, answer.fills)
      then Goto(s, job, CommitReads(purpose, resolutions, answer.upTo, answer.fills)) else s
    case CommitReads(purpose, resolutions, _, fills) =>
      if !answer.Projections? then s
      else
        (match ApplyCommit(s.journal, CommitOf(s.journal, job.timestamp, resolutions, fills, answer.orders, answer.positions))
         case Err(_) => ReconcileFailed(s, job, purpose)
         case Ok(journal) => AfterReconcile(s.(journal := journal), job, purpose, answer.ready))
    case _ => s
  }

  function CommitOf(journal: Journal, timestamp: int, resolutions: seq<Resolution>, fills: seq<FillActivity>,
                    orders: seq<OrderSnapshot>, positions: seq<PositionSnapshot>): Commit {
    Commit(orders, positions, fills, resolutions, Reconciliation.LastToken(fills, journal.checkpoint), timestamp)
  }

  function AfterReconcile(s: System, job: Job, purpose: Purpose, ready: bool): System {
    match purpose
    case Pretrade => if ready then Goto(s, job, Decide) else Ended(s, Blocked)
    case PostSubmit => Goto(s, job, RequireReconciled(ready))
    case Recovery => Goto(s, job, RequireReconciled(ready))
    case Standalone => Ended(s, Completed)
  }

  function FinishStep(s: System, job: Job, stage: Stage): System {
    match stage
    case RequireReconciled(ready) =>
      var client := Client(job);
      if client !in s.journal.entries || !ValidSubmission(s.journal.entries[client]) then Ended(s, Raised)
      else if s.journal.entries[client].state != SubmissionState.Reconciled then
        if job.Execute? then Goto(s, job, PauseAnd(Uncertain)) else Ended(s, Uncertain)
      else if job.Execute? && !ready then Goto(s, job, PauseAnd(Blocked))
      else Ended(s, Completed)
    case PauseAnd(ending) => Ended(s.(operator := PausedAt(s.operator, job.timestamp)), ending)
    case _ => s
  }

  predicate Reconciling(stage: Stage) { stage.LookUpRows? || stage.ReadFills? || stage.CommitReads? }

  predicate Assessing(stage: Stage) {
    stage.CheckUnresolved? || stage.CheckUnknown? || stage.VerifyContext? || stage.CheckPaused? || stage.Decide?
    || stage.CheckPausedAgain? || stage.PersistOrder?
  }

  ghost function ProcessStep(setup: Setup, s: System, job: Job, stage: Stage, answer: Answer): System {
    if answer.Fails? then AfterFailure(s, job, stage)
    else if Reconciling(stage) then ReconcileStep(s, job, stage, answer)
    else if stage.RequireReconciled? || stage.PauseAnd? then FinishStep(s, job, stage)
    else
      match job
      case Execute(_, _, _) =>
        if Assessing(stage) then AssessStep(setup, s, job, stage, answer) else SubmitStep(s, job, stage, answer)
      case Recover(_, _, _) => RecoverStep(s, job, stage)
      case Reconcile(_) => s
  }

  // ----- the whole machine -----

  predicate NewBrokerId(world: World, broker: BrokerId) {
    broker != "" && forall c :: c in world.orders ==> world.orders[c] != broker
  }

  predicate NewFill(stream: seq<FillActivity>, fill: FillActivity) {
    && !BlankToken(Some(fill.activityId))
    && forall i :: 0 <= i < |stream| ==> stream[i].activityId != fill.activityId && stream[i].executionId != fill.executionId
  }

  /** What the broker and other users of the account may do. Nobody else uses client ids with the strategy's prefix. */
  function BrokerStep(setup: Setup, world: World, action: Action): World {
    match action
    case BrokerAccepts(client, broker) =>
      if client in world.inFlight && NewBrokerId(world, broker)
      then world.(orders := world.orders[client := broker], inFlight := world.inFlight - {client}) else world
    case BrokerDrops(client) => world.(inFlight := world.inFlight - {client})
    case BrokerShows(client) => if client in world.orders then world.(visible := world.visible + {client}) else world
    case ForeignOrder(client, broker) =>
      if !Owned(client, setup.prefix) && client !in world.orders && NewBrokerId(world, broker)
      then world.(orders := world.orders[client := broker], visible := world.visible + {client}) else world
    case BrokerFill(fill) => if NewFill(world.stream, fill) then world.(stream := world.stream + [fill]) else world
    case _ => world
  }

  predicate Startable(setup: Setup, job: Job) {
    job.Execute? ==> Owned(job.order.clientId, setup.prefix) && ValidApproved(job.order)
  }

  ghost function Next(setup: Setup, s: System, action: Action): System {
    match action
    case Crash => s.(process := Idle(None))
    case OperatorCall(command) =>
      if s.operator.rows == [] then s
      else s.(operator := OperatorControl.Execute(s.operator, setup.namespace, command).store)
    case Call(job) => if s.process.Idle? && Startable(setup, job) then Goto(s, job, First(job)) else s
    case Proceed(answer) => if s.process.Running? then ProcessStep(setup, s, s.process.job, s.process.stage, answer) else s
    case _ => s.(world := BrokerStep(setup, s.world, action))
  }

  ghost function Run(setup: Setup, s: System, actions: seq<Action>): System {
    if actions == [] then s
    else Next(setup, Run(setup, s, actions[..|actions| - 1]), actions[|actions| - 1])
  }
}
