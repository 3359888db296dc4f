/** What holds in every state the submission protocol can reach. */
module PaperSafety {
  import opened Prelude
  import opened Brokerage
  import opened BrokerJournal
  import opened PaperProtocol
  import OperatorControl
  import Reconciliation
  import MarketControls

  // ----- the invariant -----

  ghost predicate WorldOk(setup: Setup, w: World) {
    && (forall c :: c in w.visible ==> c in w.orders)
    && (forall c :: c in w.orders ==> w.orders[c] != "" && (Owned(c, setup.prefix) ==> c in w.posts))
    && (forall c, d :: c in w.orders && d in w.orders && w.orders[c] == w.orders[d] ==> c == d)
    && (forall c :: c in w.inFlight ==> c !in w.orders && c in w.posts)
    && Distinct(w.posts) && (forall c :: c in w.posts ==> Owned(c, setup.prefix))
    && Reconciliation.ActivityIdsDistinct(w.stream) && Reconciliation.ExecutionsDistinct(w.stream)
    && (forall i :: 0 <= i < |w.stream| ==> !BlankToken(Some(w.stream[i].activityId)))
  }

  /** No order exists under the id, and no request for one can still become an order. */
  predicate Gone(client: ClientId, w: World) {
    client !in w.orders && client !in w.inFlight
  }

  /** What a durable submission says about the broker. */
  ghost predicate Agrees(setup: Setup, client: ClientId, entry: Submission, w: World) {
    && Owned(client, setup.prefix)
    && (entry.state != Reconciled ==> ValidSubmission(entry))
    && (entry.state == Persisted ==> client !in w.posts)
    && (entry.state == Rejected ==> Gone(client, w))
    && (if entry.state == Acknowledged || entry.state == Reconciled
        then client in w.orders && entry.brokerId == Some(w.orders[client]) else entry.brokerId.None?)
  }

  ghost predicate AtMostOneUnresolved(journal: Journal) {
    forall c, d :: c in journal.entries && d in journal.entries && Unresolved(journal.entries[c]) && Unresolved(journal.entries[d]) ==> c == d
  }

  ghost predicate Base(setup: Setup, journal: Journal, operator: OperatorControl.Store, w: World) {
    && JournalOk(journal) && OperatorControl.StoreInvariant(operator) && WorldOk(setup, w)
    && (forall c :: c in journal.entries ==> Agrees(setup, c, journal.entries[c], w))
    && (forall c :: c in w.posts ==> c in journal.entries)
    && AtMostOneUnresolved(journal)
    && Reconciliation.Ingested(journal, w.stream)
  }

  ghost predicate Clear(journal: Journal, client: ClientId) {
    Reconciliation.NothingUnresolved(journal) && client !in journal.entries
  }

  predicate InState(journal: Journal, client: ClientId, state: SubmissionState) {
    client in journal.entries && journal.entries[client].state == state
  }

  predicate Holds(w: World, client: ClientId, broker: BrokerId) {
    client in w.orders && w.orders[client] == broker
  }

  ghost predicate Truthful(resolutions: seq<Resolution>, w: World) {
    forall i :: 0 <= i < |resolutions| ==> Holds(w, resolutions[i].client, resolutions[i].broker)
  }

  /** What the executor may rely on at each step of a submission. */
  ghost predicate ExecuteOk(journal: Journal, w: World, client: ClientId, stage: Stage) {
    match stage
    case CheckUnknown => Reconciliation.NothingUnresolved(journal)
    case VerifyContext => Clear(journal, client)
    case CheckPaused => Clear(journal, client)
    case Decide => Clear(journal, client)
    case CheckPausedAgain(_) => Clear(journal, client)
    case PersistOrder(_) => Clear(journal, client)
    case CheckAfterPersist => InState(journal, client, Persisted) && client !in w.posts
    case StartSubmission => InState(journal, client, Persisted) && client !in w.posts
    case RecordPaused =>
      (InState(journal, client, Persisted) || InState(journal, client, Started)) && client !in w.posts
    case CheckAfterStart => InState(journal, client, Started) && client !in w.posts
    case VerifyBeforeSubmit => InState(journal, client, Started) && client !in w.posts
    case LookUpExisting => InState(journal, client, Started) && client !in w.posts
    case Post => InState(journal, client, Started) && client !in w.posts
    case AwaitResponse => InState(journal, client, Started)
    case LookUpAfterFailure(refused) => InState(journal, client, Started) && (refused ==> Gone(client, w))
    case AcknowledgeOrder(broker) => InState(journal, client, Started) && Holds(w, client, broker)
    case AfterAcknowledged => InState(journal, client, Acknowledged)
    case RecordRejected => InState(journal, client, Started) && Gone(client, w)
    case RecordAmbiguous => InState(journal, client, Started) || InState(journal, client, Acknowledged)
    case _ => true
  }

  ghost predicate RecoverOk(journal: Journal, w: World, client: ClientId, stage: Stage) {
    match stage
    case VerifyRecovery(found) => InState(journal, client, found)
    case FindOrder(found) => InState(journal, client, found)
    case AcknowledgeFound(broker) => InState(journal, client, Started) && Holds(w, client, broker)
    case RecordNeverStarted => InState(journal, client, Persisted)
    case _ => true
  }

  ghost predicate ReadsOk(journal: Journal, w: World, job: Job, stage: Stage) {
    match stage
    case LookUpRows(purpose) => PurposeOk(journal, job, purpose)
    case ReadFills(purpose, resolutions) => PurposeOk(journal, job, purpose) && Truthful(resolutions, w)
    case CommitReads(purpose, resolutions, upTo, fills) =>
      PurposeOk(journal, job, purpose) && Truthful(resolutions, w) && CouldRead(journal, w.stream, upTo, fills)
    case _ => true
  }

  ghost predicate PurposeOk(journal: Journal, job: Job, purpose: Purpose) {
    (purpose == Pretrade ==> job.Execute? && Clear(journal, job.order.clientId))
  }

  ghost predicate StageOk(setup: Setup, journal: Journal, w: World, job: Job, stage: Stage) {
    && Startable(setup, job)
    && ReadsOk(journal, w, job, stage)
    && (job.Execute? ==> ExecuteOk(journal, w, job.order.clientId, stage))
    && (job.Recover? ==> RecoverOk(journal, w, job.client, stage))
  }

  ghost predicate Safe(setup: Setup, s: System) {
    Tables(setup, s) && ProcessOk(setup, s)
  }

  // ----- the broker and the operator -----

  /** All that can happen at the broker without the executor: requests settle, orders appear, fills are appended. */
  ghost predicate Moves(setup: Setup, w: World, w': World) {
    && w'.posts == w.posts && w'.inFlight <= w.inFlight && w.visible <= w'.visible && w.stream <= w'.stream
    && (forall c :: c in w.orders ==> c in w'.orders && w'.orders[c] == w.orders[c])
    && (forall c :: c in w'.orders && c !in w.orders ==> c in w.inFlight || !Owned(c, setup.prefix))
  }

  lemma {:induction false} BrokerMoves(setup: Setup, w: World, action: Action)
    requires WorldOk(setup, w)
    ensures var w' := BrokerStep(setup, w, action); WorldOk(setup, w') && Moves(setup, w, w')
  {
  }

  lemma {:induction false} BaseSurvivesMove(setup: Setup, journal: Journal, operator: OperatorControl.Store, w: World, w': World)
    requires Base(setup, journal, operator, w) && Moves(setup, w, w') && WorldOk(setup, w')
    ensures Base(setup, journal, operator, w')
  {
    Reconciliation.IngestedSurvivesGrowth(journal, w.stream, w'.stream);
    forall c | c in journal.entries ensures Agrees(setup, c, journal.entries[c], w') {
      assert Agrees(setup, c, journal.entries[c], w);
    }
  }

  lemma {:induction false} StageSurvivesMove(setup: Setup, journal: Journal, w: World, w': World, job: Job, stage: Stage)
    requires WorldOk(setup, w) && Moves(setup, w, w') && WorldOk(setup, w')
    requires StageOk(setup, journal, w, job, stage)
    ensures StageOk(setup, journal, w', job, stage)
  {
    if stage.CommitReads? {
      ReadSurvivesMove(journal, w, w', stage.upTo, stage.fills);
    }
  }

  lemma {:induction false} ReadSurvivesMove(journal: Journal, w: World, w': World, upTo: nat, fills: seq<FillActivity>)
    requires w.stream <= w'.stream && Reconciliation.ActivityIdsDistinct(w'.stream)
    requires CouldRead(journal, w.stream, upTo, fills)
    ensures CouldRead(journal, w'.stream, upTo, fills)
  {
    assert w'.stream[..upTo] == w.stream[..upTo];
    if journal.checkpoint.Some? {
      var n := Reconciliation.StartOf(w.stream, journal.checkpoint).value;
      Reconciliation.StartFollowsToken(w.stream, journal.checkpoint.value);
      Reconciliation.TokenStaysValid(w.stream, w'.stream, n);
    }
  }

  lemma {:induction false} BrokerKeepsSafe(setup: Setup, s: System, action: Action)
    requires Safe(setup, s)
    ensures Safe(setup, s.(world := BrokerStep(setup, s.world, action)))
  {
    var w' := BrokerStep(setup, s.world, action);
    BrokerMoves(setup, s.world, action);
    BaseSurvivesMove(setup, s.journal, s.operator, s.world, w');
    if s.process.Running? {
      StageSurvivesMove(setup, s.journal, s.world, w', s.process.job, s.process.stage);
    }
  }

  lemma {:induction false} OperatorKeepsSafe(setup: Setup, s: System, command: OperatorControl.Command)
    requires Safe(setup, s)
    ensures Safe(setup, s.(operator := OperatorControl.Execute(s.operator, setup.namespace, command).store))
  {
    OperatorControl.CommandKeepsInvariant(s.operator, setup.namespace, command);
  }

  // ----- the executor's own writes -----

  lemma {:induction false} RowsAreUnresolved(journal: Journal)
    requires JournalOk(journal)
    ensures RowsPresent(journal) && Rows(journal) == UnresolvedUpTo(journal, |journal.clients|)
    ensures Rows(journal) == [] ==> Reconciliation.NothingUnresolved(journal)
    ensures forall c :: c in journal.entries && Unresolved(journal.entries[c]) ==> journal.entries[c] in Rows(journal)
    ensures forall row :: row in Rows(journal) ==>
              row.order.clientId in journal.entries && journal.entries[row.order.clientId] == row && Unresolved(row)
  {
    Reconciliation.UnresolvedRowsAreAll(journal, |journal.clients|);
    forall c | c in journal.entries && Unresolved(journal.entries[c]) ensures journal.entries[c] in Rows(journal) {
      assert c in journal.clients;
      var k :| 0 <= k < |journal.clients| && journal.clients[k] == c;
    }
  }

  lemma {:induction false} PersistKeepsBase(setup: Setup, s: System, order: ApprovedOrder, hash: string, timestamp: int)
    requires Base(setup, s.journal, s.operator, s.world) && Clear(s.journal, order.clientId)
    requires Owned(order.clientId, setup.prefix) && ValidApproved(order)
    ensures Persist(s.journal, order, hash, timestamp).Ok?
    ensures var after := Persist(s.journal, order, hash, timestamp).value.0;
            && Base(setup, after, s.operator, s.world) && InState(after, order.clientId, Persisted)
  {
    var after := Persist(s.journal, order, hash, timestamp).value.0;
    PersistKeepsOk(s.journal, order, hash, timestamp);
    assert Reconciliation.Ingested(after, s.world.stream);
    assert after.entries == s.journal.entries[order.clientId := after.entries[order.clientId]];
  }

  lemma {:induction false} TransitionKeepsBase(setup: Setup, s: System, client: ClientId, state: SubmissionState, timestamp: int,
                            broker: Option<BrokerId>, reason: Option<string>)
    requires Base(setup, s.journal, s.operator, s.world)
    requires Transition(s.journal, client, state, timestamp, broker, reason).Ok?
    requires Agrees(setup, client, Transition(s.journal, client, state, timestamp, broker, reason).value.1, s.world)
    ensures var (after, entry) := Transition(s.journal, client, state, timestamp, broker, reason).value;
            && Base(setup, after, s.operator, s.world) && InState(after, client, state)
  {
    var (after, entry) := Transition(s.journal, client, state, timestamp, broker, reason).value;
    TransitionKeepsOk(s.journal, client, state, timestamp, broker, reason);
    TransitionChangesOneEntry(s.journal, client, state, timestamp, broker, reason);
    EntryKeepsBase(setup, s.journal, s.operator, s.world, client, entry);
  }

  lemma {:induction false} TransitionChangesOneEntry(journal: Journal, client: ClientId, state: SubmissionState, timestamp: int,
                                  broker: Option<BrokerId>, reason: Option<string>)
    requires Transition(journal, client, state, timestamp, broker, reason).Ok?
    ensures var (after, entry) := Transition(journal, client, state, timestamp, broker, reason).value;
            && client in journal.entries && after == journal.(entries := journal.entries[client := entry])
            && (Unresolved(entry) ==> Unresolved(journal.entries[client])) && InState(after, client, state)
  {
    var (after, entry) := Transition(journal, client, state, timestamp, broker, reason).value;
    assert after.entries == journal.entries[client := entry];
  }

  lemma {:induction false} EntryKeepsBase(setup: Setup, journal: Journal, operator: OperatorControl.Store, w: World, client: ClientId, entry: Submission)
    requires Base(setup, journal, operator, w) && client in journal.entries && Agrees(setup, client, entry, w)
    requires Unresolved(entry) ==> Unresolved(journal.entries[client])
    requires JournalOk(journal.(entries := journal.entries[client := entry]))
    ensures Base(setup, journal.(entries := journal.entries[client := entry]), operator, w)
  {
    var after := journal.(entries := journal.entries[client := entry]);
    assert Reconciliation.Ingested(after, w.stream);
    StillAtMostOne(journal.entries, client, entry);
    StillAgree(setup, journal.entries, client, entry, w);
  }

  lemma {:induction false} StillAgree(setup: Setup, entries: map<ClientId, Submission>, client: ClientId, entry: Submission, w: World)
    requires client in entries && Agrees(setup, client, entry, w)
    requires forall c :: c in entries ==> Agrees(setup, c, entries[c], w)
    ensures var after := entries[client := entry]; forall c :: c in after ==> Agrees(setup, c, after[c], w)
  {
  }

  lemma {:induction false} StillAtMostOne(entries: map<ClientId, Submission>, client: ClientId, entry: Submission)
    requires client in entries && (Unresolved(entry) ==> Unresolved(entries[client]))
    requires forall c, d :: c in entries && d in entries && Unresolved(entries[c]) && Unresolved(entries[d]) ==> c == d
    ensures var after := entries[client := entry];
            forall c, d :: c in after && d in after && Unresolved(after[c]) && Unresolved(after[d]) ==> c == d
  {
  }

  /** A truthful reconciliation gives every submission it settles the broker's own id. */
  lemma {:induction false} ResolvedTruthfully(entries: map<ClientId, Submission>, resolutions: seq<Resolution>, timestamp: int, w: World)
    requires Truthful(resolutions, w) && Resolve(entries, resolutions, timestamp).Ok?
    ensures var after := Resolve(entries, resolutions, timestamp).value;
            && after.Keys == entries.Keys
            && forall c :: c in entries ==>
                 || after[c] == entries[c]
                 || (after[c].state == Reconciled && c in w.orders && after[c].brokerId == Some(w.orders[c]))
    decreases |resolutions|
  {
    if resolutions != [] {
      assert Holds(w, resolutions[0].client, resolutions[0].broker);
      ResolvedTruthfully(ResolveOne(entries, resolutions[0], timestamp).value, resolutions[1..], timestamp, w);
    }
  }

  lemma {:induction false} CommitKeepsBase(setup: Setup, s: System, commit: Commit, upTo: nat)
    requires Base(setup, s.journal, s.operator, s.world) && Truthful(commit.resolutions, s.world)
    requires CouldRead(s.journal, s.world.stream, upTo, commit.fills)
    requires commit.checkpoint == Reconciliation.LastToken(commit.fills, s.journal.checkpoint)
    requires ApplyCommit(s.journal, commit).Ok?
    ensures var after := ApplyCommit(s.journal, commit).value;
            && Base(setup, after, s.operator, s.world)
            && (forall client :: Clear(s.journal, client) ==> Clear(after, client))
            && Reconciliation.StartOf(s.world.stream, after.checkpoint) == Some(upTo)
  {
    var after := ApplyCommit(s.journal, commit).value;
    ApplyKeepsOk(s.journal, commit);
    ResolvedTruthfully(s.journal.entries, commit.resolutions, commit.timestamp, s.world);
    forall c | c in after.entries ensures Agrees(setup, c, after.entries[c], s.world) {
      assert Agrees(setup, c, s.journal.entries[c], s.world);
    }
    CommitKeepsIngested(s.journal, s.world.stream, upTo, commit);
  }

  lemma {:induction false} CommitKeepsIngested(journal: Journal, stream: seq<FillActivity>, upTo: nat, commit: Commit)
    requires Reconciliation.Ingested(journal, stream) && CouldRead(journal, stream, upTo, commit.fills)
    requires Reconciliation.ActivityIdsDistinct(stream) && Reconciliation.ExecutionsDistinct(stream)
    requires forall i :: 0 <= i < |stream| ==> !BlankToken(Some(stream[i].activityId))
    requires commit.checkpoint == Reconciliation.LastToken(commit.fills, journal.checkpoint)
    ensures StoreFills(journal.fills, commit.fills).Ok?
    ensures ApplyCommit(journal, commit).Ok? ==>
              && Reconciliation.Ingested(ApplyCommit(journal, commit).value, stream)
              && Reconciliation.StartOf(stream, ApplyCommit(journal, commit).value.checkpoint) == Some(upTo)
  {
    var shown := stream[..upTo];
    var start := Reconciliation.StartOf(stream, journal.checkpoint).value;
    IngestedInPrefix(journal, stream, upTo);
    LastTokenOfNormalized(shown, start, commit.fills, journal.checkpoint);
    Reconciliation.CommitIngests(journal, shown, commit.fills, commit.checkpoint);
    if ApplyCommit(journal, commit).Ok? {
      var after := ApplyCommit(journal, commit).value;
      assert after.checkpoint == commit.checkpoint;
      Reconciliation.IngestedSurvivesGrowth(after, shown, stream);
    }
  }

  /** The prefix a reader sees holds the checkpoint at the same place. */
  lemma {:induction false} IngestedInPrefix(journal: Journal, stream: seq<FillActivity>, upTo: nat)
    requires Reconciliation.Ingested(journal, stream) && Reconciliation.ActivityIdsDistinct(stream) && upTo <= |stream|
    requires Reconciliation.StartOf(stream, journal.checkpoint).value <= upTo
    ensures Reconciliation.Ingested(journal, stream[..upTo])
    ensures Reconciliation.StartOf(stream[..upTo], journal.checkpoint) == Reconciliation.StartOf(stream, journal.checkpoint)
  {
    StartInPrefix(stream, journal.checkpoint, upTo);
    StoredInPrefix(journal.fills, stream, Reconciliation.StartOf(stream, journal.checkpoint).value, upTo);
  }

  lemma {:induction false} StartInPrefix(stream: seq<FillActivity>, token: Option<ActivityId>, upTo: nat)
    requires Reconciliation.ActivityIdsDistinct(stream) && upTo <= |stream|
    requires Reconciliation.StartOf(stream, token).Some? && Reconciliation.StartOf(stream, token).value <= upTo
    ensures Reconciliation.StartOf(stream[..upTo], token) == Reconciliation.StartOf(stream, token)
  {
    if token.Some? {
      var start, shown := Reconciliation.StartOf(stream, token).value, stream[..upTo];
      Reconciliation.StartFollowsToken(stream, token.value);
      assert shown[start - 1] == stream[start - 1];
      assert Reconciliation.ActivityIdsDistinct(shown) by {
        forall i, j | 0 <= i < j < |shown| ensures shown[i].activityId != shown[j].activityId {
          assert shown[i] == stream[i] && shown[j] == stream[j];
        }
      }
      Reconciliation.StartIsUnique(shown, start);
    }
  }

  lemma {:induction false} StoredInPrefix(fills: map<string, FillActivity>, stream: seq<FillActivity>, n: nat, upTo: nat)
    requires Reconciliation.StoredPrefix(fills, stream, n) && n <= upTo <= |stream|
    ensures Reconciliation.StoredPrefix(fills, stream[..upTo], n)
  {
    forall i | 0 <= i < n ensures stream[..upTo][i] == stream[i] { }
    forall id | id in fills ensures exists i :: 0 <= i < n && stream[..upTo][i].executionId == id {
      var i :| 0 <= i < n && stream[i].executionId == id;
      assert stream[..upTo][i].executionId == id;
    }
  }

  lemma {:induction false} LastTokenOfNormalized(stream: seq<FillActivity>, start: nat, fills: seq<FillActivity>, checkpoint: Option<ActivityId>)
    requires start <= |stream| && Reconciliation.NormalizesRest(stream, start, fills)
    ensures Reconciliation.LastToken(fills, checkpoint) == Reconciliation.LastToken(stream[start..], checkpoint)
  {
    if fills != [] {
      var last := |fills| - 1;
      assert Reconciliation.Normalizes(stream[start + last], fills[last]);
      assert Ownerless(fills[last]).activityId == Ownerless(stream[start + last]).activityId;
    }
  }

  lemma {:induction false} ResolutionsAreTruthful(rows: seq<Submission>, w: World)
    ensures Truthful(Resolutions(rows, w), w)
  {
    if rows != [] { ResolutionsAreTruthful(rows[..|rows| - 1], w); }
  }

  lemma {:induction false} PauseKeepsStore(store: OperatorControl.Store, timestamp: int)
    requires OperatorControl.StoreInvariant(store)
    ensures OperatorControl.StoreInvariant(PausedAt(store, timestamp))
    ensures PausedAt(store, timestamp).Paused()
  {
    OperatorControl.CommandKeepsInvariant(store, "", OperatorControl.Pause(timestamp, PauseCode, PauseCode));
    assert OperatorControl.WordChar(PauseCode[0]);
    assert OperatorControl.ValidReasonCode(PauseCode) && !OperatorControl.Blank(PauseCode);
  }

  // ----- one step of the executor -----

  /** A step that only moves the program counter. */
  ghost predicate OnlyMoves(setup: Setup, s: System, after: System) {
    && after.journal == s.journal && after.operator == s.operator && after.world == s.world
    && ProcessOk(setup, after)
  }

  ghost predicate ProcessOk(setup: Setup, s: System) {
    s.process.Running? ==> StageOk(setup, s.journal, s.world, s.process.job, s.process.stage)
  }

  ghost predicate Tables(setup: Setup, s: System) {
    Base(setup, s.journal, s.operator, s.world)
  }

  /** Where every step of the executor starts. */
  ghost predicate Before(setup: Setup, s: System, job: Job, stage: Stage) {
    Tables(setup, s) && At(setup, s, job, stage)
  }

  ghost predicate At(setup: Setup, s: System, job: Job, stage: Stage) {
    s.process == Running(job, stage) && StageOk(setup, s.journal, s.world, job, stage)
  }

  lemma {:induction false} ReconcileFailedOnlyMoves(setup: Setup, s: System, job: Job, purpose: Purpose)
    requires Startable(setup, job)
    ensures OnlyMoves(setup, s, ReconcileFailed(s, job, purpose))
  {
  }

  lemma {:induction false} FailureOnlyMoves(setup: Setup, s: System, job: Job, stage: Stage)
    requires At(setup, s, job, stage)
    ensures OnlyMoves(setup, s, AfterFailure(s, job, stage))
  {
    if Reconciling(stage) {
      ReconcileFailedOnlyMoves(setup, s, job, stage.purpose);
      assert AfterFailure(s, job, stage) == ReconcileFailed(s, job, stage.purpose);
    } else {
      CallFailureOnlyMoves(setup, s, job, stage);
    }
  }

  lemma {:induction false} CallFailureOnlyMoves(setup: Setup, s: System, job: Job, stage: Stage)
    requires At(setup, s, job, stage) && !Reconciling(stage)
    ensures OnlyMoves(setup, s, AfterFailure(s, job, stage))
  {
    var after := AfterFailure(s, job, stage);
    assert after == s.(process := after.process);
  }

  predicate Admits(stage: Stage) { stage.CheckUnresolved? || stage.CheckUnknown? || stage.VerifyContext? }

  lemma {:induction false} AdmittingOnlyMoves(setup: Setup, s: System, job: Job, stage: Stage, answer: Answer)
    requires JournalOk(s.journal) && At(setup, s, job, stage) && job.Execute? && Admits(stage)
    ensures OnlyMoves(setup, s, AssessStep(setup, s, job, stage, answer))
  {
    if stage.CheckUnresolved? { RowsAreUnresolved(s.journal); }
  }

  lemma {:induction false} AssessingOnlyMoves(setup: Setup, s: System, job: Job, stage: Stage, answer: Answer)
    requires At(setup, s, job, stage) && job.Execute? && Assessing(stage) && !Admits(stage) && !stage.PersistOrder?
    ensures OnlyMoves(setup, s, AssessStep(setup, s, job, stage, answer))
  {
  }

  lemma {:induction false} PersistingIsSafe(setup: Setup, s: System, job: Job, stage: Stage, answer: Answer)
    requires Before(setup, s, job, stage) && job.Execute? && stage.PersistOrder?
    ensures Safe(setup, AssessStep(setup, s, job, stage, answer))
  {
    PersistKeepsBase(setup, s, job.order, setup.hash(job.order), job.timestamp);
  }

  predicate Checks(stage: Stage) {
    stage.CheckAfterPersist? || stage.CheckAfterStart? || stage.VerifyBeforeSubmit? || stage.LookUpExisting? || stage.AfterAcknowledged?
  }

  lemma {:induction false} CheckingOnlyMoves(setup: Setup, s: System, job: Job, stage: Stage, answer: Answer)
    requires At(setup, s, job, stage) && job.Execute? && Checks(stage)
    ensures OnlyMoves(setup, s, SubmitStep(s, job, stage, answer))
  {
  }

  lemma {:induction false} AwaitingOnlyMoves(setup: Setup, s: System, job: Job, stage: Stage, answer: Answer)
    requires At(setup, s, job, stage) && job.Execute? && stage.AwaitResponse?
    ensures OnlyMoves(setup, s, SubmitStep(s, job, stage, answer))
  {
  }

  lemma {:induction false} LookingUpOnlyMoves(setup: Setup, s: System, job: Job, stage: Stage, answer: Answer)
    requires At(setup, s, job, stage) && job.Execute? && stage.LookUpAfterFailure?
    ensures OnlyMoves(setup, s, SubmitStep(s, job, stage, answer))
  {
  }

  /** A journal write that agrees with the broker, and where its outcome leads. */
  lemma {:induction false} WritingIsSafe(setup: Setup, s: System, job: Job, stage: Stage, client: ClientId, state: SubmissionState,
                      broker: Option<BrokerId>, reason: Option<string>, next: Process)
    requires Before(setup, s, job, stage) && client in s.journal.entries
    requires state == Rejected ==> Gone(client, s.world)
    requires state == Acknowledged ==> client in s.world.orders && broker == Some(s.world.orders[client])
    requires state == Started || state == Rejected || state == Ambiguous ==> broker.None?
    requires state != Persisted && state != Reconciled
    requires var result := Transition(s.journal, client, state, job.timestamp, broker, reason);
             result.Ok? && next.Running? ==> StageOk(setup, result.value.0, s.world, next.job, next.stage)
    ensures Safe(setup, Written(s, job, client, state, broker, reason, next, stage))
  {
    var result := Transition(s.journal, client, state, job.timestamp, broker, reason);
    if result.Ok? {
      WriteKeepsBase(setup, s, client, state, job.timestamp, broker, reason);
    } else {
      FailureOnlyMoves(setup, s, job, stage);
    }
  }

  lemma {:induction false} TransitionEntersState(journal: Journal, client: ClientId, state: SubmissionState, timestamp: int,
                              broker: Option<BrokerId>, reason: Option<string>)
    ensures var result := Transition(journal, client, state, timestamp, broker, reason);
            result.Ok? ==> InState(result.value.0, client, state)
  {
  }

  lemma {:induction false} WriteKeepsBase(setup: Setup, s: System, client: ClientId, state: SubmissionState, t: int,
                       broker: Option<BrokerId>, reason: Option<string>)
    requires Tables(setup, s) && client in s.journal.entries
    requires state == Rejected ==> Gone(client, s.world)
    requires state == Acknowledged ==> client in s.world.orders && broker == Some(s.world.orders[client])
    requires state == Started || state == Rejected || state == Ambiguous ==> broker.None?
    requires state != Persisted && state != Reconciled
    ensures var result := Transition(s.journal, client, state, t, broker, reason);
            result.Ok? ==> Base(setup, result.value.0, s.operator, s.world) && InState(result.value.0, client, state)
  {
    assert Agrees(setup, client, s.journal.entries[client], s.world);
    var result := Transition(s.journal, client, state, t, broker, reason);
    if result.Ok? {
      TransitionKeepsBase(setup, s, client, state, t, broker, reason);
    }
  }

  lemma {:induction false} StartingIsSafe(setup: Setup, s: System, job: Job, stage: Stage, answer: Answer)
    requires Before(setup, s, job, stage) && job.Execute? && stage.StartSubmission?
    ensures Safe(setup, SubmitStep(s, job, stage, answer))
  {
    TransitionEntersState(s.journal, job.order.clientId, Started, job.timestamp, None, Some(job.attempt));
    WritingIsSafe(setup, s, job, stage, job.order.clientId, Started, None, Some(job.attempt),
                  Running(job, CheckAfterStart));
  }

  lemma {:induction false} AcknowledgingIsSafe(setup: Setup, s: System, job: Job, broker: BrokerId)
    requires Before(setup, s, job, AcknowledgeOrder(broker)) && job.Execute?
    ensures Safe(setup, Written(s, job, job.order.clientId, Acknowledged, Some(broker), None, Running(job, AfterAcknowledged),
                                AcknowledgeOrder(broker)))
  {
    TransitionEntersState(s.journal, job.order.clientId, Acknowledged, job.timestamp, Some(broker), None);
    WritingIsSafe(setup, s, job, AcknowledgeOrder(broker), job.order.clientId, Acknowledged, Some(broker), None,
                  Running(job, AfterAcknowledged));
  }

  lemma {:induction false} AcknowledgementWrites(s: System, job: Job, broker: BrokerId, answer: Answer)
    requires job.Execute?
    ensures SubmitStep(s, job, AcknowledgeOrder(broker), answer)
            == Written(s, job, job.order.clientId, Acknowledged, Some(broker), None, Running(job, AfterAcknowledged),
                       AcknowledgeOrder(broker))
  {
  }

  lemma {:induction false} PauseWrites(s: System, job: Job, answer: Answer)
    requires job.Execute?
    ensures SubmitStep(s, job, RecordPaused, answer)
            == Written(s, job, job.order.clientId, Rejected, None, Some(PausedReason), Idle(Some(Blocked)), RecordPaused)
  {
  }

  lemma {:induction false} RejectionWrites(s: System, job: Job, answer: Answer)
    requires job.Execute?
    ensures SubmitStep(s, job, RecordRejected, answer)
            == Written(s, job, job.order.clientId, Rejected, None, Some(RejectedReason),
                       Running(job, PauseAnd(RejectedByBroker)), RecordRejected)
  {
  }

  lemma {:induction false} DoubtWrites(s: System, job: Job, answer: Answer)
    requires job.Execute?
    ensures SubmitStep(s, job, RecordAmbiguous, answer)
            == Written(s, job, job.order.clientId, Ambiguous, None, Some(AmbiguousReason),
                       Running(job, PauseAnd(Uncertain)), RecordAmbiguous)
  {
  }

  /** An operator pause seen before the request rejects a submission for which nothing was ever sent. */
  lemma {:induction false} RecordingPauseIsSafe(setup: Setup, s: System, job: Job)
    requires Before(setup, s, job, RecordPaused) && job.Execute?
    ensures Safe(setup, Written(s, job, job.order.clientId, Rejected, None, Some(PausedReason), Idle(Some(Blocked)), RecordPaused))
  {
    WritingIsSafe(setup, s, job, RecordPaused, job.order.clientId, Rejected, None, Some(PausedReason), Idle(Some(Blocked)));
  }

  lemma {:induction false} RecordingRejectionIsSafe(setup: Setup, s: System, job: Job)
    requires Before(setup, s, job, RecordRejected) && job.Execute?
    ensures Safe(setup, Written(s, job, job.order.clientId, Rejected, None, Some(RejectedReason),
                                Running(job, PauseAnd(RejectedByBroker)), RecordRejected))
  {
    WritingIsSafe(setup, s, job, RecordRejected, job.order.clientId, Rejected, None, Some(RejectedReason),
                  Running(job, PauseAnd(RejectedByBroker)));
  }

  lemma {:induction false} RecordingDoubtIsSafe(setup: Setup, s: System, job: Job)
    requires Before(setup, s, job, RecordAmbiguous) && job.Execute?
    ensures Safe(setup, Written(s, job, job.order.clientId, Ambiguous, None, Some(AmbiguousReason),
                                Running(job, PauseAnd(Uncertain)), RecordAmbiguous))
  {
    WritingIsSafe(setup, s, job, RecordAmbiguous, job.order.clientId, Ambiguous, None, Some(AmbiguousReason),
                  Running(job, PauseAnd(Uncertain)));
  }

  /** The one step that sends a request: its id has never been sent before. */
  lemma {:induction false} PostingIsSafe(setup: Setup, s: System, job: Job, stage: Stage, answer: Answer)
    requires Before(setup, s, job, stage) && job.Execute? && stage.Post?
    ensures job.order.clientId !in s.world.posts
    ensures Safe(setup, SubmitStep(s, job, stage, answer))
  {
    PostKeepsBase(setup, s, job.order.clientId);
  }

  lemma {:induction false} PostKeepsBase(setup: Setup, s: System, client: ClientId)
    requires Tables(setup, s)
    requires InState(s.journal, client, Started) && client !in s.world.posts && Owned(client, setup.prefix)
    ensures var w := s.world.(posts := s.world.posts + [client], inFlight := s.world.inFlight + {client});
            Base(setup, s.journal, s.operator, w)
  {
    var w := s.world.(posts := s.world.posts + [client], inFlight := s.world.inFlight + {client});
    forall c | c in s.journal.entries ensures Agrees(setup, c, s.journal.entries[c], w) {
      assert Agrees(setup, c, s.journal.entries[c], s.world);
    }
  }

  lemma {:induction false} ReadingEntryOnlyMoves(setup: Setup, s: System, job: Job, stage: Stage)
    requires At(setup, s, job, stage) && job.Recover? && stage.ReadEntry?
    ensures OnlyMoves(setup, s, RecoverStep(s, job, stage))
  {
  }

  lemma {:induction false} FindingOnlyMoves(setup: Setup, s: System, job: Job, stage: Stage)
    requires At(setup, s, job, stage) && job.Recover? && (stage.VerifyRecovery? || stage.FindOrder?)
    ensures OnlyMoves(setup, s, RecoverStep(s, job, stage))
  {
  }

  lemma {:induction false} RecoverWriteIsSafe(setup: Setup, s: System, job: Job, stage: Stage)
    requires Before(setup, s, job, stage) && job.Recover? && (stage.RecordNeverStarted? || stage.AcknowledgeFound?)
    ensures Safe(setup, RecoverStep(s, job, stage))
  {
    match stage
    case RecordNeverStarted =>
      assert Agrees(setup, job.client, s.journal.entries[job.client], s.world);
      WritingIsSafe(setup, s, job, stage, job.client, Rejected, None, Some(NeverStartedReason),
                    Idle(Some(RejectedByBroker)));
    case AcknowledgeFound(broker) =>
      WritingIsSafe(setup, s, job, stage, job.client, Acknowledged, Some(broker), None,
                    Running(job, LookUpRows(Recovery)));
    case _ =>
  }

  lemma {:induction false} LookingUpRowsOnlyMoves(setup: Setup, s: System, job: Job, stage: Stage, answer: Answer)
    requires At(setup, s, job, stage) && stage.LookUpRows?
    ensures OnlyMoves(setup, s, ReconcileStep(s, job, stage, answer))
  {
    ResolutionsAreTruthful(Rows(s.journal), s.world);
    ReconcileFailedOnlyMoves(setup, s, job, stage.purpose);
    var found := ReadFills(stage.purpose, Resolutions(Rows(s.journal), s.world));
    assert StageOk(setup, s.journal, s.world, job, found);
  }

  lemma {:induction false} ReadingFillsOnlyMoves(setup: Setup, s: System, job: Job, stage: Stage, answer: Answer)
    requires At(setup, s, job, stage) && stage.ReadFills?
    ensures OnlyMoves(setup, s, ReconcileStep(s, job, stage, answer))
  {
  }

  lemma {:induction false} AfterReconcileOnlyMoves(setup: Setup, s: System, job: Job, purpose: Purpose, ready: bool)
    requires Startable(setup, job) && PurposeOk(s.journal, job, purpose)
    ensures OnlyMoves(setup, s, AfterReconcile(s, job, purpose, ready))
  {
  }

  lemma {:induction false} CommittingIsSafe(setup: Setup, s: System, job: Job, stage: Stage, answer: Answer)
    requires Before(setup, s, job, stage) && stage.CommitReads? && answer.Projections?
    ensures Safe(setup, ReconcileStep(s, job, stage, answer))
  {
    var commit := CommitOf(s.journal, job.timestamp, stage.resolutions, stage.fills, answer.orders, answer.positions);
    if ApplyCommit(s.journal, commit).Ok? {
      var committed := s.(journal := ApplyCommit(s.journal, commit).value);
      CommitKeepsBase(setup, s, commit, stage.upTo);
      AfterReconcileOnlyMoves(setup, committed, job, stage.purpose, answer.ready);
    } else {
      FailureOnlyMoves(setup, s, job, stage);
    }
  }

  /** One state leads to another by committing. */
  ghost predicate ReconciledTo(s: System, after: System, job: Job, purpose: Purpose, commit: Commit, ready: bool)
    requires ApplyCommit(s.journal, commit).Ok?
  {
    && after.journal == ApplyCommit(s.journal, commit).value && after.operator == s.operator && after.world == s.world
    && after.process == AfterReconcile(after, job, purpose, ready).process
  }

  lemma {:induction false} CommitLeads(s: System, job: Job, purpose: Purpose, commit: Commit, upTo: nat, ready: bool)
    requires ApplyCommit(s.journal, commit).Ok?
    requires commit == CommitOf(s.journal, job.timestamp, commit.resolutions, commit.fills, commit.orders, commit.positions)
    ensures var after := ReconcileStep(s, job, CommitReads(purpose, commit.resolutions, upTo, commit.fills),
                                       Projections(commit.orders, commit.positions, ready));
            ReconciledTo(s, after, job, purpose, commit, ready)
  {
    var committed := s.(journal := ApplyCommit(s.journal, commit).value);
    assert ReconcileStep(s, job, CommitReads(purpose, commit.resolutions, upTo, commit.fills),
                         Projections(commit.orders, commit.positions, ready)) == AfterReconcile(committed, job, purpose, ready);
  }

  lemma {:induction false} RequiringOnlyMoves(setup: Setup, s: System, job: Job, stage: Stage)
    requires At(setup, s, job, stage) && stage.RequireReconciled?
    ensures OnlyMoves(setup, s, FinishStep(s, job, stage))
  {
  }

  lemma {:induction false} PauseIsSafe(setup: Setup, s: System, timestamp: int)
    requires Tables(setup, s)
    ensures Tables(setup, s.(operator := PausedAt(s.operator, timestamp)))
  {
    PauseKeepsStore(s.operator, timestamp);
  }

  lemma {:induction false} ProcessKeepsSafe(setup: Setup, s: System, job: Job, stage: Stage, answer: Answer)
    requires Before(setup, s, job, stage)
    ensures Safe(setup, ProcessStep(setup, s, job, stage, answer))
  {
    if answer.Fails? {
      FailureOnlyMoves(setup, s, job, stage);
    } else if stage.CommitReads? {
      if answer.Projections? { CommittingIsSafe(setup, s, job, stage, answer); }
    } else if stage.LookUpRows? {
      LookingUpRowsOnlyMoves(setup, s, job, stage, answer);
    } else if stage.ReadFills? {
      ReadingFillsOnlyMoves(setup, s, job, stage, answer);
    } else if stage.RequireReconciled? {
      RequiringOnlyMoves(setup, s, job, stage);
    } else if stage.PauseAnd? {
      PauseIsSafe(setup, s, job.timestamp);
    } else if job.Execute? {
      ExecutingKeepsSafe(setup, s, job, stage, answer);
    } else if job.Recover? {
      RecoveringKeepsSafe(setup, s, job, stage);
    }
  }

  lemma {:induction false} ExecutingKeepsSafe(setup: Setup, s: System, job: Job, stage: Stage, answer: Answer)
    requires Before(setup, s, job, stage) && job.Execute?
    ensures Safe(setup, if Assessing(stage) then AssessStep(setup, s, job, stage, answer) else SubmitStep(s, job, stage, answer))
  {
    if stage.PersistOrder? {
      PersistingIsSafe(setup, s, job, stage, answer);
    } else if Admits(stage) {
      AdmittingOnlyMoves(setup, s, job, stage, answer);
    } else if Assessing(stage) {
      AssessingOnlyMoves(setup, s, job, stage, answer);
    } else if stage.Post? {
      PostingIsSafe(setup, s, job, stage, answer);
    } else if stage.StartSubmission? {
      StartingIsSafe(setup, s, job, stage, answer);
    } else if stage.AcknowledgeOrder? {
      AcknowledgingIsSafe(setup, s, job, stage.broker);
      AcknowledgementWrites(s, job, stage.broker, answer);
    } else if stage.RecordPaused? {
      RecordingPauseIsSafe(setup, s, job);
      PauseWrites(s, job, answer);
    } else if stage.RecordRejected? {
      RecordingRejectionIsSafe(setup, s, job);
      RejectionWrites(s, job, answer);
    } else if stage.RecordAmbiguous? {
      RecordingDoubtIsSafe(setup, s, job);
      DoubtWrites(s, job, answer);
    } else if stage.AwaitResponse? {
      AwaitingOnlyMoves(setup, s, job, stage, answer);
    } else if stage.LookUpAfterFailure? {
      LookingUpOnlyMoves(setup, s, job, stage, answer);
    } else if Checks(stage) {
      CheckingOnlyMoves(setup, s, job, stage, answer);
    }
  }

  lemma {:induction false} RecoveringKeepsSafe(setup: Setup, s: System, job: Job, stage: Stage)
    requires Before(setup, s, job, stage) && job.Recover?
    ensures Safe(setup, RecoverStep(s, job, stage))
  {
    if stage.PauseFirst? {
      PauseIsSafe(setup, s, job.timestamp);
    } else if stage.ReadEntry? {
      ReadingEntryOnlyMoves(setup, s, job, stage);
    } else if stage.VerifyRecovery? || stage.FindOrder? {
      FindingOnlyMoves(setup, s, job, stage);
    } else if stage.RecordNeverStarted? || stage.AcknowledgeFound? {
      RecoverWriteIsSafe(setup, s, job, stage);
    }
  }

  lemma {:induction false} CallKeepsSafe(setup: Setup, s: System, job: Job)
    requires Safe(setup, s) && Startable(setup, job)
    ensures Safe(setup, Goto(s, job, First(job)))
  {
  }

  lemma {:induction false} CrashKeepsSafe(setup: Setup, s: System)
    requires Safe(setup, s)
    ensures Safe(setup, s.(process := Idle(None)))
  {
  }

  lemma {:induction false} ProceedKeepsSafe(setup: Setup, s: System, answer: Answer)
    requires Safe(setup, s)
    ensures Safe(setup, Next(setup, s, Proceed(answer)))
  {
    if s.process.Running? {
      var job, stage := s.process.job, s.process.stage;
      assert Next(setup, s, Proceed(answer)) == ProcessStep(setup, s, job, stage, answer);
      ProcessKeepsSafe(setup, s, job, stage, answer);
    }
  }

  lemma {:induction false} OutsideKeepsSafe(setup: Setup, s: System, action: Action)
    requires Safe(setup, s) && !action.Proceed?
    ensures Safe(setup, Next(setup, s, action))
  {
    match action
    case Crash => CrashKeepsSafe(setup, s);
    case OperatorCall(command) => OperatorKeepsSafe(setup, s, command);
    case Call(job) => if Startable(setup, job) { CallKeepsSafe(setup, s, job); }
    case _ => BrokerKeepsSafe(setup, s, action);
  }

  lemma {:induction false} StepKeepsSafe(setup: Setup, s: System, action: Action)
    requires Safe(setup, s)
    ensures Safe(setup, Next(setup, s, action))
  {
    if action.Proceed? {
      ProceedKeepsSafe(setup, s, action.answer);
    } else {
      OutsideKeepsSafe(setup, s, action);
    }
  }

  lemma {:induction false} EveryRunIsSafe(setup: Setup, created: int, actions: seq<Action>)
    ensures Safe(setup, Run(setup, Initial(created), actions))
  {
    if actions != [] {
      EveryRunIsSafe(setup, created, actions[..|actions| - 1]);
      StepKeepsSafe(setup, Run(setup, Initial(created), actions[..|actions| - 1]), actions[|actions| - 1]);
    }
  }
}
