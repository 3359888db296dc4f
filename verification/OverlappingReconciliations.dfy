/**
 * Reconciliations that overlap: each takes the checkpoint, reads pages while the broker appends, and commits what it
 * read, and any number of them may be under way on one journal, beside an executor that writes submissions.
 */
module OverlappingReconciliations {
  import opened Prelude
  import opened Brokerage
  import opened BrokerJournal
  import opened Reconciliation
  import PaperProtocol

  /** A reconciliation under way: the checkpoint it took, and what it will commit once it has read. */
  datatype Pending = Pending(token: Option<ActivityId>, commit: Option<Commit>)

  datatype Shared = Shared(journal: Journal, stream: seq<FillActivity>, pending: map<nat, Pending>)

  datatype Action =
    | BrokerFill(fill: FillActivity)
    | Begin(id: nat)
    | FinishReading(id: nat, commit: Commit)
    | CommitRead(id: nat)
    | GiveUp(id: nat)
    | PersistOrder(order: ApprovedOrder, payloadHash: string, timestamp: int)
    | MoveSubmission(client: ClientId, state: SubmissionState, timestamp: int, broker: Option<BrokerId>, reason: Option<string>)

  /** The fills are what the stream holds from position `start` on, normalized, up to wherever reading ended. */
  ghost predicate ReadFrom(stream: seq<FillActivity>, start: nat, fills: seq<FillActivity>) {
    start + |fills| <= |stream| && forall i :: 0 <= i < |fills| ==> Normalizes(stream[start + i], fills[i])
  }

  /** What a reader that took this token may have read by now. */
  ghost predicate CouldHaveRead(stream: seq<FillActivity>, token: Option<ActivityId>, commit: Commit) {
    && StartOf(stream, token).Some? && ReadFrom(stream, StartOf(stream, token).value, commit.fills)
    && commit.checkpoint == LastToken(commit.fills, token)
  }

  function Committed(journal: Journal, commit: Commit): Journal {
    match ApplyCommit(journal, commit)
    case Err(_) => journal
    case Ok(after) => after
  }

  function Submitted(journal: Journal, action: Action): Journal {
    match action
    case PersistOrder(order, payloadHash, timestamp) =>
      var result := Persist(journal, order, payloadHash, timestamp);
      if result.Ok? then result.value.0 else journal
    case MoveSubmission(client, state, timestamp, broker, reason) =>
      var result := Transition(journal, client, state, timestamp, broker, reason);
      if result.Ok? then result.value.0 else journal
    case _ => journal
  }

  /** One step of anybody; one that is not enabled changes nothing. */
  ghost function Next(s: Shared, action: Action): Shared {
    match action
    case BrokerFill(fill) => if PaperProtocol.NewFill(s.stream, fill) then s.(stream := s.stream + [fill]) else s
    case Begin(id) => s.(pending := s.pending[id := Pending(s.journal.checkpoint, None)])
    case FinishReading(id, commit) =>
      if id in s.pending && CouldHaveRead(s.stream, s.pending[id].token, commit)
      then s.(pending := s.pending[id := Pending(s.pending[id].token, Some(commit))]) else s
    case CommitRead(id) =>
      if id in s.pending && s.pending[id].commit.Some?
      then s.(journal := Committed(s.journal, s.pending[id].commit.value), pending := s.pending - {id}) else s
    case GiveUp(id) => s.(pending := s.pending - {id})
    case _ => s.(journal := Submitted(s.journal, action))
  }

  ghost function Run(s: Shared, actions: seq<Action>): Shared {
    if actions == [] then s else Next(Run(s, actions[..|actions| - 1]), actions[|actions| - 1])
  }

  const Start: Shared := Shared(EmptyJournal, [], map[])

  // ----- the invariant -----

  /** The stored fills are a prefix of the stream that reaches at least position `k`. */
  ghost predicate Reaches(fills: map<string, FillActivity>, stream: seq<FillActivity>, k: nat) {
    exists n: nat :: k <= n && StoredPrefix(fills, stream, n)
  }

  ghost predicate TokenStored(s: Shared, token: Option<ActivityId>) {
    StartOf(s.stream, token).Some? && Reaches(s.journal.fills, s.stream, StartOf(s.stream, token).value)
  }

  ghost predicate StreamOk(stream: seq<FillActivity>) {
    && ActivityIdsDistinct(stream) && ExecutionsDistinct(stream)
    && forall i :: 0 <= i < |stream| ==> !BlankToken(Some(stream[i].activityId))
  }

  ghost predicate PendingOk(s: Shared, pending: Pending) {
    && TokenStored(s, pending.token)
    && (pending.commit.Some? ==> CouldHaveRead(s.stream, pending.token, pending.commit.value))
  }

  /** The stored fills are a stream prefix that reaches at least the checkpoint, and at least the checkpoint every
      reader took. */
  ghost predicate Consistent(s: Shared) {
    && StreamOk(s.stream) && TokenStored(s, s.journal.checkpoint)
    && forall id :: id in s.pending ==> PendingOk(s, s.pending[id])
  }

  // ----- storing what is partly stored -----

  /** The owner that a read found for a stored fill is the stored one, or there was none. */
  predicate OwnerAgrees(stored: FillActivity, fill: FillActivity) {
    stored.clientId.None? || stored.clientId == fill.clientId
  }

  /** No fill that is already stored is read back with its owner missing or different. */
  predicate OwnersAgree(fills: map<string, FillActivity>, read: seq<FillActivity>) {
    forall i :: 0 <= i < |read| && read[i].executionId in fills ==> OwnerAgrees(fills[read[i].executionId], read[i])
  }

  lemma {:induction false} ReadRest(stream: seq<FillActivity>, start: nat, read: seq<FillActivity>)
    requires ReadFrom(stream, start, read) && read != []
    ensures Normalizes(stream[start], read[0]) && ReadFrom(stream, start + 1, read[1..])
  {
    assert Normalizes(stream[start + 0], read[0]);
    forall i | 0 <= i < |read| - 1 ensures Normalizes(stream[start + 1 + i], read[1..][i]) {
      assert Normalizes(stream[start + (i + 1)], read[i + 1]);
    }
  }

  /** Storing a fill again succeeds exactly when its owner agrees, and changes no prefix. */
  lemma {:induction false} StoringAgain(fills: map<string, FillActivity>, stream: seq<FillActivity>, n: nat, k: nat, fill: FillActivity)
    requires StoredPrefix(fills, stream, n) && k < n && Normalizes(stream[k], fill)
    ensures fill.executionId == stream[k].executionId
    ensures fill.executionId in fills && (StoreFill(fills, fill).Ok? <==> OwnerAgrees(fills[fill.executionId], fill))
    ensures StoreFill(fills, fill).Ok? ==>
              StoreFill(fills, fill).value == fills[fill.executionId := fill] && StoredPrefix(fills[fill.executionId := fill], stream, n)
  {
    var existing := fills[stream[k].executionId];
    assert Ownerless(existing) == Ownerless(stream[k]) == Ownerless(fill);
    assert fill.executionId == Ownerless(fill).executionId;
    assert existing == Ownerless(existing).(clientId := existing.clientId);
    assert fill == Ownerless(fill).(clientId := fill.clientId);
    if StoreFill(fills, fill).Ok? { StoredAgainKeepsPrefix(fills, stream, n, k, fill); }
  }

  lemma {:induction false} StoredAgainKeepsPrefix(fills: map<string, FillActivity>, stream: seq<FillActivity>, n: nat, k: nat, fill: FillActivity)
    requires StoredPrefix(fills, stream, n) && k < n && fill.executionId == stream[k].executionId
    requires Ownerless(fill) == Ownerless(fills[stream[k].executionId])
    ensures StoredPrefix(fills[fill.executionId := fill], stream, n)
  {
    var after := fills[fill.executionId := fill];
    assert after.Keys == fills.Keys;
    forall id | id in after ensures exists i :: 0 <= i < n && stream[i].executionId == id {
      assert id in fills;
    }
  }

  function MaxNat(a: nat, b: nat): nat { if a >= b then a else b }

  lemma {:induction false} OwnersOfRest(fills: map<string, FillActivity>, read: seq<FillActivity>)
    requires read != [] && ExecutionsDistinct(read)
    ensures OwnersAgree(fills, read) <==>
              && (read[0].executionId in fills ==> OwnerAgrees(fills[read[0].executionId], read[0]))
              && OwnersAgree(fills[read[0].executionId := read[0]], read[1..])
  {
    var after, rest := fills[read[0].executionId := read[0]], read[1..];
    forall i | 0 <= i < |rest|
      ensures rest[i] == read[i + 1] && rest[i].executionId != read[0].executionId
    {
    }
    if OwnersAgree(fills, read) {
      forall i | 0 <= i < |rest| && rest[i].executionId in after ensures OwnerAgrees(after[rest[i].executionId], rest[i]) {
        assert OwnerAgrees(fills[read[i + 1].executionId], read[i + 1]);
      }
    }
    if OwnersAgree(after, rest) {
      forall i | 1 <= i < |read| && read[i].executionId in fills ensures OwnerAgrees(fills[read[i].executionId], read[i]) {
        assert rest[i - 1] == read[i];
      }
    }
  }

  lemma {:induction false} ReadIsDistinct(stream: seq<FillActivity>, start: nat, read: seq<FillActivity>)
    requires ExecutionsDistinct(stream) && ReadFrom(stream, start, read)
    ensures ExecutionsDistinct(read)
  {
    forall i | 0 <= i < |read| ensures read[i].executionId == stream[start + i].executionId {
      assert Ownerless(read[i]).executionId == Ownerless(stream[start + i]).executionId;
    }
  }

  /** Storing what was read from any position within the stored prefix succeeds exactly when no stored owner is missing
      or different in it, and then leaves the longer of the two prefixes. */
  lemma {:induction false} StoringOverlap(fills: map<string, FillActivity>, stream: seq<FillActivity>, n: nat, start: nat,
                                          read: seq<FillActivity>)
    requires StoredPrefix(fills, stream, n) && ActivityIdsDistinct(stream) && ExecutionsDistinct(stream)
    requires start <= n && ReadFrom(stream, start, read)
    ensures StoreFills(fills, read).Ok? <==> OwnersAgree(fills, read)
    ensures StoreFills(fills, read).Ok? ==>
              StoredPrefix(StoreFills(fills, read).value, stream, MaxNat(n, start + |read|))
    decreases |read|
  {
    if read != [] {
      ReadRest(stream, start, read);
      ReadIsDistinct(stream, start, read);
      OwnersOfRest(fills, read);
      StoringFirst(fills, stream, n, start, read[0]);
      StoringRest(fills, read);
      var after, m, rest := fills[read[0].executionId := read[0]], MaxNat(n, start + 1), read[1..];
      if StoreFill(fills, read[0]).Ok? {
        StoringOverlap(after, stream, m, start + 1, rest);
        assert MaxNat(m, start + 1 + |rest|) == MaxNat(n, start + |read|);
      }
    }
  }

  lemma {:induction false} StoringRest(fills: map<string, FillActivity>, read: seq<FillActivity>)
    requires read != []
    ensures match StoreFill(fills, read[0])
            case Err(error) => StoreFills(fills, read) == Err(error)
            case Ok(stored) => StoreFills(fills, read) == StoreFills(stored, read[1..])
  {
  }

  lemma {:induction false} StoringFirst(fills: map<string, FillActivity>, stream: seq<FillActivity>, n: nat, start: nat, fill: FillActivity)
    requires StoredPrefix(fills, stream, n) && ActivityIdsDistinct(stream) && ExecutionsDistinct(stream)
    requires start <= n && start < |stream| && Normalizes(stream[start], fill)
    ensures StoreFill(fills, fill).Ok? <==> (fill.executionId in fills ==> OwnerAgrees(fills[fill.executionId], fill))
    ensures StoreFill(fills, fill).Ok? ==>
              && StoreFill(fills, fill).value == fills[fill.executionId := fill]
              && StoredPrefix(fills[fill.executionId := fill], stream, MaxNat(n, start + 1))
  {
    if start == n {
      NothingStoredConflicts(fills, stream, n, fill);
      StoringOneExtends(fills, stream, n, fill);
    } else {
      StoringAgain(fills, stream, n, start, fill);
    }
  }

  // ----- what each step keeps -----

  lemma {:induction false} TokenGrows(stream: seq<FillActivity>, longer: seq<FillActivity>, token: Option<ActivityId>)
    requires stream <= longer && ActivityIdsDistinct(longer) && StartOf(stream, token).Some?
    ensures StartOf(longer, token) == StartOf(stream, token) && StartOf(stream, token).value <= |stream|
  {
    if token.Some? {
      StartFollowsToken(stream, token.value);
      TokenStaysValid(stream, longer, StartOf(stream, token).value);
    }
  }

  lemma {:induction false} PrefixGrows(fills: map<string, FillActivity>, stream: seq<FillActivity>, longer: seq<FillActivity>, n: nat)
    requires StoredPrefix(fills, stream, n) && stream <= longer
    ensures StoredPrefix(fills, longer, n)
  {
    forall id | id in fills ensures exists i :: 0 <= i < n && longer[i].executionId == id {
      var i :| 0 <= i < n && stream[i].executionId == id;
      assert longer[i].executionId == id;
    }
  }

  lemma {:induction false} ReachesGrows(fills: map<string, FillActivity>, stream: seq<FillActivity>, longer: seq<FillActivity>, k: nat)
    requires Reaches(fills, stream, k) && stream <= longer
    ensures Reaches(fills, longer, k)
  {
    var n: nat :| k <= n && StoredPrefix(fills, stream, n);
    PrefixGrows(fills, stream, longer, n);
  }

  lemma {:induction false} TokenStoredGrows(s: Shared, longer: seq<FillActivity>, token: Option<ActivityId>)
    requires s.stream <= longer && ActivityIdsDistinct(longer) && TokenStored(s, token)
    ensures TokenStored(s.(stream := longer), token)
  {
    TokenGrows(s.stream, longer, token);
    ReachesGrows(s.journal.fills, s.stream, longer, StartOf(s.stream, token).value);
  }

  lemma {:induction false} PendingGrows(s: Shared, longer: seq<FillActivity>, pending: Pending)
    requires s.stream <= longer && ActivityIdsDistinct(longer) && PendingOk(s, pending)
    ensures PendingOk(s.(stream := longer), pending)
  {
    TokenStoredGrows(s, longer, pending.token);
    TokenGrows(s.stream, longer, pending.token);
  }

  lemma {:induction false} FillKeepsConsistent(s: Shared, fill: FillActivity)
    requires Consistent(s) && PaperProtocol.NewFill(s.stream, fill)
    ensures Consistent(s.(stream := s.stream + [fill]))
  {
    var longer := s.stream + [fill];
    TokenStoredGrows(s, longer, s.journal.checkpoint);
    forall id | id in s.pending ensures PendingOk(s.(stream := longer), s.pending[id]) {
      PendingGrows(s, longer, s.pending[id]);
    }
  }

  /** The stored prefix has one length only. */
  lemma {:induction false} PrefixIsUnique(fills: map<string, FillActivity>, stream: seq<FillActivity>, n: nat, m: nat)
    requires StoredPrefix(fills, stream, n) && StoredPrefix(fills, stream, m) && ExecutionsDistinct(stream)
    ensures n <= m
  {
    if n > 0 {
      assert stream[n - 1].executionId in fills;
      var i :| 0 <= i < m && stream[i].executionId == stream[n - 1].executionId;
      assert i == n - 1;
    }
  }

  /** Reading ends where the checkpoint it commits points. */
  lemma {:induction false} ReadEndsAtCheckpoint(stream: seq<FillActivity>, token: Option<ActivityId>, commit: Commit)
    requires ActivityIdsDistinct(stream) && CouldHaveRead(stream, token, commit)
    ensures StartOf(stream, commit.checkpoint) == Some(StartOf(stream, token).value + |commit.fills|)
  {
    if commit.fills != [] {
      var start, last := StartOf(stream, token).value, |commit.fills| - 1;
      assert Normalizes(stream[start + last], commit.fills[last]);
      assert Ownerless(commit.fills[last]).activityId == Ownerless(stream[start + last]).activityId;
      StartIsUnique(stream, start + last + 1);
    }
  }

  /** Where a reader stopped. */
  ghost function ReadEnd(s: Shared, pending: Pending): nat
    requires PendingOk(s, pending) && pending.commit.Some?
  {
    StartOf(s.stream, pending.token).value + |pending.commit.value.fills|
  }

  /** What a commit does to fills and checkpoint. */
  ghost predicate Ingests(journal: Journal, commit: Commit, after: Journal) {
    && StoreFills(journal.fills, commit.fills) == Ok(after.fills)
    && after.checkpoint == if commit.checkpoint.Some? then commit.checkpoint else journal.checkpoint
  }

  lemma {:induction false} CommitIngestsRead(journal: Journal, commit: Commit)
    requires ApplyCommit(journal, commit).Ok?
    ensures Ingests(journal, commit, ApplyCommit(journal, commit).value)
  {
  }

  /** Whatever position was stored is still stored. */
  ghost predicate KeepsReach(before: map<string, FillActivity>, after: map<string, FillActivity>, stream: seq<FillActivity>) {
    forall k: nat :: Reaches(before, stream, k) ==> Reaches(after, stream, k)
  }

  lemma {:induction false} LongerPrefixReaches(before: map<string, FillActivity>, after: map<string, FillActivity>,
                                               stream: seq<FillActivity>, n: nat, m: nat)
    requires StoredPrefix(before, stream, n) && StoredPrefix(after, stream, m) && n <= m && ExecutionsDistinct(stream)
    ensures KeepsReach(before, after, stream)
  {
    forall k: nat | Reaches(before, stream, k) ensures Reaches(after, stream, k) {
      var l: nat :| k <= l && StoredPrefix(before, stream, l);
      PrefixIsUnique(before, stream, l, n);
    }
  }

  lemma {:induction false} StoringReaches(fills: map<string, FillActivity>, stream: seq<FillActivity>, start: nat, read: seq<FillActivity>)
    requires StreamOk(stream) && Reaches(fills, stream, start) && ReadFrom(stream, start, read) && StoreFills(fills, read).Ok?
    ensures Reaches(StoreFills(fills, read).value, stream, start + |read|)
    ensures KeepsReach(fills, StoreFills(fills, read).value, stream)
  {
    var n: nat :| start <= n && StoredPrefix(fills, stream, n);
    StoringOverlap(fills, stream, n, start, read);
    LongerPrefixReaches(fills, StoreFills(fills, read).value, stream, n, MaxNat(n, start + |read|));
  }

  /** Committing an overlapping read: what was stored stays stored, what was read is stored, and the checkpoint is the
      end of that read, wherever it was before. */
  lemma {:induction false} CommitOverlap(s: Shared, pending: Pending, after: Journal)
    requires StreamOk(s.stream) && PendingOk(s, pending) && pending.commit.Some?
    requires Ingests(s.journal, pending.commit.value, after)
    ensures Reaches(after.fills, s.stream, ReadEnd(s, pending)) && KeepsReach(s.journal.fills, after.fills, s.stream)
    ensures pending.commit.value.checkpoint.Some? ==> StartOf(s.stream, after.checkpoint) == Some(ReadEnd(s, pending))
    ensures OnlyAddsOwners(s.journal.fills, after.fills)
  {
    var commit := pending.commit.value;
    StoringReaches(s.journal.fills, s.stream, StartOf(s.stream, pending.token).value, commit.fills);
    StoredFillsAreKept(s.journal.fills, commit.fills);
    if commit.checkpoint.Some? { CheckpointIsReadEnd(s, pending, after.checkpoint); }
  }

  lemma {:induction false} CheckpointIsReadEnd(s: Shared, pending: Pending, checkpoint: Option<ActivityId>)
    requires StreamOk(s.stream) && PendingOk(s, pending) && pending.commit.Some? && checkpoint == pending.commit.value.checkpoint
    ensures StartOf(s.stream, checkpoint) == Some(ReadEnd(s, pending))
  {
    ReadEndsAtCheckpoint(s.stream, pending.token, pending.commit.value);
  }

  lemma {:induction false} PendingKept(s: Shared, after: Journal, pending: Pending)
    requires PendingOk(s, pending) && KeepsReach(s.journal.fills, after.fills, s.stream)
    ensures PendingOk(s.(journal := after), pending)
  {
  }

  lemma {:induction false} CommitKeepsConsistent(s: Shared, id: nat, after: Journal)
    requires Consistent(s) && id in s.pending && s.pending[id].commit.Some?
    requires Ingests(s.journal, s.pending[id].commit.value, after)
    ensures Consistent(s.(journal := after, pending := s.pending - {id}))
  {
    CommitOverlap(s, s.pending[id], after);
    CheckpointStored(s, s.pending[id], after);
    forall other | other in s.pending ensures PendingOk(s.(journal := after), s.pending[other]) {
      PendingKept(s, after, s.pending[other]);
    }
  }

  lemma {:induction false} CheckpointStored(s: Shared, pending: Pending, after: Journal)
    requires PendingOk(s, pending) && pending.commit.Some? && TokenStored(s, s.journal.checkpoint)
    requires Reaches(after.fills, s.stream, ReadEnd(s, pending)) && KeepsReach(s.journal.fills, after.fills, s.stream)
    requires if pending.commit.value.checkpoint.Some? then StartOf(s.stream, after.checkpoint) == Some(ReadEnd(s, pending))
             else after.checkpoint == s.journal.checkpoint
    ensures TokenStored(s.(journal := after), after.checkpoint)
  {
  }

  lemma {:induction false} SubmittingKeepsFills(journal: Journal, action: Action)
    ensures Submitted(journal, action).fills == journal.fills && Submitted(journal, action).checkpoint == journal.checkpoint
  {
  }

  lemma {:induction false} StepKeepsConsistent(s: Shared, action: Action)
    requires Consistent(s)
    ensures Consistent(Next(s, action))
  {
    match action
    case BrokerFill(fill) => if PaperProtocol.NewFill(s.stream, fill) { FillKeepsConsistent(s, fill); }
    case CommitRead(id) =>
      if id in s.pending && s.pending[id].commit.Some? && ApplyCommit(s.journal, s.pending[id].commit.value).Ok? {
        CommitIngestsRead(s.journal, s.pending[id].commit.value);
        CommitKeepsConsistent(s, id, ApplyCommit(s.journal, s.pending[id].commit.value).value);
      }
    case Begin(_) =>
    case FinishReading(_, _) =>
    case GiveUp(_) =>
    case _ => SubmittingKeepsFills(s.journal, action);
  }

  // ----- every run -----

  /** However reconciliations overlap, fail or are abandoned, the stored fills are a prefix of the broker's stream that
      reaches at least the checkpoint and everything a reader under way relies on. */
  lemma {:induction false} EveryRunIsConsistent(actions: seq<Action>)
    ensures Consistent(Run(Start, actions))
  {
    if actions == [] {
      assert StoredPrefix(map[], [], 0);
    } else {
      EveryRunIsConsistent(actions[..|actions| - 1]);
      StepKeepsConsistent(Run(Start, actions[..|actions| - 1]), actions[|actions| - 1]);
    }
  }

  /** The stored prefix never gets shorter, and no stored fill changes but for an owner added once. */
  ghost predicate Keeps(before: Shared, after: Shared) {
    && before.stream <= after.stream && OnlyAddsOwners(before.journal.fills, after.journal.fills)
    && forall k: nat :: Reaches(before.journal.fills, before.stream, k) ==> Reaches(after.journal.fills, after.stream, k)
  }

  lemma {:induction false} StepKeeps(s: Shared, action: Action)
    requires Consistent(s)
    ensures Keeps(s, Next(s, action))
  {
    match action
    case BrokerFill(fill) =>
      forall k: nat | Reaches(s.journal.fills, s.stream, k) ensures Reaches(s.journal.fills, Next(s, action).stream, k) {
        ReachesGrows(s.journal.fills, s.stream, Next(s, action).stream, k);
      }
    case CommitRead(id) =>
      if id in s.pending && s.pending[id].commit.Some? && ApplyCommit(s.journal, s.pending[id].commit.value).Ok? {
        CommitIngestsRead(s.journal, s.pending[id].commit.value);
        CommitOverlap(s, s.pending[id], ApplyCommit(s.journal, s.pending[id].commit.value).value);
      }
    case Begin(_) =>
    case FinishReading(_, _) =>
    case GiveUp(_) =>
    case _ => SubmittingKeepsFills(s.journal, action);
  }

  /** So nothing that was once stored is ever lost, whatever overlaps. */
  lemma {:induction false} NothingStoredIsLost(history: seq<Action>, actions: seq<Action>)
    ensures Keeps(Run(Start, history), Run(Run(Start, history), actions))
    ensures Consistent(Run(Run(Start, history), actions))
  {
    var s := Run(Start, history);
    EveryRunIsConsistent(history);
    if actions != [] {
      var before := Run(s, actions[..|actions| - 1]);
      NothingStoredIsLost(history, actions[..|actions| - 1]);
      StepKeepsConsistent(before, actions[|actions| - 1]);
      StepKeeps(before, actions[|actions| - 1]);
      KeepsIsTransitive(s, before, Next(before, actions[|actions| - 1]));
    }
  }

  lemma {:induction false} KeepsIsTransitive(a: Shared, b: Shared, c: Shared)
    requires Keeps(a, b) && Keeps(b, c)
    ensures Keeps(a, c)
  {
  }

  /** In every run a commit can fail on its fills only by reading a stored fill back with its owner missing or different. */
  lemma {:induction false} OnlyLostOwnersConflict(actions: seq<Action>, id: nat)
    requires var s := Run(Start, actions); id in s.pending && s.pending[id].commit.Some?
    ensures var s := Run(Start, actions);
            StoreFills(s.journal.fills, s.pending[id].commit.value.fills).Ok? <==>
              OwnersAgree(s.journal.fills, s.pending[id].commit.value.fills)
  {
    var s := Run(Start, actions);
    EveryRunIsConsistent(actions);
    assert PendingOk(s, s.pending[id]);
    var start := StartOf(s.stream, s.pending[id].token).value;
    var n: nat :| start <= n && StoredPrefix(s.journal.fills, s.stream, n);
    StoringOverlap(s.journal.fills, s.stream, n, start, s.pending[id].commit.value.fills);
  }

  /** Whatever overlapped it, a commit that succeeds leaves everything it read stored and puts the checkpoint at the end of
      its own read: a checkpoint further on is moved back. */
  lemma {:induction false} CommitReachesItsRead(actions: seq<Action>, id: nat)
    requires var s := Run(Start, actions);
             id in s.pending && s.pending[id].commit.Some? && ApplyCommit(s.journal, s.pending[id].commit.value).Ok?
    ensures var s := Run(Start, actions);
            var after := Run(Start, actions + [CommitRead(id)]);
            && Consistent(s) && Reaches(after.journal.fills, after.stream, ReadEnd(s, s.pending[id]))
            && (s.pending[id].commit.value.checkpoint.Some? ==>
                  StartOf(after.stream, after.journal.checkpoint) == Some(ReadEnd(s, s.pending[id])))
  {
    var s := Run(Start, actions);
    var longer := actions + [CommitRead(id)];
    assert longer[..|longer| - 1] == actions;
    EveryRunIsConsistent(actions);
    assert PendingOk(s, s.pending[id]);
    CommitIngestsRead(s.journal, s.pending[id].commit.value);
    CommitOverlap(s, s.pending[id], ApplyCommit(s.journal, s.pending[id].commit.value).value);
  }

  function ReadOf(fills: seq<FillActivity>): Commit {
    Commit([], [], fills, [], LastToken(fills, None), 0)
  }

  lemma {:induction false} RunOneMore(s: Shared, actions: seq<Action>, last: Action)
    ensures Run(s, actions + [last]) == Next(Run(s, actions), last)
  {
    assert (actions + [last])[..|actions|] == actions;
  }

  /** Two readers at work: the first began when the broker had one fill, the second when it had two. */
  function TwoReaders(a: FillActivity, b: FillActivity): seq<Action> {
    [BrokerFill(a), Begin(0), FinishReading(0, ReadOf([a])), BrokerFill(b), Begin(1), FinishReading(1, ReadOf([a, b]))]
  }

  /** It does move back: the second commits, then the first. */
  lemma {:induction false} CheckpointMovesBack(a: FillActivity, b: FillActivity)
    requires PaperProtocol.NewFill([], a) && PaperProtocol.NewFill([a], b)
    ensures var between := Run(Start, TwoReaders(a, b) + [CommitRead(1)]);
            var end := Run(Start, TwoReaders(a, b) + [CommitRead(1)] + [CommitRead(0)]);
            && StartOf(between.stream, between.journal.checkpoint) == Some(2)
            && StartOf(end.stream, end.journal.checkpoint) == Some(1)
            && end.journal.fills == between.journal.fills == map[a.executionId := a, b.executionId := b]
  {
    TwoReadersAtWork(a, b);
    RunOneMore(Start, TwoReaders(a, b), CommitRead(1));
    RunOneMore(Start, TwoReaders(a, b) + [CommitRead(1)], CommitRead(0));
    FirstCommit(a, b);
    SecondCommit(Committed(EmptyJournal, ReadOf([a, b])), a);
    StartIsUnique([a, b], 1);
    StartIsUnique([a, b], 2);
  }

  lemma {:induction false} FirstCommit(a: FillActivity, b: FillActivity)
    requires PaperProtocol.NewFill([], a) && PaperProtocol.NewFill([a], b)
    ensures var once := Committed(EmptyJournal, ReadOf([a, b]));
            once.fills == map[a.executionId := a, b.executionId := b] && once.checkpoint == Some(b.activityId)
  {
    var one := map[a.executionId := a];
    assert [a][0].activityId != b.activityId && [a][0].executionId != b.executionId;
    assert [a, b][1..] == [b];
    assert StoreFill(map[], a) == Ok(one) && StoreFill(one, b) == Ok(one[b.executionId := b]);
    StoreOne(one, b);
    assert StoreFills(map[], [a, b]) == Ok(one[b.executionId := b]);
    assert ApplyCommit(EmptyJournal, ReadOf([a, b])).Ok?;
  }

  lemma {:induction false} SecondCommit(once: Journal, a: FillActivity)
    requires PaperProtocol.NewFill([], a) && a.executionId in once.fills && once.fills[a.executionId] == a
    ensures Committed(once, ReadOf([a])).fills == once.fills && Committed(once, ReadOf([a])).checkpoint == Some(a.activityId)
  {
    StoreOne(once.fills, a);
    assert StoreFill(once.fills, a) == Ok(once.fills);
    assert ApplyCommit(once, ReadOf([a])).Ok?;
  }

  lemma {:induction false} StoreOne(fills: map<string, FillActivity>, fill: FillActivity)
    ensures StoreFills(fills, [fill]) == StoreFill(fills, fill)
  {
    assert [fill][1..] == [];
  }

  lemma {:induction false} TwoReadersAtWork(a: FillActivity, b: FillActivity)
    requires PaperProtocol.NewFill([], a) && PaperProtocol.NewFill([a], b)
    ensures Run(Start, TwoReaders(a, b))
            == Shared(EmptyJournal, [a, b], map[0 := Pending(None, Some(ReadOf([a]))), 1 := Pending(None, Some(ReadOf([a, b])))])
  {
    var one := [] + [BrokerFill(a)] + [Begin(0)] + [FinishReading(0, ReadOf([a]))];
    assert [] + [a] == [a] && [a] + [b] == [a, b];
    OneReader(Start, [], Start, 0, a, [a]);
    OneReader(Start, one, Shared(EmptyJournal, [a], Start.pending[0 := Pending(None, Some(ReadOf([a])))]), 1, b, [a, b]);
    assert one + [BrokerFill(b)] + [Begin(1)] + [FinishReading(1, ReadOf([a, b]))] == TwoReaders(a, b);
  }

  lemma {:induction false} ReadsEverything(stream: seq<FillActivity>)
    ensures CouldHaveRead(stream, None, ReadOf(stream))
  {
  }

  /** The broker adds a fill, and a reader that starts from no checkpoint reads everything. */
  lemma {:induction false} OneReader(start: Shared, actions: seq<Action>, s: Shared, id: nat, fill: FillActivity, longer: seq<FillActivity>)
    requires s == Run(start, actions) && longer == s.stream + [fill]
    requires PaperProtocol.NewFill(s.stream, fill) && s.journal.checkpoint.None?
    ensures Run(start, actions + [BrokerFill(fill)] + [Begin(id)] + [FinishReading(id, ReadOf(longer))])
            == s.(stream := longer, pending := s.pending[id := Pending(None, Some(ReadOf(longer)))])
  {
    RunOneMore(start, actions, BrokerFill(fill));
    RunOneMore(start, actions + [BrokerFill(fill)], Begin(id));
    RunOneMore(start, actions + [BrokerFill(fill)] + [Begin(id)], FinishReading(id, ReadOf(longer)));
    ReadsEverything(longer);
    assert s.pending[id := Pending(None, None)][id := Pending(None, Some(ReadOf(longer)))]
        == s.pending[id := Pending(None, Some(ReadOf(longer)))];
  }
}
