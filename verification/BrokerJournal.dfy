/** The durable submission journal. Every call is one transaction: it commits whole or leaves the tables alone. */
module BrokerJournal {
  import opened Prelude
  import opened Brokerage

  datatype JournalError =
    | DifferentContent | NoSuchSubmission | DuplicateStateDiffers | InvalidTransition | InvalidSubmission
    | OrderMovedBackwards | DuplicatePosition | FillConflict | ActivityTaken | UnknownResolution | RejectedResolution
    | ReconciledIdChanged | BrokerIdTaken | EmptyCheckpoint | UnreadableRow

  /** The tables: submissions in the sequence they were inserted, the broker projections, and the fill checkpoint. */
  datatype Journal = Journal(clients: seq<ClientId>, entries: map<ClientId, Submission>,
                             orders: map<BrokerId, OrderSnapshot>, positions: map<string, PositionSnapshot>,
                             fills: map<string, FillActivity>, checkpoint: Option<ActivityId>, reports: nat)

  const EmptyJournal: Journal := Journal([], map[], map[], map[], map[], None, 0)

  ghost predicate JournalOk(journal: Journal) {
    && Distinct(journal.clients)
    && (forall c :: c in journal.entries <==> c in journal.clients)
    && (forall i :: 0 <= i < |journal.clients| ==> journal.entries[journal.clients[i]].sequence == i + 1)
    && (forall c :: c in journal.entries ==> journal.entries[c].order.clientId == c)
    && BrokerIdsUnique(journal.entries)
    && FillsKeyed(journal.fills)
  }

  ghost predicate BrokerIdsUnique(entries: map<ClientId, Submission>) {
    forall c, d :: c in entries && d in entries && entries[c].brokerId.Some? && entries[c].brokerId == entries[d].brokerId ==> c == d
  }

  ghost predicate FillsKeyed(fills: map<string, FillActivity>) {
    && (forall id :: id in fills ==> fills[id].executionId == id)
    && (forall id, other :: id in fills && other in fills && fills[id].activityId == fills[other].activityId ==> id == other)
  }

  // ----- submissions -----

  /** A first submission is appended; the same content again is answered from the row it already has. */
  function Persist(journal: Journal, order: ApprovedOrder, payloadHash: string, timestamp: int): Result<(Journal, Submission), JournalError> {
    var client := order.clientId;
    if client in journal.entries then
      var existing := journal.entries[client];
      if existing.payloadHash != payloadHash || existing.order != order then Err(DifferentContent)
      else if !ValidSubmission(existing) then Err(UnreadableRow)
      else Ok((journal, existing))
    else
      var entry := Submission(|journal.clients| + 1, order, payloadHash, Persisted, timestamp, timestamp, None, None);
      Ok((journal.(clients := journal.clients + [client], entries := journal.entries[client := entry]), entry))
  }

  predicate Allowed(source: SubmissionState, target: SubmissionState) {
    match source
    case Persisted => target == Started || target == Rejected
    case Started => target == Acknowledged || target == Ambiguous || target == Rejected
    case Ambiguous => target == Reconciled || target == Rejected
    case Acknowledged => target == Reconciled
    case Reconciled => false
    case Rejected => false
  }

  /** The unique index over broker ids. */
  predicate Taken(entries: map<ClientId, Submission>, client: ClientId, broker: Option<BrokerId>) {
    broker.Some? && exists other :: other in entries && other != client && entries[other].brokerId == broker
  }

  function Transition(journal: Journal, client: ClientId, state: SubmissionState, timestamp: int,
                      broker: Option<BrokerId>, reason: Option<string>): Result<(Journal, Submission), JournalError> {
    if client !in journal.entries then Err(NoSuchSubmission)
    else
      var current := journal.entries[client];
      var updated := current.(state := state, updatedAt := timestamp, brokerId := broker, reason := reason);
      if !ValidSubmission(current) then Err(UnreadableRow)
      else if state == current.state then
        if current.brokerId == broker && current.reason == reason then Ok((journal, current)) else Err(DuplicateStateDiffers)
      else if !Allowed(current.state, state) then Err(InvalidTransition)
      else if !ValidSubmission(updated) then Err(InvalidSubmission)
      else if Taken(journal.entries, client, broker) then Err(BrokerIdTaken)
      else Ok((journal.(entries := journal.entries[client := updated]), updated))
  }

  predicate Unresolved(entry: Submission) {
    !entry.state.Terminal()
  }

  /** The unresolved rows of the first `n` submissions, in sequence order. */
  function UnresolvedUpTo(journal: Journal, n: nat): seq<Submission>
    requires n <= |journal.clients| && forall c :: c in journal.clients ==> c in journal.entries
  {
    if n == 0 then []
    else
      var entry := journal.entries[journal.clients[n - 1]];
      UnresolvedUpTo(journal, n - 1) + (if Unresolved(entry) then [entry] else [])
  }

  function CreatedTimes(journal: Journal): seq<int>
    requires forall c :: c in journal.clients ==> c in journal.entries
  {
    seq(|journal.clients|, i requires 0 <= i < |journal.clients| => journal.entries[journal.clients[i]].createdAt)
  }

  // ----- reconciliation -----

  datatype Resolution = Resolution(client: ClientId, broker: BrokerId)

  /** Everything one reconciliation writes. */
  datatype Commit = Commit(orders: seq<OrderSnapshot>, positions: seq<PositionSnapshot>, fills: seq<FillActivity>,
                           resolutions: seq<Resolution>, checkpoint: Option<ActivityId>, timestamp: int)

  function StoreOrders(table: map<BrokerId, OrderSnapshot>, orders: seq<OrderSnapshot>)
    : Result<map<BrokerId, OrderSnapshot>, JournalError>
    decreases |orders|
  {
    if orders == [] then Ok(table)
    else if orders[0].brokerId in table && table[orders[0].brokerId].updatedAt > orders[0].updatedAt then Err(OrderMovedBackwards)
    else StoreOrders(table[orders[0].brokerId := orders[0]], orders[1..])
  }

  function StorePositions(table: map<string, PositionSnapshot>, positions: seq<PositionSnapshot>)
    : Result<map<string, PositionSnapshot>, JournalError>
    decreases |positions|
  {
    if positions == [] then Ok(table)
    else if positions[0].symbol in table then Err(DuplicatePosition)
    else StorePositions(table[positions[0].symbol := positions[0]], positions[1..])
  }

  /** Only an owner may be added to a stored fill, and only where there is none. */
  predicate AddsOwner(existing: FillActivity, candidate: FillActivity) {
    existing.clientId.None? && candidate.clientId.Some? && Ownerless(existing) == Ownerless(candidate)
  }

  function Ownerless(fill: FillActivity): FillActivity {
    fill.(clientId := None)
  }

  predicate ActivityUsed(table: map<string, FillActivity>, activity: ActivityId) {
    exists id :: id in table && table[id].activityId == activity
  }

  function StoreFill(table: map<string, FillActivity>, fill: FillActivity): Result<map<string, FillActivity>, JournalError> {
    if fill.executionId in table then
      var existing := table[fill.executionId];
      if existing == fill then Ok(table)
      else if AddsOwner(existing, fill) then Ok(table[fill.executionId := fill])
      else Err(FillConflict)
    else if ActivityUsed(table, fill.activityId) then Err(ActivityTaken)
    else Ok(table[fill.executionId := fill])
  }

  function StoreFills(table: map<string, FillActivity>, fills: seq<FillActivity>): Result<map<string, FillActivity>, JournalError>
    decreases |fills|
  {
    if fills == [] then Ok(table)
    else
      match StoreFill(table, fills[0])
      case Err(error) => Err(error)
      case Ok(stored) => StoreFills(stored, fills[1..])
  }

  function ResolveOne(entries: map<ClientId, Submission>, resolution: Resolution, timestamp: int)
    : Result<map<ClientId, Submission>, JournalError> {
    if resolution.client !in entries then Err(UnknownResolution)
    else
      var current := entries[resolution.client];
      if !ValidSubmission(current) then Err(UnreadableRow)
      else if current.state == Rejected then Err(RejectedResolution)
      else if current.state == Reconciled && current.brokerId != Some(resolution.broker) then Err(ReconciledIdChanged)
      else if Taken(entries, resolution.client, Some(resolution.broker)) then Err(BrokerIdTaken)
      else Ok(entries[resolution.client := current.(state := Reconciled, updatedAt := timestamp,
                                                    brokerId := Some(resolution.broker), reason := None)])
  }

  function Resolve(entries: map<ClientId, Submission>, resolutions: seq<Resolution>, timestamp: int)
    : Result<map<ClientId, Submission>, JournalError> {
    if resolutions == [] then Ok(entries)
    else
      match ResolveOne(entries, resolutions[0], timestamp)
      case Err(error) => Err(error)
      case Ok(resolved) => Resolve(resolved, resolutions[1..], timestamp)
  }

  predicate BlankToken(token: Option<ActivityId>) {
    token.Some? && forall i :: 0 <= i < |token.value| ==> token.value[i] in " \t\r\n"
  }

  /** One reconciliation transaction; an error anywhere leaves nothing of it. */
  function ApplyCommit(journal: Journal, commit: Commit): Result<Journal, JournalError> {
    match StoreOrders(journal.orders, commit.orders)
    case Err(error) => Err(error)
    case Ok(orders) =>
      match StorePositions(map[], commit.positions)
      case Err(error) => Err(error)
      case Ok(positions) =>
        match StoreFills(journal.fills, commit.fills)
        case Err(error) => Err(error)
        case Ok(fills) =>
          match Resolve(journal.entries, commit.resolutions, commit.timestamp)
          case Err(error) => Err(error)
          case Ok(entries) =>
            if BlankToken(commit.checkpoint) then Err(EmptyCheckpoint)
            else
              var checkpoint := if commit.checkpoint.Some? then commit.checkpoint else journal.checkpoint;
              Ok(Journal(journal.clients, entries, orders, positions, fills, checkpoint, journal.reports + 1))
  }

  // ----- what every transaction keeps -----

  lemma {:induction false} PersistKeepsOk(journal: Journal, order: ApprovedOrder, payloadHash: string, timestamp: int)
    requires JournalOk(journal) && Persist(journal, order, payloadHash, timestamp).Ok?
    ensures JournalOk(Persist(journal, order, payloadHash, timestamp).value.0)
  {
  }

  lemma {:induction false} TransitionKeepsOk(journal: Journal, client: ClientId, state: SubmissionState, timestamp: int,
                          broker: Option<BrokerId>, reason: Option<string>)
    requires JournalOk(journal) && Transition(journal, client, state, timestamp, broker, reason).Ok?
    ensures JournalOk(Transition(journal, client, state, timestamp, broker, reason).value.0)
  {
  }

  /** What one reconciliation may do to the submissions: nothing, or settle them for good. */
  ghost predicate OnlySettles(before: map<ClientId, Submission>, after: map<ClientId, Submission>) {
    && after.Keys == before.Keys
    && forall c :: c in before ==>
         || after[c] == before[c]
         || (&& after[c].state == Reconciled && before[c].state != Rejected
             && (before[c].state == Reconciled ==> after[c].brokerId == before[c].brokerId)
             && after[c].sequence == before[c].sequence && after[c].order == before[c].order
             && after[c].payloadHash == before[c].payloadHash && after[c].createdAt == before[c].createdAt)
  }

  lemma {:induction false} ResolveOnlySettles(entries: map<ClientId, Submission>, resolutions: seq<Resolution>, timestamp: int)
    requires Resolve(entries, resolutions, timestamp).Ok?
    ensures OnlySettles(entries, Resolve(entries, resolutions, timestamp).value)
    ensures BrokerIdsUnique(entries) ==> BrokerIdsUnique(Resolve(entries, resolutions, timestamp).value)
  {
    if resolutions != [] {
      ResolveOnlySettles(ResolveOne(entries, resolutions[0], timestamp).value, resolutions[1..], timestamp);
    }
  }

  /** A submission that a reconciliation settles can be read back exactly when the reconciliation is not timed
      before its creation: the transaction writes the timestamp without checking it. */
  lemma {:induction false} SettledIsReadableExactly(entries: map<ClientId, Submission>, resolutions: seq<Resolution>,
                                                    timestamp: int, client: ClientId)
    requires Resolve(entries, resolutions, timestamp).Ok? && client in entries
    requires exists i :: 0 <= i < |resolutions| && resolutions[i].client == client
    requires forall i :: 0 <= i < |resolutions| ==> resolutions[i].broker != ""
    ensures var after := Resolve(entries, resolutions, timestamp).value;
            client in after && (ValidSubmission(after[client]) <==> entries[client].createdAt <= timestamp)
  {
    var first := ResolveOne(entries, resolutions[0], timestamp).value;
    var rest := resolutions[1..];
    if exists i :: 0 <= i < |rest| && rest[i].client == client {
      SettledIsReadableExactly(first, rest, timestamp, client);
    } else {
      forall i | 0 <= i < |rest| ensures rest[i].client != client { }
      UnnamedIsUntouched(first, rest, timestamp, client);
    }
  }

  lemma {:induction false} UnnamedIsUntouched(entries: map<ClientId, Submission>, resolutions: seq<Resolution>,
                                              timestamp: int, client: ClientId)
    requires Resolve(entries, resolutions, timestamp).Ok? && client in entries
    requires forall i :: 0 <= i < |resolutions| ==> resolutions[i].client != client
    ensures client in Resolve(entries, resolutions, timestamp).value
    ensures Resolve(entries, resolutions, timestamp).value[client] == entries[client]
  {
    if resolutions != [] {
      UnnamedIsUntouched(ResolveOne(entries, resolutions[0], timestamp).value, resolutions[1..], timestamp, client);
    }
  }

  /** The table after adding fills in memory, the last one of an execution winning. */
  function Merged(table: map<string, FillActivity>, fills: seq<FillActivity>): map<string, FillActivity>
    decreases |fills|
  {
    if fills == [] then table else Merged(table[fills[0].executionId := fills[0]], fills[1..])
  }

  /** A commit that succeeds stores exactly the in-memory merge: the conflict rules make the two agree. */
  lemma {:induction false} StoredIsMerged(table: map<string, FillActivity>, fills: seq<FillActivity>)
    requires StoreFills(table, fills).Ok?
    ensures StoreFills(table, fills).value == Merged(table, fills)
    decreases |fills|
  {
    if fills != [] {
      var fill := fills[0];
      var stored := StoreFill(table, fill).value;
      assert stored == table[fill.executionId := fill];
      StoredIsMerged(stored, fills[1..]);
    }
  }

  /** No stored fill is lost or altered; at most an owner is added, once. */
  ghost predicate OnlyAddsOwners(before: map<string, FillActivity>, after: map<string, FillActivity>) {
    forall id :: id in before ==>
      && id in after && Ownerless(after[id]) == Ownerless(before[id])
      && (before[id].clientId.Some? ==> after[id] == before[id])
  }

  lemma {:induction false} StoredFillIsKept(table: map<string, FillActivity>, fill: FillActivity)
    requires StoreFill(table, fill).Ok?
    ensures OnlyAddsOwners(table, StoreFill(table, fill).value)
    ensures FillsKeyed(table) ==> FillsKeyed(StoreFill(table, fill).value)
  {
  }

  lemma {:induction false} StoredFillsAreKept(table: map<string, FillActivity>, fills: seq<FillActivity>)
    requires StoreFills(table, fills).Ok?
    ensures OnlyAddsOwners(table, StoreFills(table, fills).value)
    ensures FillsKeyed(table) ==> FillsKeyed(StoreFills(table, fills).value)
    decreases |fills|
  {
    if fills != [] {
      StoredFillIsKept(table, fills[0]);
      StoredFillsAreKept(StoreFill(table, fills[0]).value, fills[1..]);
    }
  }

  lemma {:induction false} ApplyKeepsOk(journal: Journal, commit: Commit)
    requires JournalOk(journal) && ApplyCommit(journal, commit).Ok?
    ensures JournalOk(ApplyCommit(journal, commit).value)
    ensures OnlySettles(journal.entries, ApplyCommit(journal, commit).value.entries)
    ensures OnlyAddsOwners(journal.fills, ApplyCommit(journal, commit).value.fills)
    ensures ApplyCommit(journal, commit).value.fills == Merged(journal.fills, commit.fills)
  {
    ResolveOnlySettles(journal.entries, commit.resolutions, commit.timestamp);
    StoredFillsAreKept(journal.fills, commit.fills);
    StoredIsMerged(journal.fills, commit.fills);
  }

  /** A submission's history only goes forward: a state change raises its rank, a terminal state and the broker id
      of a reconciled one stay for ever. */
  ghost predicate Advances(before: map<ClientId, Submission>, after: map<ClientId, Submission>) {
    forall c :: c in before ==>
      && c in after
      && (after[c].state == before[c].state || after[c].state.Rank() > before[c].state.Rank())
      && (before[c].state == Reconciled ==> after[c].brokerId == before[c].brokerId)
      && after[c].createdAt == before[c].createdAt && after[c].order == before[c].order
      && after[c].payloadHash == before[c].payloadHash
  }

  lemma {:induction false} PersistAdvances(journal: Journal, order: ApprovedOrder, payloadHash: string, timestamp: int)
    requires Persist(journal, order, payloadHash, timestamp).Ok?
    ensures Advances(journal.entries, Persist(journal, order, payloadHash, timestamp).value.0.entries)
  {
  }

  lemma {:induction false} TransitionAdvances(journal: Journal, client: ClientId, state: SubmissionState, timestamp: int,
                           broker: Option<BrokerId>, reason: Option<string>)
    requires Transition(journal, client, state, timestamp, broker, reason).Ok?
    ensures Advances(journal.entries, Transition(journal, client, state, timestamp, broker, reason).value.0.entries)
  {
  }

  lemma {:induction false} ApplyAdvances(journal: Journal, commit: Commit)
    requires ApplyCommit(journal, commit).Ok?
    ensures Advances(journal.entries, ApplyCommit(journal, commit).value.entries)
  {
    ResolveOnlySettles(journal.entries, commit.resolutions, commit.timestamp);
  }

  /** Persisting the same approved content again finds the first row and changes nothing. */
  lemma {:induction false} PersistIsIdempotent(journal: Journal, order: ApprovedOrder, payloadHash: string, timestamp: int, later: int)
    requires order.clientId != "" && Persist(journal, order, payloadHash, timestamp).Ok?
    ensures var (after, entry) := Persist(journal, order, payloadHash, timestamp).value;
            Persist(after, order, payloadHash, later) == Ok((after, entry))
  {
  }

  // ----- the journal object -----

  class SQLiteBrokerJournal {
    var tables: Journal

    ghost predicate Valid() reads this { JournalOk(tables) }

    constructor ()
      ensures Valid() && tables == EmptyJournal
    {
      tables := EmptyJournal;
    }

    method PersistApprovedOrder(order: ApprovedOrder, payloadHash: string, timestamp: int)
      returns (result: Result<Submission, JournalError>)
      requires Valid()
      modifies this
      ensures Valid()
      ensures match Persist(old(tables), order, payloadHash, timestamp)
              case Err(error) => tables == old(tables) && result == Err(error)
              case Ok(after) => tables == after.0 && result == Ok(after.1)
    {
      if Persist(tables, order, payloadHash, timestamp).Ok? {
        PersistKeepsOk(tables, order, payloadHash, timestamp);
      }
      var client := order.clientId;
      if client in tables.entries {
        var existing := tables.entries[client];
        if existing.payloadHash != payloadHash || existing.order != order {
          return Err(DifferentContent);
        }
        return if ValidSubmission(existing) then Ok(existing) else Err(UnreadableRow);
      }
      var entry := Submission(|tables.clients| + 1, order, payloadHash, Persisted, timestamp, timestamp, None, None);
      tables := tables.(clients := tables.clients + [client], entries := tables.entries[client := entry]);
      return Ok(entry);
    }

    method TransitionSubmission(client: ClientId, state: SubmissionState, timestamp: int, broker: Option<BrokerId>,
                                reason: Option<string>)
      returns (result: Result<Submission, JournalError>)
      requires Valid()
      modifies this
      ensures Valid()
      ensures match Transition(old(tables), client, state, timestamp, broker, reason)
              case Err(error) => tables == old(tables) && result == Err(error)
              case Ok(after) => tables == after.0 && result == Ok(after.1)
    {
      if Transition(tables, client, state, timestamp, broker, reason).Ok? {
        TransitionKeepsOk(tables, client, state, timestamp, broker, reason);
      }
      if client !in tables.entries {
        return Err(NoSuchSubmission);
      }
      var current := tables.entries[client];
      if !ValidSubmission(current) {
        return Err(UnreadableRow);
      }
      if state == current.state {
        return if current.brokerId == broker && current.reason == reason then Ok(current) else Err(DuplicateStateDiffers);
      }
      if !Allowed(current.state, state) {
        return Err(InvalidTransition);
      }
      var updated := current.(state := state, updatedAt := timestamp, brokerId := broker, reason := reason);
      if !ValidSubmission(updated) {
        return Err(InvalidSubmission);
      }
      if Taken(tables.entries, client, broker) {
        return Err(BrokerIdTaken);
      }
      tables := tables.(entries := tables.entries[client := updated]);
      return Ok(updated);
    }

    /** The unresolved rows in sequence order; one that cannot be read back makes the call fail. */
    method UnresolvedSubmissions() returns (result: Result<seq<Submission>, JournalError>)
      requires Valid()
      ensures result.Ok? ==> result.value == UnresolvedUpTo(tables, |tables.clients|)
      ensures result.Ok? <==> forall c :: c in tables.entries && Unresolved(tables.entries[c]) ==> ValidSubmission(tables.entries[c])
    {
      var rows: seq<Submission> := [];
      for i := 0 to |tables.clients|
        invariant rows == UnresolvedUpTo(tables, i)
        invariant forall k :: 0 <= k < i && Unresolved(tables.entries[tables.clients[k]]) ==> ValidSubmission(tables.entries[tables.clients[k]])
      {
        var entry := tables.entries[tables.clients[i]];
        if Unresolved(entry) {
          if !ValidSubmission(entry) {
            return Err(UnreadableRow);
          }
          rows := rows + [entry];
        }
      }
      return Ok(rows);
    }

    method SubmissionByClientId(client: ClientId) returns (result: Result<Option<Submission>, JournalError>)
      ensures result == if client !in tables.entries then Ok(None)
                        else if ValidSubmission(tables.entries[client]) then Ok(Some(tables.entries[client])) else Err(UnreadableRow)
    {
      if client !in tables.entries {
        return Ok(None);
      }
      return if ValidSubmission(tables.entries[client]) then Ok(Some(tables.entries[client])) else Err(UnreadableRow);
    }

    method SubmissionTimestamps() returns (times: seq<int>)
      requires Valid()
      ensures times == CreatedTimes(tables)
    {
      times := [];
      for i := 0 to |tables.clients|
        invariant times == CreatedTimes(tables)[..i]
      {
        times := times + [tables.entries[tables.clients[i]].createdAt];
      }
    }

    method ApplyReconciliation(commit: Commit) returns (error: Option<JournalError>)
      requires Valid()
      modifies this
      ensures Valid()
      ensures match ApplyCommit(old(tables), commit)
              case Err(e) => tables == old(tables) && error == Some(e)
              case Ok(after) => tables == after && error == None
    {
      var written := Write(commit);
      if written.Err? {
        return Some(written.error);
      }
      ApplyKeepsOk(tables, commit);
      tables := written.value;
      return None;
    }

    /** The transaction before it commits: every statement in order, on copies of the tables. */
    method Write(commit: Commit) returns (result: Result<Journal, JournalError>)
      ensures result == ApplyCommit(tables, commit)
    {
      var newOrders := WriteOrders(commit.orders);
      if newOrders.Err? { return Err(newOrders.error); }
      var newPositions := WritePositions(commit.positions);
      if newPositions.Err? { return Err(newPositions.error); }
      var newFills := WriteFills(commit.fills);
      if newFills.Err? { return Err(newFills.error); }
      var newEntries := WriteResolutions(commit.resolutions, commit.timestamp);
      if newEntries.Err? { return Err(newEntries.error); }
      var newCheckpoint := tables.checkpoint;
      if commit.checkpoint.Some? {
        if BlankToken(commit.checkpoint) {
          return Err(EmptyCheckpoint);
        }
        newCheckpoint := commit.checkpoint;
      }
      return Ok(Journal(tables.clients, newEntries.value, newOrders.value, newPositions.value, newFills.value, newCheckpoint,
                        tables.reports + 1));
    }

    method WriteOrders(updates: seq<OrderSnapshot>) returns (result: Result<map<BrokerId, OrderSnapshot>, JournalError>)
      ensures result == StoreOrders(tables.orders, updates)
    {
      var table := tables.orders;
      for i := 0 to |updates|
        invariant StoreOrders(tables.orders, updates) == StoreOrders(table, updates[i..])
      {
        var order := updates[i];
        if order.brokerId in table && table[order.brokerId].updatedAt > order.updatedAt {
          return Err(OrderMovedBackwards);
        }
        table := table[order.brokerId := order];
      }
      return Ok(table);
    }

    method WritePositions(current: seq<PositionSnapshot>) returns (result: Result<map<string, PositionSnapshot>, JournalError>)
      ensures result == StorePositions(map[], current)
    {
      var table: map<string, PositionSnapshot> := map[];
      for i := 0 to |current|
        invariant StorePositions(map[], current) == StorePositions(table, current[i..])
      {
        if current[i].symbol in table {
          return Err(DuplicatePosition);
        }
        table := table[current[i].symbol := current[i]];
      }
      return Ok(table);
    }

    method WriteFills(activities: seq<FillActivity>) returns (result: Result<map<string, FillActivity>, JournalError>)
      ensures result == StoreFills(tables.fills, activities)
    {
      var table := tables.fills;
      for i := 0 to |activities|
        invariant StoreFills(tables.fills, activities) == StoreFills(table, activities[i..])
      {
        var fill := activities[i];
        if fill.executionId in table {
          var existing := table[fill.executionId];
          if existing == fill {
            continue;
          }
          if AddsOwner(existing, fill) {
            table := table[fill.executionId := fill];
            continue;
          }
          return Err(FillConflict);
        }
        if ActivityUsed(table, fill.activityId) {
          return Err(ActivityTaken);
        }
        table := table[fill.executionId := fill];
      }
      return Ok(table);
    }

    method WriteResolutions(resolutions: seq<Resolution>, timestamp: int)
      returns (result: Result<map<ClientId, Submission>, JournalError>)
      ensures result == Resolve(tables.entries, resolutions, timestamp)
    {
      var table := tables.entries;
      for i := 0 to |resolutions|
        invariant Resolve(tables.entries, resolutions, timestamp) == Resolve(table, resolutions[i..], timestamp)
      {
        var resolution := resolutions[i];
        if resolution.client !in table {
          return Err(UnknownResolution);
        }
        var current := table[resolution.client];
        if !ValidSubmission(current) {
          return Err(UnreadableRow);
        }
        if current.state == Rejected {
          return Err(RejectedResolution);
        }
        if current.state == Reconciled && current.brokerId != Some(resolution.broker) {
          return Err(ReconciledIdChanged);
        }
        if Taken(table, resolution.client, Some(resolution.broker)) {
          return Err(BrokerIdTaken);
        }
        table := table[resolution.client := current.(state := Reconciled, updatedAt := timestamp,
                                                     brokerId := Some(resolution.broker), reason := None)];
      }
      return Ok(table);
    }
  }
}
