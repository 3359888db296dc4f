/** The durable operator store: an append-only pause history and one-use action approvals. */
module OperatorControl {
  import opened Prelude

  type ApprovalId = string

  datatype ActionKind = ResumeExecution | CancelOwnedOrders | FlattenOwnedPositions

  datatype ActionState = InProgress | Completed | Failed

  datatype ControlRow = ControlRow(paused: bool, changedAt: int, reasonCode: string, reason: string,
                                   approvalId: Option<ApprovalId>)

  datatype ActionRecord = ActionRecord(action: ActionKind, state: ActionState, startedAt: int, updatedAt: int,
                                       summary: Option<string>)

  /** An HMAC-signed approval; `authentic` says that its signature verifies under the control key. */
  datatype Approval = Approval(id: ApprovalId, action: ActionKind, namespace: string, fingerprint: string,
                               issuedAt: int, expiresAt: int, authentic: bool)

  datatype OperatorError =
    | InvalidReason | ApprovalNotValid | ResumeNotAnAction | ApprovalConsumed | AlreadyResumed | NotPaused
    | ActionInProgress | NoSuchAction | ActionNotInProgress | UnreadableRecord

  /** The two tables. Rows are only ever appended, the last one is current. */
  datatype Store = Store(rows: seq<ControlRow>, actions: map<ApprovalId, ActionRecord>)
  {
    predicate Paused() requires rows != [] { rows[|rows| - 1].paused }

    function Running(): set<ApprovalId> {
      set id | id in actions && actions[id].state == InProgress
    }
  }

  /** The store after a call, and the error the call raised, if any. */
  datatype Outcome = Outcome(store: Store, error: Option<OperatorError>)

  predicate Blank(reason: string) {
    forall i :: 0 <= i < |reason| ==> reason[i] in " \t\r\n"
  }

  predicate WordChar(c: char) {
    'a' <= c <= 'z' || 'A' <= c <= 'Z' || '0' <= c <= '9'
  }

  predicate ValidReasonCode(code: string) {
    && |code| <= 64
    && (forall i :: 0 <= i < |code| ==> WordChar(code[i]) || code[i] == '_')
    && (exists i :: 0 <= i < |code| && WordChar(code[i]))
  }

  predicate Verifies(approval: Approval, action: ActionKind, namespace: string, fingerprint: string, now: int) {
    && approval.issuedAt <= now < approval.expiresAt && approval.action == action
    && approval.namespace == namespace && approval.fingerprint == fingerprint && approval.authentic
  }

  function NewStore(timestamp: int): Store {
    Store([ControlRow(true, timestamp, "fail_closed_startup", "new operator store starts paused", None)], map[])
  }

  function Paused(store: Store, timestamp: int, code: string, reason: string): Outcome {
    if Blank(reason) || !ValidReasonCode(code) then Outcome(store, Some(InvalidReason))
    else Outcome(store.(rows := store.rows + [ControlRow(true, timestamp, code, reason, None)]), None)
  }

  function Resumed(store: Store, approval: Approval, namespace: string, fingerprint: string, timestamp: int,
                   reason: string): Outcome
    requires store.rows != []
  {
    if !Verifies(approval, ResumeExecution, namespace, fingerprint, timestamp) then Outcome(store, Some(ApprovalNotValid))
    else if Blank(reason) then Outcome(store, Some(InvalidReason))
    else if approval.id in store.actions then Outcome(store, Some(ApprovalConsumed))
    else if !store.Paused() then Outcome(store, Some(AlreadyResumed))
    else if store.Running() != {} then Outcome(store, Some(ActionInProgress))
    else
      var record := ActionRecord(ResumeExecution, Completed, timestamp, timestamp, Some(reason));
      var row := ControlRow(false, timestamp, "operator_resume", reason, Some(approval.id));
      Outcome(Store(store.rows + [row], store.actions[approval.id := record]), None)
  }

  function Begun(store: Store, approval: Approval, action: ActionKind, namespace: string, fingerprint: string,
                 timestamp: int): Outcome
    requires store.rows != []
  {
    if action == ResumeExecution then Outcome(store, Some(ResumeNotAnAction))
    else if !Verifies(approval, action, namespace, fingerprint, timestamp) then Outcome(store, Some(ApprovalNotValid))
    else if approval.id in store.actions then Outcome(store, Some(ApprovalConsumed))
    else if !store.Paused() then Outcome(store, Some(NotPaused))
    else if store.Running() != {} then Outcome(store, Some(ActionInProgress))
    else
      var record := ActionRecord(action, InProgress, timestamp, timestamp, None);
      Outcome(store.(actions := store.actions[approval.id := record]), None)
  }

  /** The update is committed before the record is read back, so a completion timed before the start of its
      action is durable and raises all the same. */
  function Finished(store: Store, id: ApprovalId, succeeded: bool, timestamp: int, summary: string): Outcome {
    if Blank(summary) then Outcome(store, Some(InvalidReason))
    else if id !in store.actions then Outcome(store, Some(NoSuchAction))
    else if !Readable(store.actions[id]) then Outcome(store, Some(UnreadableRecord))
    else if store.actions[id].state != InProgress then Outcome(store, Some(ActionNotInProgress))
    else
      var record := store.actions[id].(state := if succeeded then Completed else Failed, updatedAt := timestamp,
                                       summary := Some(summary));
      Outcome(store.(actions := store.actions[id := record]), if Readable(record) then None else Some(UnreadableRecord))
  }

  predicate Readable(record: ActionRecord) {
    record.startedAt <= record.updatedAt && (record.state == InProgress <==> record.summary.None?)
  }

  // ----- every run of the store -----

  datatype Command =
    | Pause(at: int, code: string, reason: string)
    | Resume(approval: Approval, fingerprint: string, at: int, reason: string)
    | Begin(approval: Approval, action: ActionKind, fingerprint: string, at: int)
    | Complete(id: ApprovalId, succeeded: bool, at: int, summary: string)

  function Execute(store: Store, namespace: string, command: Command): Outcome
    requires store.rows != []
  {
    match command
    case Pause(at, code, reason) => Paused(store, at, code, reason)
    case Resume(approval, fingerprint, at, reason) => Resumed(store, approval, namespace, fingerprint, at, reason)
    case Begin(approval, action, fingerprint, at) => Begun(store, approval, action, namespace, fingerprint, at)
    case Complete(id, succeeded, at, summary) => Finished(store, id, succeeded, at, summary)
  }

  /** The store after a whole history of calls, whatever each of them raised. */
  function History(created: int, namespace: string, commands: seq<Command>): (store: Store)
    ensures store.rows != []
  {
    if commands == [] then NewStore(created)
    else Execute(History(created, namespace, commands[..|commands| - 1]), namespace, commands[|commands| - 1]).store
  }

  /** The approval of a resume that is on record as completed. */
  ghost predicate CompletedResume(store: Store, id: ApprovalId) {
    id in store.actions && store.actions[id].action == ResumeExecution && store.actions[id].state == Completed
  }

  ghost predicate StoreInvariant(store: Store) {
    && store.rows != [] && store.rows[0].paused
    && (forall a, b :: a in store.Running() && b in store.Running() ==> a == b)
    && (store.Running() != {} ==> store.Paused())
    && (forall i :: 0 <= i < |store.rows| && !store.rows[i].paused ==>
          store.rows[i].approvalId.Some? && CompletedResume(store, store.rows[i].approvalId.value))
    && (forall i :: 0 <= i < |store.rows| - 1 && !store.rows[i].paused ==> store.rows[i + 1].paused)
    && (forall i, j :: 0 <= i < j < |store.rows| && !store.rows[i].paused && !store.rows[j].paused ==>
          store.rows[i].approvalId != store.rows[j].approvalId)
    && (forall id :: id in store.actions && store.actions[id].action == ResumeExecution ==>
          store.actions[id].state == Completed)
  }

  lemma {:induction false} CommandKeepsInvariant(store: Store, namespace: string, command: Command)
    requires StoreInvariant(store)
    ensures StoreInvariant(Execute(store, namespace, command).store)
  {
    var after := Execute(store, namespace, command).store;
    match command
    case Pause(_, _, _) => RowAppended(store, after);
    case Resume(approval, _, _, _) =>
      if after != store {
        assert after.Running() == store.Running();
        ResumeAppended(store, after, approval.id);
      }
    case Begin(approval, _, _, _) =>
      if after != store { assert after.Running() == {approval.id}; }
    case Complete(id, _, _, _) =>
      assert after.Running() <= store.Running();
  }

  lemma {:induction false} RowAppended(store: Store, after: Store)
    requires StoreInvariant(store) && after.actions == store.actions
    requires after.rows == store.rows || exists row: ControlRow :: row.paused && after.rows == store.rows + [row]
    ensures StoreInvariant(after)
  {
    assert after.Running() == store.Running();
  }

  lemma {:induction false} ResumeAppended(store: Store, after: Store, id: ApprovalId)
    requires StoreInvariant(store) && store.Paused() && id !in store.actions
    requires |after.rows| == |store.rows| + 1 && after.rows[..|store.rows|] == store.rows
    requires !after.rows[|store.rows|].paused && after.rows[|store.rows|].approvalId == Some(id)
    requires after.actions.Keys == store.actions.Keys + {id}
    requires forall other :: other in store.actions ==> after.actions[other] == store.actions[other]
    requires CompletedResume(after, id) && store.Running() == {} == after.Running()
    ensures StoreInvariant(after)
  {
    forall i | 0 <= i < |store.rows| ensures after.rows[i] == store.rows[i] {
      assert after.rows[..|store.rows|][i] == store.rows[i];
    }
  }

  /** In every run the store starts paused, runs at most one action, and only while paused; every unpaused row
      carries its own completed resume approval. */
  lemma {:induction false} InvariantOverEveryHistory(created: int, namespace: string, commands: seq<Command>)
    ensures StoreInvariant(History(created, namespace, commands))
  {
    if commands != [] {
      var init := commands[..|commands| - 1];
      InvariantOverEveryHistory(created, namespace, init);
      CommandKeepsInvariant(History(created, namespace, init), namespace, commands[|commands| - 1]);
    }
  }

  /** Between any two unpaused rows of any run lies a paused one. */
  lemma {:induction false} PauseBetweenResumes(created: int, namespace: string, commands: seq<Command>, i: nat, j: nat)
    requires var rows := History(created, namespace, commands).rows; i < j < |rows| && !rows[i].paused && !rows[j].paused
    ensures var rows := History(created, namespace, commands).rows;
            i + 1 < j && rows[i + 1].paused && rows[i].approvalId.Some? && rows[j].approvalId.Some?
            && rows[i].approvalId != rows[j].approvalId
  {
    InvariantOverEveryHistory(created, namespace, commands);
  }

  predicate Consumes(store: Store, namespace: string, command: Command, id: ApprovalId)
    requires store.rows != []
  {
    (command.Resume? || command.Begin?) && command.approval.id == id && Execute(store, namespace, command).error.None?
  }

  /** How many calls of a run succeeded on the strength of one approval. */
  ghost function Uses(created: int, namespace: string, commands: seq<Command>, id: ApprovalId): nat {
    if commands == [] then 0
    else
      var init := commands[..|commands| - 1];
      Uses(created, namespace, init, id)
      + (if Consumes(History(created, namespace, init), namespace, commands[|commands| - 1], id) then 1 else 0)
  }

  /** No approval is ever used twice: its record exists exactly when it was used once. */
  lemma {:induction false} ApprovalsAreOneUse(created: int, namespace: string, commands: seq<Command>, id: ApprovalId)
    ensures Uses(created, namespace, commands, id) == if id in History(created, namespace, commands).actions then 1 else 0
  {
    if commands != [] {
      ApprovalsAreOneUse(created, namespace, commands[..|commands| - 1], id);
    }
  }

  /** A finished action is history: no later call changes its record, whatever the call is. */
  lemma {:induction false} FinishedIsFinal(store: Store, namespace: string, command: Command, id: ApprovalId)
    requires store.rows != [] && id in store.actions && store.actions[id].state != InProgress
    ensures var after := Execute(store, namespace, command).store;
            id in after.actions && after.actions[id] == store.actions[id]
  {
  }

  /** Only a resume with its own fresh approval unpauses a store, and only when no action runs. */
  lemma {:induction false} OnlyResumeUnpauses(store: Store, namespace: string, command: Command)
    requires store.rows != [] && store.Paused()
    ensures !Execute(store, namespace, command).store.Paused() <==>
            && command.Resume? && !Blank(command.reason)
            && Verifies(command.approval, ResumeExecution, namespace, command.fingerprint, command.at)
            && command.approval.id !in store.actions && store.Running() == {}
  {
  }

  /** Completing a running action is durable whatever it reports; it raises exactly when it is timed before the
      start of the action. */
  lemma {:induction false} CompletionIsDurable(store: Store, id: ApprovalId, succeeded: bool, timestamp: int, summary: string)
    requires id in store.Running() && Readable(store.actions[id]) && !Blank(summary)
    ensures var outcome := Finished(store, id, succeeded, timestamp, summary);
            && outcome.store.actions[id].state == (if succeeded then Completed else Failed)
            && outcome.store.Running() == store.Running() - {id}
            && (outcome.error.Some? <==> timestamp < store.actions[id].startedAt)
  {
    var after := Finished(store, id, succeeded, timestamp, summary).store;
    forall other | other in after.actions ensures other in after.Running() <==> other in store.Running() - {id} {
    }
  }

  // ----- an action that was begun and never completed -----

  predicate Completes(command: Command, id: ApprovalId) {
    command.Complete? && command.id == id && !Blank(command.summary)
  }

  /** The action was begun by call number `i` of the run, and no later call completed it. */
  ghost predicate RunningSince(created: int, namespace: string, commands: seq<Command>, id: ApprovalId, i: nat) {
    && i < |commands| && commands[i].Begin?
    && Consumes(History(created, namespace, commands[..i]), namespace, commands[i], id)
    && forall j :: i < j < |commands| ==> !Completes(commands[j], id)
  }

  ghost predicate RunningReadable(store: Store) {
    forall id :: id in store.Running() ==> Readable(store.actions[id])
  }

  lemma {:induction false} HistoryKeepsReadable(created: int, namespace: string, commands: seq<Command>)
    ensures RunningReadable(History(created, namespace, commands))
  {
    if commands != [] {
      HistoryKeepsReadable(created, namespace, commands[..|commands| - 1]);
    }
  }

  /** A call starts an action exactly by beginning it on its approval, and ends it exactly by completing it. */
  lemma {:induction false} RunningAfter(store: Store, namespace: string, command: Command, id: ApprovalId)
    requires store.rows != [] && RunningReadable(store)
    ensures id in Execute(store, namespace, command).store.Running() <==>
              || (command.Begin? && Consumes(store, namespace, command, id))
              || (id in store.Running() && !Completes(command, id))
  {
  }

  lemma {:induction false} RunningSinceGrows(created: int, namespace: string, commands: seq<Command>, id: ApprovalId, i: nat)
    requires commands != [] && i < |commands| - 1
    ensures RunningSince(created, namespace, commands, id, i) <==>
              && RunningSince(created, namespace, commands[..|commands| - 1], id, i)
              && !Completes(commands[|commands| - 1], id)
  {
    assert commands[..|commands| - 1][..i] == commands[..i];
  }

  /** Over every run: an action is in progress if and only if some call began it and no later one completed it. A crash
      between the two leaves it in progress, and nothing but its completion ever ends that. */
  lemma {:induction false} RunsUntilCompleted(created: int, namespace: string, commands: seq<Command>, id: ApprovalId)
    ensures id in History(created, namespace, commands).Running() <==>
              exists i: nat :: RunningSince(created, namespace, commands, id, i)
  {
    if commands != [] {
      var init, last := commands[..|commands| - 1], commands[|commands| - 1];
      RunsUntilCompleted(created, namespace, init, id);
      HistoryKeepsReadable(created, namespace, init);
      RunningAfter(History(created, namespace, init), namespace, last, id);
      forall i: nat | i < |init|
        ensures RunningSince(created, namespace, commands, id, i) <==>
                  RunningSince(created, namespace, init, id, i) && !Completes(last, id)
      {
        RunningSinceGrows(created, namespace, commands, id, i);
      }
      assert RunningSince(created, namespace, commands, id, |init|) <==>
               last.Begin? && Consumes(History(created, namespace, init), namespace, last, id);
    }
  }

  /** Until then the store is stuck: it is paused, nothing else runs, and every resume and every other action is
      refused and changes nothing. */
  lemma {:induction false} StuckWhileRunning(created: int, namespace: string, commands: seq<Command>, id: ApprovalId, i: nat,
                                             command: Command)
    requires RunningSince(created, namespace, commands, id, i)
    ensures var store := History(created, namespace, commands);
            && store.Paused() && store.Running() == {id}
            && (command.Resume? || command.Begin? ==>
                  Execute(store, namespace, command).error.Some? && Execute(store, namespace, command).store == store)
            && (Completes(command, id) ==> Execute(store, namespace, command).store.Running() == {})
  {
    var store := History(created, namespace, commands);
    RunsUntilCompleted(created, namespace, commands, id);
    InvariantOverEveryHistory(created, namespace, commands);
    assert store.Running() == {id};
    if Completes(command, id) {
      HistoryKeepsReadable(created, namespace, commands);
      CompletionIsDurable(store, id, command.succeeded, command.at, command.summary);
    }
  }

  // ----- the store object -----

  class SQLiteOperatorControl {
    var rows: seq<ControlRow>
    var actions: map<ApprovalId, ActionRecord>
    const namespace: string

    ghost predicate Valid() reads this { StoreInvariant(View()) }

    function View(): Store reads this { Store(rows, actions) }

    constructor (namespace: string, createdAt: int)
      ensures Valid() && View() == NewStore(createdAt) && this.namespace == namespace
    {
      this.namespace := namespace;
      rows := [ControlRow(true, createdAt, "fail_closed_startup", "new operator store starts paused", None)];
      actions := map[];
    }

    method CurrentState() returns (row: ControlRow)
      requires Valid()
      ensures row == rows[|rows| - 1] && row.paused == View().Paused()
    {
      row := rows[|rows| - 1];
    }

    method Pause(timestamp: int, reasonCode: string, reason: string) returns (error: Option<OperatorError>)
      requires Valid()
      modifies this
      ensures Valid() && Outcome(View(), error) == Paused(old(View()), timestamp, reasonCode, reason)
    {
      CommandKeepsInvariant(View(), namespace, Command.Pause(timestamp, reasonCode, reason));
      if Blank(reason) || !ValidReasonCode(reasonCode) {
        return Some(InvalidReason);
      }
      rows := rows + [ControlRow(true, timestamp, reasonCode, reason, None)];
      return None;
    }

    method RunningCount() returns (count: nat)
      ensures count == |View().Running()|
    {
      count := |set id | id in actions && actions[id].state == InProgress|;
    }

    method Resume(approval: Approval, fingerprint: string, timestamp: int, reason: string)
      returns (error: Option<OperatorError>)
      requires Valid()
      modifies this
      ensures Valid() && Outcome(View(), error) == Resumed(old(View()), approval, namespace, fingerprint, timestamp, reason)
    {
      CommandKeepsInvariant(View(), namespace, Command.Resume(approval, fingerprint, timestamp, reason));
      if !Verifies(approval, ResumeExecution, namespace, fingerprint, timestamp) {
        return Some(ApprovalNotValid);
      }
      if Blank(reason) {
        return Some(InvalidReason);
      }
      if approval.id in actions {
        return Some(ApprovalConsumed);
      }
      var current := CurrentState();
      if !current.paused {
        return Some(AlreadyResumed);
      }
      var count := RunningCount();
      if count != 0 {
        return Some(ActionInProgress);
      }
      actions := actions[approval.id := ActionRecord(ResumeExecution, Completed, timestamp, timestamp, Some(reason))];
      rows := rows + [ControlRow(false, timestamp, "operator_resume", reason, Some(approval.id))];
      return None;
    }

    method BeginAction(approval: Approval, expected: ActionKind, fingerprint: string, timestamp: int)
      returns (error: Option<OperatorError>)
      requires Valid()
      modifies this
      ensures Valid() && Outcome(View(), error) == Begun(old(View()), approval, expected, namespace, fingerprint, timestamp)
    {
      CommandKeepsInvariant(View(), namespace, Command.Begin(approval, expected, fingerprint, timestamp));
      if expected == ResumeExecution {
        return Some(ResumeNotAnAction);
      }
      if !Verifies(approval, expected, namespace, fingerprint, timestamp) {
        return Some(ApprovalNotValid);
      }
      if approval.id in actions {
        return Some(ApprovalConsumed);
      }
      var current := CurrentState();
      if !current.paused {
        return Some(NotPaused);
      }
      var count := RunningCount();
      if count != 0 {
        return Some(ActionInProgress);
      }
      actions := actions[approval.id := ActionRecord(expected, InProgress, timestamp, timestamp, None)];
      return None;
    }

    method CompleteAction(id: ApprovalId, succeeded: bool, timestamp: int, summary: string)
      returns (error: Option<OperatorError>)
      requires Valid()
      modifies this
      ensures Valid() && Outcome(View(), error) == Finished(old(View()), id, succeeded, timestamp, summary)
    {
      CommandKeepsInvariant(View(), namespace, Command.Complete(id, succeeded, timestamp, summary));
      if Blank(summary) {
        return Some(InvalidReason);
      }
      if id !in actions {
        return Some(NoSuchAction);
      }
      var current := actions[id];
      if !Readable(current) {
        return Some(UnreadableRecord);
      }
      if current.state != InProgress {
        return Some(ActionNotInProgress);
      }
      var state := if succeeded then Completed else Failed;
      actions := actions[id := current.(state := state, updatedAt := timestamp, summary := Some(summary))];
      return if Readable(actions[id]) then None else Some(UnreadableRecord);
    }
  }
}
