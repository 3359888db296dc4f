/** The approval-bound operator actions: resuming assessments and cancelling the strategy's own open orders. */
module OperatorActions {
  import opened Prelude
  import opened Brokerage
  import opened BrokerJournal
  import opened Reconciliation
  import opened OperatorControl
  import MarketControls

  datatype Context = Context(namespace: string, fingerprint: string, valid: bool)

  datatype ActionError =
    | NamespaceMismatch | FingerprintMismatch | ContextInvalid | BrokerUnavailable | NotReady | AccountNotPermitted
    | CancelIdentityChanged | NotTerminal | OwnedOrdersRemain
    | ReconcileFailed(cause: ReconcileError) | StoreFailed(error: OperatorError)

  datatype CancelAnswer = CancelFailed | CancelObserved(brokerId: BrokerId, status: OrderStatus)

  /** Every broker answer during one cancellation; `None` is a call that raised. */
  datatype CancelView = CancelView(before: Option<seq<OrderSnapshot>>, cancels: nat -> CancelAnswer,
                                   after: Option<seq<OrderSnapshot>>, snapshot: BrokerView)

  datatype CancelOwnedOrdersResult = CancelOwnedOrdersResult(examined: nat, owned: nat, foreign: int, terminal: nat,
                                                             residual: nat, reconciliation: Report)
  {
    predicate Succeeded() { terminal == owned && residual == 0 }
  }

  const CancelCode: string := "cancel_requested"
  const ResumeReason: string := "paper context, store integrity, and reconciliation passed"
  const CancelDone: string := "cancel_owned_orders_completed"
  const CancelLost: string := "cancel_owned_orders_failed"

  lemma {:induction false} ReasonsAreValid()
    ensures ValidReasonCode(CancelCode) && !Blank(CancelCode) && !Blank(CancelDone) && !Blank(CancelLost)
  {
    assert WordChar(CancelCode[0]);
    assert CancelDone[0] == 'c' && CancelLost[0] == 'c';
  }

  /** The strategy's own orders, in the order listed. */
  function OwnedOrders(orders: seq<OrderSnapshot>, prefix: string): seq<OrderSnapshot> {
    if orders == [] then []
    else
      var last := orders[|orders| - 1];
      OwnedOrders(orders[..|orders| - 1], prefix) + (if Owned(last.clientId, prefix) then [last] else [])
  }

  lemma {:induction false} OwnedOrdersAreExactly(orders: seq<OrderSnapshot>, prefix: string)
    ensures forall o :: o in OwnedOrders(orders, prefix) <==> o in orders && Owned(o.clientId, prefix)
    ensures |OwnedOrders(orders, prefix)| <= |orders|
  {
    if orders != [] {
      OwnedOrdersAreExactly(orders[..|orders| - 1], prefix);
      assert orders == orders[..|orders| - 1] + [orders[|orders| - 1]];
    }
  }

  /** While an action runs, nobody can resume. */
  lemma {:induction false} RunningActionBlocksResume(store: Store, approval: Approval, namespace: string, fingerprint: string, timestamp: int,
                                  reason: string)
    requires StoreInvariant(store) && store.Running() != {}
    ensures store.Paused() && Resumed(store, approval, namespace, fingerprint, timestamp, reason).error.Some?
    ensures Resumed(store, approval, namespace, fingerprint, timestamp, reason).store == store
  {
  }

  class PaperOperatorActions {
    const control: SQLiteOperatorControl
    const reconciler: PaperReconciler
    const prefix: string
    const namespace: string

    constructor (control: SQLiteOperatorControl, reconciler: PaperReconciler, prefix: string, namespace: string)
      ensures this.control == control && this.reconciler == reconciler && this.prefix == prefix && this.namespace == namespace
    {
      this.control, this.reconciler, this.prefix, this.namespace := control, reconciler, prefix, namespace;
    }

    ghost predicate Valid()
      reads this, control, reconciler.journal
    {
      control.Valid() && reconciler.Configured() && reconciler.journal.Valid()
    }

    /** Resuming needs a fresh clean reconciliation: when it succeeds, the journal has nothing unresolved and its own
        fills account for exactly the broker's positions. When it fails, the store is as it was. */
    method ResumePaperAssessments(context: Context, approval: Approval, fingerprint: string, timestamp: int, view: BrokerView)
      returns (result: Result<Report, ActionError>)
      requires Valid() && Appends(view.streams)
      modifies control, reconciler.journal
      ensures Valid()
      ensures result.Err? ==> control.View() == old(control.View())
      ensures result.Ok? ==>
                && Outcome(control.View(), None)
                   == Resumed(old(control.View()), approval, control.namespace, fingerprint, timestamp, ResumeReason)
                && old(control.View()).Paused() && !control.View().Paused()
                && NothingUnresolved(reconciler.journal.tables)
                && (forall s :: OwnedPosition(reconciler.journal.tables.fills, reconciler.prefix, s)
                                == MarketControls.SymbolQuantity(view.positions, s))
    {
      if context.namespace != namespace {
        return Err(NamespaceMismatch);
      }
      if context.fingerprint != fingerprint {
        return Err(FingerprintMismatch);
      }
      if !context.valid {
        return Err(ContextInvalid);
      }
      var report, _, _ := reconciler.Reconcile(view, timestamp);
      if report.Err? {
        return Err(ReconcileFailed(report.error));
      }
      if !report.value.ready {
        return Err(NotReady);
      }
      if !report.value.accountPermits {
        return Err(ActionError.AccountNotPermitted);
      }
      var error := control.Resume(approval, fingerprint, timestamp, ResumeReason);
      if error.Some? {
        return Err(StoreFailed(error.value));
      }
      var state := control.CurrentState();
      if state.paused {
        assert false;
      }
      return Ok(report.value);
    }

    /** Cancelling pauses first. However it ends the store is paused, the action it began is on record as finished,
        and only the strategy's own orders were targeted; it succeeds only if no own order is left open. */
    method CancelOwnedOrders(context: Context, approval: Approval, fingerprint: string, timestamp: int, view: CancelView)
      returns (result: Result<CancelOwnedOrdersResult, ActionError>, ghost targets: seq<BrokerId>)
      requires Valid() && Appends(view.snapshot.streams)
      modifies control, reconciler.journal
      ensures Valid() && control.View().Paused() && control.View().Running() == old(control.View().Running())
      ensures approval.id !in old(control.View().actions) && approval.id in control.View().actions ==>
                control.View().actions[approval.id].state == if result.Ok? then Completed else ActionState.Failed
      ensures OnlyOwned(targets, view, prefix)
      ensures result.Ok? ==>
                && approval.id !in old(control.View().actions) && approval.id in control.View().actions
                && view.before.Some? && view.after.Some?
                && (forall o :: o in view.after.value ==> !Owned(o.clientId, prefix))
                && |targets| == |OwnedOrders(view.before.value, prefix)| && TerminalAnswers(targets, view, |targets|)
                && result.value.Succeeded()
    {
      ReasonsAreValid();
      targets := [];
      var paused := control.Pause(timestamp, CancelCode, CancelCode);
      assert paused.None?;
      ghost var store := control.View();
      assert store.Running() == old(control.View().Running());
      var begun := control.BeginAction(approval, ActionKind.CancelOwnedOrders, fingerprint, timestamp);
      if begun.Some? {
        return Err(StoreFailed(begun.value)), targets;
      }
      ghost var running := control.View();
      assert running.Running() == store.Running() + {approval.id};
      var attempt;
      attempt, targets := Attempt(context, fingerprint, timestamp, view);
      CompletionIsDurable(running, approval.id, attempt.Ok?, timestamp, if attempt.Ok? then CancelDone else CancelLost);
      var completed := control.CompleteAction(approval.id, attempt.Ok?, timestamp, if attempt.Ok? then CancelDone else CancelLost);
      assert completed.None?;
      return attempt, targets;
    }

    /** The body of a cancellation, after its approval has been consumed. */
    method Attempt(context: Context, fingerprint: string, timestamp: int, view: CancelView)
      returns (result: Result<CancelOwnedOrdersResult, ActionError>, ghost targets: seq<BrokerId>)
      requires Valid() && Appends(view.snapshot.streams)
      modifies reconciler.journal
      ensures Valid() && OnlyOwned(targets, view, prefix)
      ensures result.Ok? ==>
                && view.before.Some? && view.after.Some?
                && (forall o :: o in view.after.value ==> !Owned(o.clientId, prefix))
                && |targets| == |OwnedOrders(view.before.value, prefix)| && TerminalAnswers(targets, view, |targets|)
                && result.value.Succeeded()
    {
      targets := [];
      if context.namespace != namespace {
        return Err(NamespaceMismatch), targets;
      }
      if context.fingerprint != fingerprint {
        return Err(FingerprintMismatch), targets;
      }
      if !context.valid {
        return Err(ContextInvalid), targets;
      }
      if view.before.None? {
        return Err(BrokerUnavailable), targets;
      }
      var owned := OwnedOrders(view.before.value, prefix);
      OwnedOrdersAreExactly(view.before.value, prefix);
      var terminal: nat := 0;
      for i := 0 to |owned|
        invariant terminal == i == |targets|
        invariant OnlyOwned(targets, view, prefix) && TerminalAnswers(targets, view, i)
      {
        targets := targets + [owned[i].brokerId];
        assert owned[i] in view.before.value && Owned(owned[i].clientId, prefix);
        match view.cancels(i) {
          case CancelFailed =>
            return Err(BrokerUnavailable), targets;
          case CancelObserved(id, status) =>
            if id != owned[i].brokerId {
              return Err(CancelIdentityChanged), targets;
            }
            if !status.Terminal() {
              return Err(NotTerminal), targets;
            }
        }
        terminal := terminal + 1;
      }
      if view.after.None? {
        return Err(BrokerUnavailable), targets;
      }
      var residual := OwnedOrders(view.after.value, prefix);
      OwnedOrdersAreExactly(view.after.value, prefix);
      if |residual| > 0 {
        return Err(OwnedOrdersRemain), targets;
      }
      var report, _, _ := reconciler.Reconcile(view.snapshot, timestamp);
      if report.Err? {
        return Err(ReconcileFailed(report.error)), targets;
      }
      var outcome := CancelOwnedOrdersResult(|view.before.value|, |owned|, |view.before.value| - |owned|, terminal,
                                             |residual|, report.value);
      return Ok(outcome), targets;
    }
  }

  /** Every cancelled id belongs to an own order of the first listing. */
  ghost predicate OnlyOwned(targets: seq<BrokerId>, view: CancelView, prefix: string) {
    forall i :: 0 <= i < |targets| ==>
      view.before.Some? && exists o :: o in view.before.value && Owned(o.clientId, prefix) && o.brokerId == targets[i]
  }

  /** The broker answered each of the first `n` cancellations with a terminal status of that order. */
  ghost predicate TerminalAnswers(targets: seq<BrokerId>, view: CancelView, n: nat) {
    n <= |targets| &&
    forall i :: 0 <= i < n ==>
      view.cancels(i).CancelObserved? && view.cancels(i).brokerId == targets[i] && view.cancels(i).status.Terminal()
  }
}
