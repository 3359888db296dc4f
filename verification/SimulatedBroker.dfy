/** The deterministic broker: queued orders fill in full at the next eligible open, with declared costs. */
module SimulatedBroker {
  import opened Prelude
  import opened Portfolio
  import opened Risk

  datatype PendingOrder = PendingOrder(orderId: OrderId, intent: OrderIntent, approvedQuantity: int)

  datatype BrokerCosts = BrokerCosts(slippageBps: real, feePerOrder: real, feePerShare: real)

  predicate ValidCosts(costs: BrokerCosts) {
    costs.slippageBps >= 0.0 && costs.feePerOrder >= 0.0 && costs.feePerShare >= 0.0
  }

  datatype BrokerState = BrokerState(pending: seq<PendingOrder>, orderIds: set<OrderId>)

  datatype BrokerError =
    | NonPositiveFillPrice | DecisionNotAllowed | DecisionForOtherIntent | InvalidQuantity | DuplicateOrder

  const MILLIONTHS := 1000000.0

  /** Rounding to a whole number, ties to even. */
  function RoundEven(scaled: real): int {
    var below := scaled.Floor;
    var rest := scaled - below as real;
    if rest < 0.5 || (rest == 0.5 && below % 2 == 0) then below else below + 1
  }

  /** Rounding to six decimal places. */
  function Quantize(value: real): real {
    RoundEven(value * MILLIONTHS) as real / MILLIONTHS
  }

  lemma {:induction false} QuantizeNonNegative(value: real)
    requires value >= 0.0
    ensures Quantize(value) >= 0.0
  {
  }

  predicate Eligible(order: PendingOrder, event: MarketEvent) {
    order.intent.symbol == event.symbol && event.timestamp > order.intent.timestamp
  }

  predicate ValidOrder(order: PendingOrder) {
    order.approvedQuantity > 0
  }

  function FillFor(costs: BrokerCosts, order: PendingOrder, event: MarketEvent): (result: Result<Fill, BrokerError>)
    requires ValidCosts(costs) && ValidOrder(order) && ValidEvent(event)
    ensures result.Ok? ==> ValidFill(result.value)
    ensures result.Ok? ==>
              && result.value.symbol == order.intent.symbol && result.value.side == order.intent.side
              && result.value.quantity == order.approvedQuantity && result.value.timestamp == event.timestamp
              && result.value.orderId == order.orderId
  {
    var perShareSlippage := Slippage(event.open, costs.slippageBps);
    var raw := if order.intent.side.Buy? then event.open + perShareSlippage else event.open - perShareSlippage;
    var price := Quantize(raw);
    if raw <= 0.0 || price <= 0.0 then Err(NonPositiveFillPrice)
    else
      var fee := costs.feePerOrder + Value(order.approvedQuantity, costs.feePerShare);
      ValueMonotone(order.approvedQuantity, 0.0, costs.feePerShare);
      QuantizeNonNegative(fee);
      Ok(Fill(order.orderId, event.timestamp, order.intent.symbol, order.intent.side, order.approvedQuantity,
              price, Quantize(fee)))
  }

  predicate ValidPending(pending: seq<PendingOrder>) {
    forall i :: 0 <= i < |pending| ==> ValidOrder(pending[i])
  }

  /** The fills of one event and the orders that stay queued, in queue order. */
  function Match(costs: BrokerCosts, pending: seq<PendingOrder>, event: MarketEvent)
    : (result: Result<(seq<Fill>, seq<PendingOrder>), BrokerError>)
    requires ValidCosts(costs) && ValidPending(pending) && ValidEvent(event)
    ensures result.Ok? ==> ValidPending(result.value.1)
    ensures result.Ok? ==> forall i :: 0 <= i < |result.value.0| ==> ValidFill(result.value.0[i])
    ensures result.Ok? ==> |result.value.0| + |result.value.1| == |pending|
  {
    if pending == [] then Ok(([], []))
    else
      var last := pending[|pending| - 1];
      match Match(costs, pending[..|pending| - 1], event)
      case Err(error) => Err(error)
      case Ok((fills, remaining)) =>
        if !Eligible(last, event) then Ok((fills, remaining + [last]))
        else
          match FillFor(costs, last, event)
          case Err(error) => Err(error)
          case Ok(fill) => Ok((fills + [fill], remaining))
  }

  lemma {:induction false} MatchPrefixError(costs: BrokerCosts, pending: seq<PendingOrder>, event: MarketEvent, n: nat)
    requires ValidCosts(costs) && ValidPending(pending) && ValidEvent(event)
    requires n <= |pending| && Match(costs, pending[..n], event).Err?
    ensures Match(costs, pending, event) == Match(costs, pending[..n], event)
  {
    if n == |pending| {
      assert pending[..n] == pending;
    } else {
      var init := pending[..|pending| - 1];
      assert init[..n] == pending[..n];
      MatchPrefixError(costs, init, event, n);
    }
  }

  function Submit(state: BrokerState, intent: OrderIntent, decision: RiskDecision): Result<BrokerState, BrokerError> {
    if !decision.allowed then Err(DecisionNotAllowed)
    else if decision.intentId != intent.id then Err(DecisionForOtherIntent)
    else if decision.approvedQuantity <= 0 || decision.approvedQuantity > intent.quantity then Err(InvalidQuantity)
    else
      var orderId := OrderId(intent.id, decision.approvedQuantity);
      if orderId in state.orderIds then Err(DuplicateOrder)
      else Ok(BrokerState(state.pending + [PendingOrder(orderId, intent, decision.approvedQuantity)],
                          state.orderIds + {orderId}))
  }

  class SimulatedBroker {
    const costs: BrokerCosts
    var pending: seq<PendingOrder>
    var orderIds: set<OrderId>

    function View(): BrokerState
      reads this
    {
      BrokerState(pending, orderIds)
    }

    ghost predicate Valid()
      reads this
    {
      ValidCosts(costs) && ValidPending(pending)
    }

    constructor (costs: BrokerCosts)
      requires ValidCosts(costs)
      ensures Valid() && this.costs == costs && View() == BrokerState([], {})
    {
      this.costs := costs;
      pending := [];
      orderIds := {};
    }

    method SubmitOrder(intent: OrderIntent, decision: RiskDecision) returns (result: Result<OrderId, BrokerError>)
      requires Valid()
      modifies this
      ensures Valid()
      ensures match Submit(old(View()), intent, decision)
              case Err(error) => result == Err(error) && View() == old(View())
              case Ok(after) => result == Ok(OrderId(intent.id, decision.approvedQuantity)) && View() == after
    {
      if !decision.allowed {
        return Err(DecisionNotAllowed);
      }
      if decision.intentId != intent.id {
        return Err(DecisionForOtherIntent);
      }
      if decision.approvedQuantity <= 0 || decision.approvedQuantity > intent.quantity {
        return Err(InvalidQuantity);
      }
      var orderId := OrderId(intent.id, decision.approvedQuantity);
      if orderId in orderIds {
        return Err(DuplicateOrder);
      }
      orderIds := orderIds + {orderId};
      pending := pending + [PendingOrder(orderId, intent, decision.approvedQuantity)];
      return Ok(orderId);
    }

    /** A raised error leaves the queue as it was: the new queue is stored only after the whole pass. */
    method OnMarketEvent(event: MarketEvent) returns (result: Result<seq<Fill>, BrokerError>)
      requires Valid() && ValidEvent(event)
      modifies this`pending
      ensures Valid()
      ensures match Match(costs, old(pending), event)
              case Err(error) => result == Err(error) && pending == old(pending)
              case Ok((fills, remaining)) => result == Ok(fills) && pending == remaining
    {
      var fills: seq<Fill> := [];
      var remaining: seq<PendingOrder> := [];
      for i := 0 to |pending|
        invariant Match(costs, pending[..i], event) == Ok((fills, remaining))
      {
        assert pending[..i + 1][..i] == pending[..i];
        var order := pending[i];
        if !Eligible(order, event) {
          remaining := remaining + [order];
        } else {
          var fill := FillFor(costs, order, event);
          if fill.Err? {
            MatchPrefixError(costs, pending, event, i + 1);
            return Err(fill.error);
          }
          fills := fills + [fill.value];
        }
      }
      assert pending[..|pending|] == pending;
      pending := remaining;
      return Ok(fills);
    }

    method CancelAll() returns (canceled: seq<OrderId>)
      modifies this`pending
      ensures pending == []
      ensures |canceled| == |old(pending)| && forall i :: 0 <= i < |canceled| ==> canceled[i] == old(pending)[i].orderId
    {
      canceled := seq(|pending|, i requires 0 <= i < |pending| reads this => pending[i].orderId);
      pending := [];
    }
  }
}
