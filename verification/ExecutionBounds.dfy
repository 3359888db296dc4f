/** When the fills of the simulated broker, rounded as it rounds them, stay within what the risk limits assumed. */
module ExecutionBounds {
  import opened Prelude
  import opened Portfolio
  import opened Risk
  import opened SimulatedBroker

  lemma {:induction false} FloorMonotone(low: real, high: real)
    requires low <= high
    ensures low.Floor <= high.Floor
  {
  }

  lemma {:induction false} RoundEvenMonotone(low: real, high: real)
    requires low <= high
    ensures RoundEven(low) <= RoundEven(high)
  {
    FloorMonotone(low, high);
  }

  /** Rounding keeps the order of prices. */
  lemma {:induction false} QuantizeMonotone(low: real, high: real)
    requires low <= high
    ensures Quantize(low) <= Quantize(high)
  {
    ScaleOrder(low, high, MILLIONTHS);
    RoundEvenMonotone(low * MILLIONTHS, high * MILLIONTHS);
  }

  lemma {:induction false} SlippedMonotone(policy: RiskPolicy, low: real, high: real)
    requires ValidPolicy(policy) && low <= high
    ensures SlippedPrice(policy, low) <= SlippedPrice(policy, high)
  {
    var slip := policy.costs.slippageBps / BASIS_POINTS;
    ScaleOrder(low, high, 1.0 + slip);
    assert SlippedPrice(policy, low) == low * (1.0 + slip);
    assert SlippedPrice(policy, high) == high * (1.0 + slip);
  }

  /** The broker charges the costs that the risk limits assume. */
  predicate SameCosts(policy: RiskPolicy, costs: BrokerCosts) {
    costs == BrokerCosts(policy.costs.slippageBps, policy.costs.feePerOrder, policy.costs.feePerShare)
  }

  /** A queued order for an approved buy. */
  predicate BuyOrder(order: PendingOrder) {
    order.intent.side.Buy? && order.intent.referencePrice > 0.0 && order.approvedQuantity > 0
  }

  /** The highest price the broker can fill at while the open stays within the buffered reference price. */
  function TopPrice(policy: RiskPolicy, referencePrice: real): real {
    Quantize(SlippedPrice(policy, BufferedOpen(policy, referencePrice)))
  }

  /** The broker's fill of a buy: slipped and rounded price, rounded fee. */
  lemma {:induction false} BuyFillAmounts(policy: RiskPolicy, costs: BrokerCosts, order: PendingOrder, event: MarketEvent)
    requires ValidPolicy(policy) && SameCosts(policy, costs) && BuyOrder(order) && ValidEvent(event)
    ensures var result := FillFor(costs, order, event);
            && (result.Ok? <==> Quantize(SlippedPrice(policy, event.open)) > 0.0)
            && (result.Ok? ==>
                  && result.value.price == Quantize(SlippedPrice(policy, event.open))
                  && result.value.fee == Quantize(DeclaredFee(policy, order.approvedQuantity)))
  {
    SlippedAtLeastOpen(policy, event.open);
    assert FillFor(costs, order, event) == FillAt(costs, order, event, SlippedPrice(policy, event.open));
  }

  lemma {:induction false} SlippedAtLeastOpen(policy: RiskPolicy, open: real)
    requires ValidPolicy(policy) && open > 0.0
    ensures SlippedPrice(policy, open) >= open
  {
    ScaleOrder(0.0, policy.costs.slippageBps, open);
    assert open * policy.costs.slippageBps >= 0.0;
  }

  /** The fill at a given unrounded price. */
  function FillAt(costs: BrokerCosts, order: PendingOrder, event: MarketEvent, raw: real): Result<Fill, BrokerError> {
    if raw <= 0.0 || Quantize(raw) <= 0.0 then Err(NonPositiveFillPrice)
    else Ok(Fill(order.orderId, event.timestamp, order.intent.symbol, order.intent.side, order.approvedQuantity, Quantize(raw),
                 Quantize(costs.feePerOrder + Value(order.approvedQuantity, costs.feePerShare))))
  }

  /** Over every open within the buffered reference price, the broker's rounded price stays within the bound exactly
      when its highest one does. The condition is known before the order is sent. */
  lemma {:induction false} RoundedPriceCoveredExactly(policy: RiskPolicy, referencePrice: real)
    requires ValidPolicy(policy) && referencePrice > 0.0
    ensures (forall open: real :: 0.0 < open <= BufferedOpen(policy, referencePrice) ==>
                                  Quantize(SlippedPrice(policy, open)) <= ConservativePrice(policy, referencePrice)) <==>
            TopPrice(policy, referencePrice) <= ConservativePrice(policy, referencePrice)
  {
    var top := BufferedOpen(policy, referencePrice);
    BufferedOpenIsPositive(policy, referencePrice);
    forall open: real | 0.0 < open <= top
      ensures Quantize(SlippedPrice(policy, open)) <= TopPrice(policy, referencePrice)
    {
      SlippedMonotone(policy, open, top);
      QuantizeMonotone(SlippedPrice(policy, open), SlippedPrice(policy, top));
    }
  }

  lemma {:induction false} BufferedOpenIsPositive(policy: RiskPolicy, referencePrice: real)
    requires ValidPolicy(policy) && referencePrice > 0.0
    ensures BufferedOpen(policy, referencePrice) >= referencePrice
  {
    ScaleOrder(1.0, 1.0 + policy.costs.bufferBps / BASIS_POINTS, referencePrice);
  }

  /** The fills of one order while the open stays within the buffered reference price. */
  ghost predicate AllFillsWithinBound(policy: RiskPolicy, costs: BrokerCosts, order: PendingOrder)
    requires ValidCosts(costs) && BuyOrder(order)
  {
    forall event :: ValidEvent(event) && event.open <= BufferedOpen(policy, order.intent.referencePrice)
                    && FillFor(costs, order, event).Ok? ==>
      WithinBound(policy, order.intent, order.approvedQuantity, FillFor(costs, order, event).value)
  }

  /** Every fill the broker makes of an approved buy, price and fee rounded as it rounds them, is within the bound
      exactly when the highest price and the rounded fee are. A price that rounds to zero is never filled. */
  lemma {:induction false} FillsStayWithinBoundExactly(policy: RiskPolicy, costs: BrokerCosts, order: PendingOrder)
    requires ValidPolicy(policy) && SameCosts(policy, costs) && BuyOrder(order)
    ensures AllFillsWithinBound(policy, costs, order) <==>
            || TopPrice(policy, order.intent.referencePrice) <= 0.0
            || (&& TopPrice(policy, order.intent.referencePrice) <= ConservativePrice(policy, order.intent.referencePrice)
                && Quantize(DeclaredFee(policy, order.approvedQuantity)) <= DeclaredFee(policy, order.approvedQuantity))
  {
    var reference := order.intent.referencePrice;
    var top := BufferedOpen(policy, reference);
    BufferedOpenIsPositive(policy, reference);
    var highest := MarketEvent(order.intent.timestamp + 1, order.intent.symbol, top, top);
    BuyFillAmounts(policy, costs, order, highest);
    if TopPrice(policy, reference) <= 0.0
       || (TopPrice(policy, reference) <= ConservativePrice(policy, reference)
           && Quantize(DeclaredFee(policy, order.approvedQuantity)) <= DeclaredFee(policy, order.approvedQuantity)) {
      forall event | ValidEvent(event) && event.open <= top && FillFor(costs, order, event).Ok?
        ensures WithinBound(policy, order.intent, order.approvedQuantity, FillFor(costs, order, event).value)
      {
        BuyFillAmounts(policy, costs, order, event);
        SlippedMonotone(policy, event.open, top);
        QuantizeMonotone(SlippedPrice(policy, event.open), SlippedPrice(policy, top));
      }
    } else {
      assert FillFor(costs, order, highest).Ok?;
    }
  }

  /** No gap and no buffer, five basis points of slippage: the bound is 1.23591765, the broker fills at 1.235918. */
  lemma {:induction false} RoundingExceedsTheBound(timestamp: int, limits: RiskLimits)
    ensures var policy := RiskPolicy(limits, CostModel(5.0, 0.0, 0.0, 0.0));
            var id := IntentId(timestamp, "DEMO", Buy, 1, 1.2353);
            var intent := OrderIntent(id, timestamp, "DEMO", Buy, 1, 1.2353);
            var order := PendingOrder(OrderId(id, 1), intent, 1);
            var event := MarketEvent(timestamp + 1, "DEMO", 1.2353, 1.2353);
            var result := FillFor(BrokerCosts(5.0, 0.0, 0.0), order, event);
            && BufferedOpen(policy, 1.2353) == event.open
            && SlippedPrice(policy, event.open) == ConservativePrice(policy, 1.2353) == 1.23591765
            && result.Ok? && result.value.price == 1.235918
            && !WithinBound(policy, intent, 1, result.value)
  {
    var policy := RiskPolicy(limits, CostModel(5.0, 0.0, 0.0, 0.0));
    assert SlippedPrice(policy, 1.2353) == 1.23591765;
    assert 1.23591765 * MILLIONTHS == 1235917.65;
    assert (1235917.65).Floor == 1235917;
    assert Quantize(1.23591765) == 1.235918;
    assert Value(1, 0.0) == 0.0;
  }

  /** A declared fee below the last decimal place is charged in full: 0.0000006 becomes 0.000001. */
  lemma {:induction false} RoundingExceedsTheFee(limits: RiskLimits)
    ensures var policy := RiskPolicy(limits, CostModel(0.0, 0.0, 0.0000006, 0.0));
            DeclaredFee(policy, 1) == 0.0000006 && Quantize(DeclaredFee(policy, 1)) == 0.000001
  {
    assert Value(1, 0.0) == 0.0;
    assert 0.0000006 * MILLIONTHS == 0.6;
    assert (0.6).Floor == 0;
  }

  /** Putting both halves together: while the next open stays within the buffered reference price, an approved buy is
      filled within the bound and never halts the run after its fill, when four numbers known beforehand say so. */
  lemma {:induction false} ApprovedBuyIsSafeBeforehand(policy: RiskPolicy, costs: BrokerCosts, order: PendingOrder, risk: RiskState, book: Book,
                                    point: EquityPoint, before: RiskState, event: MarketEvent)
    requires ValidPolicy(policy) && SameCosts(policy, costs) && BuyOrder(order) && ValidEvent(event)
    requires PositionsOk(book) && book.cash >= 0.0 && !before.halted
    requires Evaluation(policy, risk, order.intent, book, point).1.allowed
    requires order.approvedQuantity == Evaluation(policy, risk, order.intent, book, point).1.approvedQuantity
    requires event.open <= BufferedOpen(policy, order.intent.referencePrice) && FillFor(costs, order, event).Ok?
    requires TopPrice(policy, order.intent.referencePrice) <= ConservativePrice(policy, order.intent.referencePrice)
    requires Quantize(DeclaredFee(policy, order.approvedQuantity)) <= DeclaredFee(policy, order.approvedQuantity)
    requires WorstFillFits(policy, order.intent, book, order.approvedQuantity)
    requires WorstFillKeepsReserve(policy, order.intent, book, order.approvedQuantity)
    ensures var fill := FillFor(costs, order, event).value;
            && WithinBound(policy, order.intent, order.approvedQuantity, fill)
            && Apply(book, fill) == (Bought(book, fill), None)
            && !AfterFill(policy, before, Bought(book, fill), fill).halted
  {
    var fill := FillFor(costs, order, event).value;
    FillsStayWithinBoundExactly(policy, costs, order);
    assert WithinBound(policy, order.intent, order.approvedQuantity, fill);
    ApprovedBuyIsAccepted(policy, risk, order.intent, book, point, fill);
    ApprovedBuyNeverHaltsExactly(policy, risk, order.intent, book, point, before);
  }

  // ----- when a buy is safe, for the fills the broker really makes -----

  /** A buy of that quantity at that price and fee is paid for, and keeps the order, position and reserve limits. */
  ghost predicate SafeAt(policy: RiskPolicy, book: Book, symbol: string, quantity: int, price: real, fee: real) {
    var held := Held(book.positions, symbol).quantity;
    var equity := book.cash - fee + Value(held, price);
    && Value(quantity, price) + fee <= book.cash && Value(quantity, price) + fee <= policy.limits.maxOrderNotional
    && Value(held + quantity, price) <= Portion(equity, policy.limits.maxPositionFraction)
    && book.cash - Value(quantity, price) - fee >= Portion(equity, policy.limits.minCashReserveFraction)
  }

  /** The fill is accepted, and its recheck does not halt the run. */
  ghost predicate GoesThrough(policy: RiskPolicy, before: RiskState, book: Book, fill: Fill)
    requires PositionsOk(book) && ValidFill(fill)
  {
    Apply(book, fill) == (Bought(book, fill), None) && !AfterFill(policy, before, Bought(book, fill), fill).halted
  }

  lemma {:induction false} GoesThroughExactly(policy: RiskPolicy, before: RiskState, book: Book, fill: Fill)
    requires ValidPolicy(policy) && PositionsOk(book) && book.cash >= 0.0 && !before.halted
    requires ValidFill(fill) && fill.side.Buy?
    ensures GoesThrough(policy, before, book, fill) <==> SafeAt(policy, book, fill.symbol, fill.quantity, fill.price, fill.fee)
  {
    AcceptedExactly(book, fill);
    if fill.GrossNotional() + fill.fee <= book.cash {
      NoHaltMeansNoTrip(policy, before, book, fill);
      PositionTripsExactly(policy, book, fill);
      ReserveTripsExactly(policy, book, fill);
      EquityIsPositive(book, fill);
    }
  }

  lemma {:induction false} EquityIsPositive(book: Book, fill: Fill)
    requires PositionsOk(book) && ValidFill(fill) && fill.GrossNotional() + fill.fee <= book.cash
    ensures book.cash - fill.fee + Value(Held(book.positions, fill.symbol).quantity, fill.price) > 0.0
  {
    ValueMonotone(Held(book.positions, fill.symbol).quantity, 0.0, fill.price);
    assert fill.GrossNotional() > 0.0;
  }

  lemma {:induction false} SafeAtLowerPrice(policy: RiskPolicy, book: Book, symbol: string, quantity: int, price: real, top: real, fee: real)
    requires ValidPolicy(policy) && PositionsOk(book) && quantity > 0 && 0.0 < price <= top
    requires SafeAt(policy, book, symbol, quantity, top, fee)
    ensures SafeAt(policy, book, symbol, quantity, price, fee)
  {
    var held := Held(book.positions, symbol).quantity;
    ValueMonotone(quantity, price, top);
    LowerPriceFits(held, quantity, price, top, book.cash - fee, book.cash - fee, policy.limits.maxPositionFraction);
    LowerCostKeepsReserve(book.cash, held, quantity, price, top, fee, fee, policy.limits.minCashReserveFraction);
  }

  /** While the open stays within the buffered reference price, every fill the broker makes goes through. */
  ghost predicate AllFillsGoThrough(policy: RiskPolicy, costs: BrokerCosts, order: PendingOrder, before: RiskState, book: Book)
    requires ValidCosts(costs) && BuyOrder(order) && PositionsOk(book)
  {
    forall event :: ValidEvent(event) && event.open <= BufferedOpen(policy, order.intent.referencePrice)
                    && FillFor(costs, order, event).Ok? ==>
      GoesThrough(policy, before, book, FillFor(costs, order, event).value)
  }

  /** For any buy, approved or not: every fill the broker makes of it up to that open is accepted and halts nothing exactly
      when the fill at the highest price, with the rounded fee, is safe. Its price and fee are known before the order is
      sent. A price that rounds to zero is never filled. */
  lemma {:induction false} FillsGoThroughExactly(policy: RiskPolicy, costs: BrokerCosts, order: PendingOrder, before: RiskState, book: Book)
    requires ValidPolicy(policy) && SameCosts(policy, costs) && BuyOrder(order)
    requires PositionsOk(book) && book.cash >= 0.0 && !before.halted
    ensures AllFillsGoThrough(policy, costs, order, before, book) <==>
            || TopPrice(policy, order.intent.referencePrice) <= 0.0
            || SafeAt(policy, book, order.intent.symbol, order.approvedQuantity, TopPrice(policy, order.intent.referencePrice),
                      Quantize(DeclaredFee(policy, order.approvedQuantity)))
  {
    var top := BufferedOpen(policy, order.intent.referencePrice);
    BufferedOpenIsPositive(policy, order.intent.referencePrice);
    var highest := MarketEvent(order.intent.timestamp + 1, order.intent.symbol, top, top);
    BuyFillAmounts(policy, costs, order, highest);
    if FillFor(costs, order, highest).Ok? {
      GoesThroughExactly(policy, before, book, FillFor(costs, order, highest).value);
    }
    forall event | ValidEvent(event) && event.open <= top && FillFor(costs, order, event).Ok?
      ensures TopPrice(policy, order.intent.referencePrice) > 0.0
      ensures SafeAt(policy, book, order.intent.symbol, order.approvedQuantity, TopPrice(policy, order.intent.referencePrice),
                     Quantize(DeclaredFee(policy, order.approvedQuantity))) ==>
                GoesThrough(policy, before, book, FillFor(costs, order, event).value)
    {
      LowerFillGoesThrough(policy, costs, order, before, book, event);
    }
  }

  lemma {:induction false} LowerFillGoesThrough(policy: RiskPolicy, costs: BrokerCosts, order: PendingOrder, before: RiskState, book: Book,
                                                event: MarketEvent)
    requires ValidPolicy(policy) && SameCosts(policy, costs) && BuyOrder(order)
    requires PositionsOk(book) && book.cash >= 0.0 && !before.halted
    requires ValidEvent(event) && event.open <= BufferedOpen(policy, order.intent.referencePrice) && FillFor(costs, order, event).Ok?
    ensures var top, fee := TopPrice(policy, order.intent.referencePrice), Quantize(DeclaredFee(policy, order.approvedQuantity));
            && top > 0.0
            && (SafeAt(policy, book, order.intent.symbol, order.approvedQuantity, top, fee) ==>
                  GoesThrough(policy, before, book, FillFor(costs, order, event).value))
  {
    var top, fee := TopPrice(policy, order.intent.referencePrice), Quantize(DeclaredFee(policy, order.approvedQuantity));
    var fill := FillFor(costs, order, event).value;
    BuyFillAmounts(policy, costs, order, event);
    SlippedMonotone(policy, event.open, BufferedOpen(policy, order.intent.referencePrice));
    QuantizeMonotone(SlippedPrice(policy, event.open), SlippedPrice(policy, BufferedOpen(policy, order.intent.referencePrice)));
    GoesThroughExactly(policy, before, book, fill);
    if SafeAt(policy, book, order.intent.symbol, order.approvedQuantity, top, fee) {
      SafeAtLowerPrice(policy, book, order.intent.symbol, order.approvedQuantity, fill.price, top, fee);
    }
  }
}
