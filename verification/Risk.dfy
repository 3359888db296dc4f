/** Risk limits: circuit breakers, cost-aware buy sizing and the recheck of every executed buy. */
module Risk {
  import opened Prelude
  import opened Portfolio

  const BASIS_POINTS := 10000.0

  datatype RiskLimits = RiskLimits(maxPositionFraction: real, maxOrderNotional: real, minCashReserveFraction: real,
                                   maxDrawdownFraction: real, maxRealizedLoss: real)

  datatype CostModel = CostModel(slippageBps: real, bufferBps: real, feePerOrder: real, feePerShare: real)

  datatype RiskPolicy = RiskPolicy(limits: RiskLimits, costs: CostModel)

  predicate ValidPolicy(policy: RiskPolicy) {
    && 0.0 < policy.limits.maxPositionFraction < 1.0
    && 0.0 < policy.limits.minCashReserveFraction < 1.0
    && 0.0 < policy.limits.maxDrawdownFraction < 1.0
    && policy.limits.maxOrderNotional > 0.0 && policy.limits.maxRealizedLoss > 0.0
    && policy.costs.slippageBps >= 0.0 && policy.costs.bufferBps >= 0.0
    && policy.costs.feePerOrder >= 0.0 && policy.costs.feePerShare >= 0.0
  }

  datatype HaltReason =
    | NonPositiveEquity | MaximumRealizedLoss | MaximumDrawdown
    | PostFillOrderCommitment | PostFillNonPositiveEquity | PostFillPositionLimit | PostFillCashReserve
    | PortfolioRejectedFill | RiskObservationError | RiskEvaluationError

  datatype RiskState = RiskState(peakEquity: real, halted: bool, haltReason: Option<HaltReason>,
                                 seenIntents: set<IntentId>)

  const Fresh := RiskState(0.0, false, None, {})

  datatype DecisionReason =
    | DuplicateIntent | NoPositionToReduce | EmergencyHalt(reason: Option<HaltReason>) | ReducedToZero
    | ApprovedExit | Approved(conservative: bool, reduced: bool)

  datatype RiskDecision = RiskDecision(allowed: bool, reason: DecisionReason, approvedQuantity: int, intentId: IntentId)

  function AfterHalt(risk: RiskState, reason: HaltReason): RiskState {
    if risk.halted then risk else risk.(halted := true, haltReason := Some(reason))
  }

  function AfterObserve(policy: RiskPolicy, risk: RiskState, book: Book, point: EquityPoint): RiskState {
    var observed := risk.(peakEquity := MaxReal(risk.peakEquity, point.equity));
    if point.equity <= 0.0 then AfterHalt(observed, NonPositiveEquity)
    else if book.realizedPnl - book.totalFees <= -policy.limits.maxRealizedLoss then AfterHalt(observed, MaximumRealizedLoss)
    else if observed.peakEquity > 0.0 &&
            (observed.peakEquity - point.equity) / observed.peakEquity >= policy.limits.maxDrawdownFraction
    then AfterHalt(observed, MaximumDrawdown)
    else observed
  }

  // ----- the recheck of an executed buy -----

  function PositionValue(book: Book, fill: Fill): real {
    Value(Held(book.positions, fill.symbol).quantity, fill.price)
  }

  predicate CommitmentTrips(policy: RiskPolicy, fill: Fill) {
    fill.GrossNotional() + fill.fee > policy.limits.maxOrderNotional
  }

  predicate PositionTrips(policy: RiskPolicy, book: Book, fill: Fill) {
    var value := PositionValue(book, fill);
    var equity := book.cash + value;
    equity > 0.0 && value / equity > policy.limits.maxPositionFraction
  }

  predicate ReserveTrips(policy: RiskPolicy, book: Book, fill: Fill) {
    var equity := book.cash + PositionValue(book, fill);
    book.cash < Portion(equity, policy.limits.minCashReserveFraction)
  }

  /** `book` is the portfolio after the fill was applied. */
  function AfterFill(policy: RiskPolicy, risk: RiskState, book: Book, fill: Fill): RiskState {
    if fill.side.Sell? then risk
    else
      var committed := if CommitmentTrips(policy, fill) then AfterHalt(risk, PostFillOrderCommitment) else risk;
      var value := PositionValue(book, fill);
      if value <= 0.0 then committed
      else if book.cash + value <= 0.0 then AfterHalt(committed, PostFillNonPositiveEquity)
      else
        var exposed := if PositionTrips(policy, book, fill) then AfterHalt(committed, PostFillPositionLimit) else committed;
        if ReserveTrips(policy, book, fill) then AfterHalt(exposed, PostFillCashReserve) else exposed
  }

  // ----- sizing -----

  function ConservativePrice(policy: RiskPolicy, referencePrice: real): real {
    referencePrice * (1.0 + (policy.costs.slippageBps + policy.costs.bufferBps) / BASIS_POINTS)
  }

  function SharesForValue(value: real, price: real): int
    requires price > 0.0
  {
    if value <= 0.0 then 0 else FloorDivide(value, price)
  }

  function SharesForTotalCost(policy: RiskPolicy, value: real, price: real): int
    requires ValidPolicy(policy) && price > 0.0
  {
    SharesForValue(value - policy.costs.feePerOrder, price + policy.costs.feePerShare)
  }

  function ApprovedBuy(policy: RiskPolicy, intent: OrderIntent, book: Book, equity: real): int
    requires ValidPolicy(policy) && intent.referencePrice > 0.0
  {
    var price := ConservativePrice(policy, intent.referencePrice);
    PriceIsPositive(policy, intent.referencePrice);
    var byOrder := SharesForTotalCost(policy, policy.limits.maxOrderNotional, price);
    var byPosition := SharesForValue(PositionRoom(policy, book, intent.symbol, equity, price), price);
    var byCash := SharesForTotalCost(policy, SpendableCash(policy, book, equity), price);
    MinInt(MinInt(MinInt(intent.quantity, byOrder), byPosition), byCash)
  }

  function PositionRoom(policy: RiskPolicy, book: Book, symbol: string, equity: real, price: real): real {
    MaxReal(0.0, Portion(equity, policy.limits.maxPositionFraction) - Value(Held(book.positions, symbol).quantity, price))
  }

  function SpendableCash(policy: RiskPolicy, book: Book, equity: real): real {
    MaxReal(0.0, book.cash - Portion(equity, policy.limits.minCashReserveFraction))
  }

  function Portion(amount: real, fraction: real): real {
    amount * fraction
  }

  lemma {:induction false} PortionMonotone(low: real, high: real, fraction: real)
    requires low <= high && fraction >= 0.0
    ensures Portion(low, fraction) <= Portion(high, fraction)
  {
  }

  lemma {:induction false} PortionNonNegative(amount: real, fraction: real)
    requires amount >= 0.0 && fraction >= 0.0
    ensures Portion(amount, fraction) >= 0.0
  {
  }

  lemma {:induction false} PriceIsPositive(policy: RiskPolicy, referencePrice: real)
    requires ValidPolicy(policy) && referencePrice > 0.0
    ensures ConservativePrice(policy, referencePrice) >= referencePrice
  {
    var gap := (policy.costs.slippageBps + policy.costs.bufferBps) / BASIS_POINTS;
    assert gap >= 0.0;
    ScaleOrder(1.0, 1.0 + gap, referencePrice);
  }

  function UsesConservativeAssumptions(policy: RiskPolicy): bool {
    || policy.costs.slippageBps > 0.0 || policy.costs.bufferBps > 0.0
    || policy.costs.feePerOrder > 0.0 || policy.costs.feePerShare > 0.0
  }

  function Deny(intent: OrderIntent, reason: DecisionReason): RiskDecision {
    RiskDecision(false, reason, 0, intent.id)
  }

  function Decide(policy: RiskPolicy, risk: RiskState, intent: OrderIntent, book: Book, equity: real): RiskDecision
    requires ValidPolicy(policy) && intent.referencePrice > 0.0
  {
    if intent.side.Sell? then
      var approved := MinInt(intent.quantity, Held(book.positions, intent.symbol).quantity);
      if approved <= 0 then Deny(intent, NoPositionToReduce)
      else RiskDecision(true, if risk.halted then ApprovedExit else Approved(false, false), approved, intent.id)
    else if risk.halted then Deny(intent, EmergencyHalt(risk.haltReason))
    else
      var approved := ApprovedBuy(policy, intent, book, equity);
      if approved <= 0 then Deny(intent, ReducedToZero)
      else RiskDecision(true, Approved(UsesConservativeAssumptions(policy), approved != intent.quantity), approved, intent.id)
  }

  function Evaluation(policy: RiskPolicy, risk: RiskState, intent: OrderIntent, book: Book, point: EquityPoint)
    : (RiskState, RiskDecision)
    requires ValidPolicy(policy) && intent.referencePrice > 0.0
  {
    if intent.id in risk.seenIntents then (risk, Deny(intent, DuplicateIntent))
    else
      var observed := AfterObserve(policy, risk.(seenIntents := risk.seenIntents + {intent.id}), book, point);
      (observed, Decide(policy, observed, intent, book, point.equity))
  }

  // ----- what an approved buy is worth -----

  /** A fill of an approved buy that stays within the price and fee the sizing assumed. */
  ghost predicate WithinBound(policy: RiskPolicy, intent: OrderIntent, quantity: int, fill: Fill) {
    && ValidFill(fill) && fill.side.Buy? && fill.symbol == intent.symbol && fill.quantity == quantity
    && fill.price <= ConservativePrice(policy, intent.referencePrice)
    && fill.fee <= DeclaredFee(policy, quantity)
  }

  function DeclaredFee(policy: RiskPolicy, quantity: int): real {
    policy.costs.feePerOrder + Value(quantity, policy.costs.feePerShare)
  }

  /** `quantity` shares at the conservative price with declared fees fit in the value the count was taken from. */
  lemma {:induction false} SharesFit(policy: RiskPolicy, value: real, price: real, quantity: int)
    requires ValidPolicy(policy) && price > 0.0 && 0 < quantity <= SharesForTotalCost(policy, value, price)
    ensures Value(quantity, price) + DeclaredFee(policy, quantity) <= value
  {
    var each := price + policy.costs.feePerShare;
    FloorDivideBounds(value - policy.costs.feePerOrder, each);
    ValueOfMore(quantity, SharesForTotalCost(policy, value, price), each);
    assert Value(quantity, each) == Value(quantity, price) + Value(quantity, policy.costs.feePerShare);
  }

  lemma {:induction false} SharesFitValue(value: real, price: real, quantity: int)
    requires price > 0.0 && 0 < quantity <= SharesForValue(value, price)
    ensures value > 0.0 && Value(quantity, price) <= value
  {
    FloorDivideBounds(value, price);
    ValueOfMore(quantity, FloorDivide(value, price), price);
  }

  /** Everything the sizing guarantees about an approved quantity, for any prior holding. */
  lemma {:induction false} SizingGuarantees(policy: RiskPolicy, intent: OrderIntent, book: Book, equity: real, quantity: int)
    requires ValidPolicy(policy) && intent.referencePrice > 0.0
    requires 0 < quantity <= ApprovedBuy(policy, intent, book, equity)
    ensures var price := ConservativePrice(policy, intent.referencePrice);
            var spend := Value(quantity, price) + DeclaredFee(policy, quantity);
            && spend <= policy.limits.maxOrderNotional
            && spend <= SpendableCash(policy, book, equity)
            && Value(Held(book.positions, intent.symbol).quantity + quantity, price)
                 <= Portion(equity, policy.limits.maxPositionFraction)
  {
    var price := ConservativePrice(policy, intent.referencePrice);
    PriceIsPositive(policy, intent.referencePrice);
    SharesFit(policy, policy.limits.maxOrderNotional, price, quantity);
    SharesFit(policy, SpendableCash(policy, book, equity), price, quantity);
    SharesFitValue(PositionRoom(policy, book, intent.symbol, equity, price), price, quantity);
    ValueAdds(Held(book.positions, intent.symbol).quantity, quantity, price);
  }

  /** An approved buy that executes within the bound is accepted by the portfolio and keeps the order
      commitment, whatever the portfolio held before. */
  lemma {:induction false} ApprovedBuyIsAccepted(policy: RiskPolicy, risk: RiskState, intent: OrderIntent, book: Book,
                              point: EquityPoint, fill: Fill)
    requires ValidPolicy(policy) && intent.referencePrice > 0.0 && intent.side.Buy?
    requires PositionsOk(book) && book.cash >= 0.0
    requires Evaluation(policy, risk, intent, book, point).1.allowed
    requires WithinBound(policy, intent, Evaluation(policy, risk, intent, book, point).1.approvedQuantity, fill)
    ensures Apply(book, fill) == (Bought(book, fill), None)
    ensures !CommitmentTrips(policy, fill)
  {
    SizingGuarantees(policy, intent, book, point.equity, fill.quantity);
    ValueMonotone(fill.quantity, fill.price, ConservativePrice(policy, intent.referencePrice));
    PortionNonNegative(point.equity, policy.limits.minCashReserveFraction);
    AcceptedExactly(book, fill);
  }

  /** Bought into a flat portfolio, such a fill keeps the cash reserve. */
  lemma {:induction false} ApprovedBuyFromFlatKeepsReserve(policy: RiskPolicy, risk: RiskState, intent: OrderIntent, book: Book,
                                        event: MarketEvent, fill: Fill)
    requires ValidPolicy(policy) && intent.referencePrice > 0.0 && intent.side.Buy?
    requires PositionsOk(book) && book.cash >= 0.0
    requires event.symbol == intent.symbol && Held(book.positions, intent.symbol).quantity == 0
    requires Evaluation(policy, risk, intent, book, Mark(book, event)).1.allowed
    requires WithinBound(policy, intent, Evaluation(policy, risk, intent, book, Mark(book, event)).1.approvedQuantity, fill)
    ensures !ReserveTrips(policy, Bought(book, fill), fill)
  {
    assert Mark(book, event).equity == book.cash;
    SizingGuarantees(policy, intent, book, book.cash, fill.quantity);
    ValueMonotone(fill.quantity, fill.price, ConservativePrice(policy, intent.referencePrice));
    RecheckedPosition(book, fill);
    assert Value(0, fill.price) == 0.0;
    PortionMonotone(book.cash - fill.fee, book.cash, policy.limits.minCashReserveFraction);
    SpentFromSpendable(policy, book, fill);
  }

  lemma {:induction false} SpentFromSpendable(policy: RiskPolicy, book: Book, fill: Fill)
    requires ValidFill(fill) && PositionsOk(book) && fill.GrossNotional() + fill.fee <= SpendableCash(policy, book, book.cash)
    ensures Bought(book, fill).cash >= Portion(book.cash, policy.limits.minCashReserveFraction)
  {
    assert fill.GrossNotional() > 0.0;
  }

  /** The position value and equity of the recheck, in terms of the book before the fill. */
  lemma {:induction false} RecheckedPosition(book: Book, fill: Fill)
    requires PositionsOk(book) && ValidFill(fill) && fill.side.Buy?
    ensures var held := Held(book.positions, fill.symbol).quantity;
            && PositionValue(Bought(book, fill), fill) == Value(held + fill.quantity, fill.price)
            && Bought(book, fill).cash + PositionValue(Bought(book, fill), fill)
                 == book.cash - fill.fee + Value(held, fill.price)
  {
    var held := Held(book.positions, fill.symbol).quantity;
    ValueAdds(held, fill.quantity, fill.price);
    assert Held(Bought(book, fill).positions, fill.symbol).quantity == held + fill.quantity;
  }

  /** The ratio test of the recheck without the division. */
  lemma {:induction false} PositionTripsExactly(policy: RiskPolicy, book: Book, fill: Fill)
    requires PositionsOk(book) && ValidFill(fill) && fill.side.Buy?
    ensures var held := Held(book.positions, fill.symbol).quantity;
            var equity := book.cash - fill.fee + Value(held, fill.price);
            PositionTrips(policy, Bought(book, fill), fill) <==>
            equity > 0.0 && Value(held + fill.quantity, fill.price) > Portion(equity, policy.limits.maxPositionFraction)
  {
    RecheckedPosition(book, fill);
    var value := PositionValue(Bought(book, fill), fill);
    var equity := Bought(book, fill).cash + value;
    if equity > 0.0 { RatioAbove(value, equity, policy.limits.maxPositionFraction); }
  }

  lemma {:induction false} RatioAbove(value: real, equity: real, fraction: real)
    requires equity > 0.0
    ensures value / equity > fraction <==> value > Portion(equity, fraction)
  {
    var ratio := value / equity;
    assert ratio * equity == value;
    if ratio > fraction { ScaleStrict(fraction, ratio, equity); } else { ScaleOrder(ratio, fraction, equity); }
  }

  /** Without fees an approved buy within the bound never trips the position limit, for any prior holding. */
  lemma {:induction false} ApprovedBuyWithoutFeesKeepsPosition(policy: RiskPolicy, risk: RiskState, intent: OrderIntent, book: Book,
                                            event: MarketEvent, fill: Fill)
    requires ValidPolicy(policy) && intent.referencePrice > 0.0 && intent.side.Buy?
    requires PositionsOk(book) && book.cash >= 0.0
    requires event.symbol == intent.symbol && event.close == intent.referencePrice
    requires Evaluation(policy, risk, intent, book, Mark(book, event)).1.allowed
    requires WithinBound(policy, intent, Evaluation(policy, risk, intent, book, Mark(book, event)).1.approvedQuantity, fill)
    requires fill.fee == 0.0
    ensures !PositionTrips(policy, Bought(book, fill), fill)
  {
    var price := ConservativePrice(policy, intent.referencePrice);
    var held := Held(book.positions, intent.symbol).quantity;
    PriceIsPositive(policy, intent.referencePrice);
    SizingGuarantees(policy, intent, book, Mark(book, event).equity, fill.quantity);
    PositionTripsExactly(policy, book, fill);
    ValueMonotone(held, event.close, price);
    PortionMonotone(Mark(book, event).equity, book.cash + Value(held, price), policy.limits.maxPositionFraction);
    LowerPriceFits(held, fill.quantity, fill.price, price, book.cash, book.cash, policy.limits.maxPositionFraction);
  }

  /** Sizing that fits at the highest price and the least cash fits at every lower price and with more cash. */
  lemma {:induction false} LowerPriceFits(held: int, bought: int, price: real, bound: real, cash: real, least: real, fraction: real)
    requires held >= 0 && bought > 0 && 0.0 < price <= bound && least <= cash && 0.0 < fraction < 1.0
    requires Value(held + bought, bound) <= Portion(least + Value(held, bound), fraction)
    ensures Value(held + bought, price) <= Portion(cash + Value(held, price), fraction)
  {
    var slope := (held + bought) as real - fraction * held as real;
    assert slope >= 0.0 by { ScaleOrder(fraction, 1.0, held as real); }
    PriceSlope(held, bought, bound, least, fraction);
    PriceSlope(held, bought, price, cash, fraction);
    ScaleOrder(price, bound, slope);
    ScaleOrder(least, cash, fraction);
  }

  /** The position limit as one linear condition on the price. */
  lemma {:induction false} PriceSlope(held: int, bought: int, price: real, cash: real, fraction: real)
    ensures Value(held + bought, price) <= Portion(cash + Value(held, price), fraction) <==>
            price * ((held + bought) as real - fraction * held as real) <= cash * fraction
  {
    var h := held as real;
    assert Portion(cash + Value(held, price), fraction) == cash * fraction + price * h * fraction;
    assert price * (fraction * h) == price * h * fraction;
    assert price * ((held + bought) as real - fraction * h) == price * (held + bought) as real - price * (fraction * h);
  }

  /** With fees the claim is false, and this is exactly when every fill within the bound is safe: when the
      worst fill, at the conservative price with the declared fee, is. It can be checked before the order. */
  lemma {:induction false} PositionSafeExactly(policy: RiskPolicy, intent: OrderIntent, book: Book, quantity: int)
    requires ValidPolicy(policy) && intent.referencePrice > 0.0
    requires PositionsOk(book) && quantity > 0
    requires book.cash > DeclaredFee(policy, quantity)
    ensures (forall fill: Fill :: WithinBound(policy, intent, quantity, fill) ==>
                                  !PositionTrips(policy, Bought(book, fill), fill)) <==>
            WorstFillFits(policy, intent, book, quantity)
  {
    var price, held := ConservativePrice(policy, intent.referencePrice), Held(book.positions, intent.symbol).quantity;
    PriceIsPositive(policy, intent.referencePrice);
    var worst := Fill(OrderId(intent.id, quantity), intent.timestamp, intent.symbol, Buy, quantity, price,
                      DeclaredFee(policy, quantity));
    ValueMonotone(quantity, 0.0, policy.costs.feePerShare);
    assert WithinBound(policy, intent, quantity, worst);
    PositionTripsExactly(policy, book, worst);
    ValueMonotone(held, 0.0, price);
    if WorstFillFits(policy, intent, book, quantity) {
      forall fill: Fill | WithinBound(policy, intent, quantity, fill)
        ensures !PositionTrips(policy, Bought(book, fill), fill)
      {
        PositionTripsExactly(policy, book, fill);
        LowerPriceFits(held, quantity, fill.price, price, book.cash - fill.fee,
                       book.cash - DeclaredFee(policy, quantity), policy.limits.maxPositionFraction);
      }
    } else {
      assert PositionTrips(policy, Bought(book, worst), worst);
    }
  }

  ghost predicate WorstFillFits(policy: RiskPolicy, intent: OrderIntent, book: Book, quantity: int) {
    var price := ConservativePrice(policy, intent.referencePrice);
    var held := Held(book.positions, intent.symbol).quantity;
    Value(held + quantity, price)
      <= Portion(book.cash - DeclaredFee(policy, quantity) + Value(held, price), policy.limits.maxPositionFraction)
  }

  // ----- the reserve, for any prior holding -----

  /** The reserve test of the recheck, in terms of the book before the fill. */
  lemma {:induction false} ReserveTripsExactly(policy: RiskPolicy, book: Book, fill: Fill)
    requires PositionsOk(book) && ValidFill(fill) && fill.side.Buy?
    ensures var held := Held(book.positions, fill.symbol).quantity;
            ReserveTrips(policy, Bought(book, fill), fill) <==>
            book.cash - Value(fill.quantity, fill.price) - fill.fee
              < Portion(book.cash - fill.fee + Value(held, fill.price), policy.limits.minCashReserveFraction)
  {
    RecheckedPosition(book, fill);
  }

  /** A reserve kept at the highest price and fee is kept at every lower one. */
  lemma {:induction false} LowerCostKeepsReserve(cash: real, held: int, bought: int, price: real, bound: real, fee: real, most: real, fraction: real)
    requires held >= 0 && bought > 0 && 0.0 < price <= bound && fee <= most && 0.0 < fraction < 1.0
    requires cash - Value(bought, bound) - most >= Portion(cash - most + Value(held, bound), fraction)
    ensures cash - Value(bought, price) - fee >= Portion(cash - fee + Value(held, price), fraction)
  {
    ValueMonotone(bought, price, bound);
    ValueMonotone(held, price, bound);
    var saved := most - fee;
    ScaleOrder(fraction, 1.0, saved);
    PortionMonotone(cash - most + Value(held, price), cash - most + Value(held, bound), fraction);
    PortionAdds(cash - most + Value(held, price), saved, fraction);
  }

  lemma {:induction false} PortionAdds(a: real, b: real, fraction: real)
    ensures Portion(a + b, fraction) == Portion(a, fraction) + b * fraction
  {
  }

  ghost predicate WorstFillKeepsReserve(policy: RiskPolicy, intent: OrderIntent, book: Book, quantity: int) {
    var price, fee := ConservativePrice(policy, intent.referencePrice), DeclaredFee(policy, quantity);
    var held := Held(book.positions, intent.symbol).quantity;
    book.cash - Value(quantity, price) - fee
      >= Portion(book.cash - fee + Value(held, price), policy.limits.minCashReserveFraction)
  }

  /** The fill at the conservative price with the declared fee. */
  function WorstFill(policy: RiskPolicy, intent: OrderIntent, quantity: int): Fill {
    Fill(OrderId(intent.id, quantity), intent.timestamp, intent.symbol, Buy, quantity,
         ConservativePrice(policy, intent.referencePrice), DeclaredFee(policy, quantity))
  }

  lemma {:induction false} WorstFillIsWithinBound(policy: RiskPolicy, intent: OrderIntent, quantity: int)
    requires ValidPolicy(policy) && intent.referencePrice > 0.0 && quantity > 0
    ensures WithinBound(policy, intent, quantity, WorstFill(policy, intent, quantity))
  {
    PriceIsPositive(policy, intent.referencePrice);
    ValueMonotone(quantity, 0.0, policy.costs.feePerShare);
  }

  /** Whatever was held: every fill within the bound keeps the cash reserve exactly when the worst one does. */
  lemma {:induction false} ReserveSafeExactly(policy: RiskPolicy, intent: OrderIntent, book: Book, quantity: int)
    requires ValidPolicy(policy) && intent.referencePrice > 0.0
    requires PositionsOk(book) && quantity > 0
    ensures (forall fill: Fill :: WithinBound(policy, intent, quantity, fill) ==>
                                  !ReserveTrips(policy, Bought(book, fill), fill)) <==>
            WorstFillKeepsReserve(policy, intent, book, quantity)
  {
    var worst, held := WorstFill(policy, intent, quantity), Held(book.positions, intent.symbol).quantity;
    WorstFillIsWithinBound(policy, intent, quantity);
    ReserveTripsExactly(policy, book, worst);
    if WorstFillKeepsReserve(policy, intent, book, quantity) {
      forall fill: Fill | WithinBound(policy, intent, quantity, fill)
        ensures !ReserveTrips(policy, Bought(book, fill), fill)
      {
        ReserveTripsExactly(policy, book, fill);
        LowerCostKeepsReserve(book.cash, held, quantity, fill.price, worst.price, fill.fee, worst.fee,
                              policy.limits.minCashReserveFraction);
      }
    } else {
      assert ReserveTrips(policy, Bought(book, worst), worst);
    }
  }

  /** 20 shares held and 244 in cash: an approved buy of 2 at 10 with 1000 basis points of slippage fills at its
      bound of 11, keeps the position limit, and breaks a reserve of one half. */
  lemma {:induction false} FillWithinBoundBreaksReserve(timestamp: int)
    ensures var policy := RiskPolicy(RiskLimits(0.9, 1000.0, 0.5, 0.9, 1000.0), CostModel(1000.0, 0.0, 0.0, 0.0));
            var book := Book(444.0, 244.0, map["DEMO" := Position(20, 10.0)], 0.0, 0.0);
            var event := MarketEvent(timestamp, "DEMO", 10.0, 10.0);
            var id := IntentId(timestamp, "DEMO", Buy, 2, 10.0);
            var intent := OrderIntent(id, timestamp, "DEMO", Buy, 2, 10.0);
            var fill := Fill(OrderId(id, 2), timestamp + 1, "DEMO", Buy, 2, 11.0, 0.0);
            && PositionsOk(book)
            && Evaluation(policy, Fresh, intent, book, Mark(book, event)).1.allowed
            && WithinBound(policy, intent, Evaluation(policy, Fresh, intent, book, Mark(book, event)).1.approvedQuantity, fill)
            && !PositionTrips(policy, Bought(book, fill), fill) && ReserveTrips(policy, Bought(book, fill), fill)
  {
    var policy := RiskPolicy(RiskLimits(0.9, 1000.0, 0.5, 0.9, 1000.0), CostModel(1000.0, 0.0, 0.0, 0.0));
    var book := Book(444.0, 244.0, map["DEMO" := Position(20, 10.0)], 0.0, 0.0);
    var id := IntentId(timestamp, "DEMO", Buy, 2, 10.0);
    var intent := OrderIntent(id, timestamp, "DEMO", Buy, 2, 10.0);
    assert ConservativePrice(policy, 10.0) == 11.0;
    assert SharesForTotalCost(policy, 1000.0, 11.0) == 90;
    assert SharesForValue(0.9 * 444.0 - 220.0, 11.0) == 16;
    assert SharesForTotalCost(policy, 22.0, 11.0) == 2;
    assert ApprovedBuy(policy, intent, book, 444.0) == 2;
  }

  /** The recheck of an executed buy, all its tests together. */
  lemma {:induction false} NoHaltMeansNoTrip(policy: RiskPolicy, risk: RiskState, book: Book, fill: Fill)
    requires ValidPolicy(policy) && PositionsOk(book) && ValidFill(fill) && fill.side.Buy? && !risk.halted
    requires fill.GrossNotional() + fill.fee <= book.cash
    ensures !AfterFill(policy, risk, Bought(book, fill), fill).halted <==>
            && !CommitmentTrips(policy, fill) && !PositionTrips(policy, Bought(book, fill), fill)
            && !ReserveTrips(policy, Bought(book, fill), fill)
  {
    RecheckedPosition(book, fill);
    var held := Held(book.positions, fill.symbol).quantity;
    ValueAdds(held, fill.quantity, fill.price);
    ValueMonotone(held, 0.0, fill.price);
    assert fill.GrossNotional() > 0.0;
  }

  /** An approved buy never halts the run, whatever its fill within the bound, exactly when its worst fill keeps
      both the position limit and the reserve. Both can be computed before the order is sent. */
  lemma {:induction false} ApprovedBuyNeverHaltsExactly(policy: RiskPolicy, risk: RiskState, intent: OrderIntent, book: Book, point: EquityPoint,
                                     before: RiskState)
    requires ValidPolicy(policy) && intent.referencePrice > 0.0 && intent.side.Buy?
    requires PositionsOk(book) && book.cash >= 0.0 && !before.halted
    requires Evaluation(policy, risk, intent, book, point).1.allowed
    ensures var quantity := Evaluation(policy, risk, intent, book, point).1.approvedQuantity;
            (forall fill: Fill :: WithinBound(policy, intent, quantity, fill) ==>
                                  !AfterFill(policy, before, Bought(book, fill), fill).halted) <==>
            WorstFillFits(policy, intent, book, quantity) && WorstFillKeepsReserve(policy, intent, book, quantity)
  {
    var quantity := Evaluation(policy, risk, intent, book, point).1.approvedQuantity;
    DeclaredFeeIsCovered(policy, intent, book, point.equity, quantity);
    PositionSafeExactly(policy, intent, book, quantity);
    ReserveSafeExactly(policy, intent, book, quantity);
    forall fill: Fill | WithinBound(policy, intent, quantity, fill)
      ensures !AfterFill(policy, before, Bought(book, fill), fill).halted <==>
              !PositionTrips(policy, Bought(book, fill), fill) && !ReserveTrips(policy, Bought(book, fill), fill)
    {
      ApprovedBuyIsAccepted(policy, risk, intent, book, point, fill);
      AcceptedExactly(book, fill);
      NoHaltMeansNoTrip(policy, before, book, fill);
    }
    NeitherTrips(policy, intent, book, quantity);
  }

  /** Each limit is broken by some fill exactly when the worst one breaks it, so the two can be judged together. */
  lemma {:induction false} NeitherTrips(policy: RiskPolicy, intent: OrderIntent, book: Book, quantity: int)
    requires ValidPolicy(policy) && intent.referencePrice > 0.0
    requires PositionsOk(book) && quantity > 0 && book.cash > DeclaredFee(policy, quantity)
    ensures (forall fill: Fill :: WithinBound(policy, intent, quantity, fill) ==>
               !PositionTrips(policy, Bought(book, fill), fill) && !ReserveTrips(policy, Bought(book, fill), fill)) <==>
            WorstFillFits(policy, intent, book, quantity) && WorstFillKeepsReserve(policy, intent, book, quantity)
  {
    PositionSafeExactly(policy, intent, book, quantity);
    ReserveSafeExactly(policy, intent, book, quantity);
  }

  /** What was approved costs more than its fee alone, and cash covers it. */
  lemma {:induction false} DeclaredFeeIsCovered(policy: RiskPolicy, intent: OrderIntent, book: Book, equity: real, quantity: int)
    requires ValidPolicy(policy) && intent.referencePrice > 0.0
    requires 0 < quantity <= ApprovedBuy(policy, intent, book, equity) && book.cash >= 0.0
    ensures DeclaredFee(policy, quantity) < SpendableCash(policy, book, equity)
    ensures equity >= 0.0 ==> DeclaredFee(policy, quantity) < book.cash
  {
    PriceIsPositive(policy, intent.referencePrice);
    SizingGuarantees(policy, intent, book, equity, quantity);
    assert Value(quantity, ConservativePrice(policy, intent.referencePrice)) > 0.0;
    if equity >= 0.0 { PortionNonNegative(equity, policy.limits.minCashReserveFraction); }
  }

  /** An approved first buy of 5 at 10 with a fixed fee of 10 against a 50% limit: the fill stays within the
      bound and still halts the run. */
  lemma {:induction false} FeeTripsPositionLimit(timestamp: int)
    ensures var policy := RiskPolicy(RiskLimits(0.5, 1000.0, 0.1, 0.5, 50.0), CostModel(0.0, 0.0, 10.0, 0.0));
            var book := NewBook(100.0);
            var event := MarketEvent(timestamp, "DEMO", 10.0, 10.0);
            var id := IntentId(timestamp, "DEMO", Buy, 5, 10.0);
            var intent := OrderIntent(id, timestamp, "DEMO", Buy, 5, 10.0);
            var fill := Fill(OrderId(id, 5), timestamp + 1, "DEMO", Buy, 5, 10.0, 10.0);
            && Evaluation(policy, Fresh, intent, book, Mark(book, event)).1.allowed
            && WithinBound(policy, intent, Evaluation(policy, Fresh, intent, book, Mark(book, event)).1.approvedQuantity, fill)
            && PositionTrips(policy, Bought(book, fill), fill)
  {
    var policy := RiskPolicy(RiskLimits(0.5, 1000.0, 0.1, 0.5, 50.0), CostModel(0.0, 0.0, 10.0, 0.0));
    var book := NewBook(100.0);
    var id := IntentId(timestamp, "DEMO", Buy, 5, 10.0);
    var intent := OrderIntent(id, timestamp, "DEMO", Buy, 5, 10.0);
    assert ConservativePrice(policy, 10.0) == 10.0;
    assert SharesForTotalCost(policy, 1000.0, 10.0) == 99;
    assert SharesForValue(50.0, 10.0) == 5;
    assert SharesForTotalCost(policy, 90.0, 10.0) == 8;
    assert ApprovedBuy(policy, intent, book, 100.0) == 5;
  }

  /** Before rounding, the declared buffer covers every next open up to `reference * (1 + buffer)` exactly when
      slippage or buffer is zero: the bound adds the two, the fill multiplies them. */
  lemma {:induction false} UnroundedBoundCoversExactly(policy: RiskPolicy, referencePrice: real)
    requires ValidPolicy(policy) && referencePrice > 0.0
    ensures (forall open: real :: 0.0 < open <= BufferedOpen(policy, referencePrice) ==>
                                  SlippedPrice(policy, open) <= ConservativePrice(policy, referencePrice)) <==>
            (policy.costs.slippageBps == 0.0 || policy.costs.bufferBps == 0.0)
  {
    var s, b := policy.costs.slippageBps / BASIS_POINTS, policy.costs.bufferBps / BASIS_POINTS;
    var top := BufferedOpen(policy, referencePrice);
    assert s >= 0.0 && b >= 0.0;
    assert top == referencePrice + referencePrice * b;
    ScaleOrder(0.0, b, referencePrice);
    assert top > 0.0;
    assert SlippedPrice(policy, top) == top + top * s;
    assert ConservativePrice(policy, referencePrice) == referencePrice + referencePrice * s + referencePrice * b;
    CrossTerm(referencePrice, s, b);
    forall open: real | 0.0 < open <= top
      ensures SlippedPrice(policy, open) <= SlippedPrice(policy, top)
    {
      ScaleOrder(open, top, 1.0 + s);
      assert SlippedPrice(policy, open) == open * (1.0 + s);
      assert SlippedPrice(policy, top) == top * (1.0 + s);
    }
  }

  lemma {:induction false} CrossTerm(reference: real, s: real, b: real)
    requires reference > 0.0 && s >= 0.0 && b >= 0.0
    ensures var top := reference + reference * b;
            top + top * s <= reference + reference * s + reference * b <==> s == 0.0 || b == 0.0
  {
    var top := reference + reference * b;
    var cross := reference * b * s;
    assert top * s == reference * s + cross;
    if s > 0.0 && b > 0.0 {
      ScaleStrict(0.0, b, reference);
      ScaleStrict(0.0, reference * b, s);
    }
  }

  function BufferedOpen(policy: RiskPolicy, referencePrice: real): real {
    referencePrice * (1.0 + policy.costs.bufferBps / BASIS_POINTS)
  }

  /** What a given slippage in basis points moves one share's price by. */
  function Slippage(open: real, basisPoints: real): real {
    open * basisPoints / BASIS_POINTS
  }

  /** A buy's fill price before rounding to six places. */
  function SlippedPrice(policy: RiskPolicy, open: real): real {
    open + Slippage(open, policy.costs.slippageBps)
  }

  class RiskManager {
    const policy: RiskPolicy
    var peakEquity: real
    var halted: bool
    var haltReason: Option<HaltReason>
    var seenIntents: set<IntentId>

    function View(): RiskState
      reads this
    {
      RiskState(peakEquity, halted, haltReason, seenIntents)
    }

    constructor (policy: RiskPolicy)
      requires ValidPolicy(policy)
      ensures View() == Fresh && this.policy == policy
    {
      this.policy := policy;
      peakEquity := 0.0;
      halted := false;
      haltReason := None;
      seenIntents := {};
    }

    method Halt(reason: HaltReason)
      modifies this`halted, this`haltReason
      ensures View() == AfterHalt(old(View()), reason)
    {
      if !halted {
        halted := true;
        haltReason := Some(reason);
      }
    }

    method Observe(portfolio: Portfolio, point: EquityPoint)
      modifies this`peakEquity, this`halted, this`haltReason
      ensures View() == AfterObserve(policy, old(View()), portfolio.View(), point)
    {
      peakEquity := MaxReal(peakEquity, point.equity);
      var netRealizedPnl := portfolio.realizedPnl - portfolio.totalFees;
      if point.equity <= 0.0 {
        Halt(NonPositiveEquity);
      } else if netRealizedPnl <= -policy.limits.maxRealizedLoss {
        Halt(MaximumRealizedLoss);
      } else if peakEquity > 0.0 {
        var drawdown := (peakEquity - point.equity) / peakEquity;
        if drawdown >= policy.limits.maxDrawdownFraction {
          Halt(MaximumDrawdown);
        }
      }
    }

    method ObserveFill(fill: Fill, portfolio: Portfolio)
      modifies this`halted, this`haltReason
      ensures View() == AfterFill(policy, old(View()), portfolio.View(), fill)
    {
      if fill.side.Sell? {
        return;
      }
      if fill.GrossNotional() + fill.fee > policy.limits.maxOrderNotional {
        Halt(PostFillOrderCommitment);
      }
      var positionValue := PositionValue(portfolio.View(), fill);
      if positionValue <= 0.0 {
        return;
      }
      var equityAtFill := portfolio.cash + positionValue;
      if equityAtFill <= 0.0 {
        Halt(PostFillNonPositiveEquity);
        return;
      }
      if positionValue / equityAtFill > policy.limits.maxPositionFraction {
        Halt(PostFillPositionLimit);
      }
      if portfolio.cash < Portion(equityAtFill, policy.limits.minCashReserveFraction) {
        Halt(PostFillCashReserve);
      }
    }

    method Evaluate(intent: OrderIntent, portfolio: Portfolio, point: EquityPoint) returns (decision: RiskDecision)
      requires ValidPolicy(policy) && intent.referencePrice > 0.0
      modifies this
      ensures (View(), decision) == Evaluation(policy, old(View()), intent, portfolio.View(), point)
    {
      if intent.id in seenIntents {
        return Deny(intent, DuplicateIntent);
      }
      seenIntents := seenIntents + {intent.id};
      Observe(portfolio, point);
      if intent.side.Sell? {
        var approvedExit := MinInt(intent.quantity, portfolio.PositionQuantity(intent.symbol));
        if approvedExit <= 0 {
          return Deny(intent, NoPositionToReduce);
        }
        return RiskDecision(true, if halted then ApprovedExit else Approved(false, false), approvedExit, intent.id);
      }
      if halted {
        return Deny(intent, EmergencyHalt(haltReason));
      }
      var approved := ApprovedBuy(policy, intent, portfolio.View(), point.equity);
      if approved <= 0 {
        return Deny(intent, ReducedToZero);
      }
      return RiskDecision(true, Approved(UsesConservativeAssumptions(policy), approved != intent.quantity),
                          approved, intent.id);
    }
  }
}
