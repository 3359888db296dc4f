/** The pre-trade controls of one external order: every check, and what the amounts they compare protect. */
module MarketControls {
  import opened Prelude
  import opened Portfolio
  import opened Brokerage
  import opened Sums

  datatype AssetSnapshot = AssetSnapshot(symbol: string, isUsEquity: bool, active: bool, tradable: bool, capturedAt: int)

  datatype QuoteSnapshot = QuoteSnapshot(symbol: string, bid: real, ask: real, timestamp: int)

  datatype ClockSnapshot = ClockSnapshot(isOpen: bool, timestamp: int, nextClose: int)

  datatype CalendarDay = CalendarDay(tradeDate: int, regularOpen: int, regularClose: int)

  datatype ControlLimits = ControlLimits(
    maxQuoteAge: int, maxFutureSkew: int, maxClockAge: int, maxAccountAge: int, maxPositionAge: int, maxAssetAge: int,
    maxReconciliationAge: int, maxSpreadBps: real, maxOrdersPerWindow: nat, orderWindow: int, maxOrdersPerSession: nat,
    maxOpenOwnedOrders: nat, maxOrderNotional: real, maxGrossFraction: real, maxSymbolFraction: real,
    minimumCashReserve: real, minimumCashFraction: real)

  const CloseTolerance: int := 60

  /** Everything read just before a submission; `localDate` is the exchange's calendar date at `now`. */
  datatype PretradeState = PretradeState(
    now: int, localDate: int, namespace: string, prefix: string, account: AccountSnapshot, clock: ClockSnapshot,
    calendar: CalendarDay, asset: AssetSnapshot, quote: QuoteSnapshot, order: ApprovedOrder,
    positions: seq<PositionSnapshot>, openOrders: seq<OrderSnapshot>, submissionTimestamps: seq<int>,
    reconciliationReady: bool, reconciliationTimestamp: int)

  predicate ValidState(state: PretradeState) {
    && 0.0 < state.quote.bid <= state.quote.ask && ValidApproved(state.order)
    && forall i :: 0 <= i < |state.openOrders| ==> ValidOrder(state.openOrders[i])
  }

  datatype Reason =
    | ReconciliationNotReady | ReconciliationStale | ReconciliationFromFuture | AccountNotPermitted | AccountStale
    | AccountFromFuture | AccountFingerprintMismatch | StrategyNamespaceMismatch
    | ClockFromFuture | ClockStale | BrokerClockClosed | CalendarDateMismatch | ClockCalendarCloseMismatch
    | OutsideRegularSession | SymbolSnapshotMismatch | AssetNotEligible | AssetStale | AssetFromFuture | QuoteStale
    | QuoteFromFuture | SpreadTooWide
    | LimitOrderRequired | DayTimeInForceRequired | ExtendedHoursDisabled | OrderNotionalLimit
    | ForeignOpenOrder | OpenOrderPriceUnknown | OpenOrderLimit | BuyingPowerLimit
    | PositionStale | PositionFromFuture | ShortOrNegativePosition | SellExceedsPosition
    | GrossExposureLimit | SymbolExposureLimit | CashReserveLimit
    | SubmissionTimestampFromFuture | OrderRateLimit | SessionOrderLimit

  datatype Decision = Decision(allowed: bool, reasons: seq<Reason>, candidateNotional: real, committedNotional: real,
                               projectedGross: real, projectedSymbol: real, projectedCash: real,
                               recentCount: nat, sessionCount: nat)

  // ----- amounts -----

  function Cost(quantity: real, price: real): real { quantity * price }

  function Share(equity: real, fraction: real): real { equity * fraction }

  lemma {:induction false} CostMonotone(q: real, q': real, p: real, p': real)
    requires 0.0 <= q <= q' && 0.0 <= p <= p'
    ensures 0.0 <= Cost(q, p) <= Cost(q', p')
  {
    assert q * p <= q' * p;
    assert q' * p <= q' * p';
  }

  function Apart(a: int, b: int): int { if a >= b then a - b else b - a }

  function SpreadBps(quote: QuoteSnapshot): real
    requires quote.bid > 0.0 && quote.ask > 0.0
  {
    (quote.ask - quote.bid) / ((quote.bid + quote.ask) / 2.0) * 10000.0
  }

  function CandidatePrice(order: ApprovedOrder, quote: QuoteSnapshot): real {
    var touch := if order.side == Buy then quote.ask else quote.bid;
    match order.limitPrice
    case None => touch
    case Some(limit) => if order.side == Buy then MaxReal(touch, limit) else MinReal(touch, limit)
  }

  function CandidateNotional(state: PretradeState): real {
    Cost(state.order.quantity as real, CandidatePrice(state.order, state.quote))
  }

  predicate OwnedOpen(order: OrderSnapshot, prefix: string) {
    !order.status.Terminal() && Owned(order.clientId, prefix)
  }

  predicate OwnedOpenBuy(order: OrderSnapshot, prefix: string) {
    OwnedOpen(order, prefix) && order.side == Buy
  }

  function PriceOf(order: OrderSnapshot): Option<real> {
    if order.limitPrice.Some? then order.limitPrice else order.averagePrice
  }

  /** The cash one open order may still take. */
  function Committed(order: OrderSnapshot, prefix: string): real {
    if !OwnedOpenBuy(order, prefix) || PriceOf(order).None? then 0.0 else Cost(order.Remaining(), PriceOf(order).value)
  }

  function CommittedNotional(orders: seq<OrderSnapshot>, prefix: string): real {
    if orders == [] then 0.0
    else CommittedNotional(orders[..|orders| - 1], prefix) + Committed(orders[|orders| - 1], prefix)
  }

  function OwnedOpenCount(orders: seq<OrderSnapshot>, prefix: string): nat {
    if orders == [] then 0
    else OwnedOpenCount(orders[..|orders| - 1], prefix) + (if OwnedOpen(orders[|orders| - 1], prefix) then 1 else 0)
  }

  function Gross(positions: seq<PositionSnapshot>): real {
    if positions == [] then 0.0 else Gross(positions[..|positions| - 1]) + AbsReal(positions[|positions| - 1].marketValue)
  }

  function SymbolValue(positions: seq<PositionSnapshot>, symbol: string): real {
    if positions == [] then 0.0
    else
      var last := positions[|positions| - 1];
      SymbolValue(positions[..|positions| - 1], symbol) + (if last.symbol == symbol then AbsReal(last.marketValue) else 0.0)
  }

  function SymbolQuantity(positions: seq<PositionSnapshot>, symbol: string): real {
    if positions == [] then 0.0
    else
      var last := positions[|positions| - 1];
      SymbolQuantity(positions[..|positions| - 1], symbol) + (if last.symbol == symbol then last.quantity else 0.0)
  }

  function OrderDelta(state: PretradeState): real {
    if state.order.side == Buy then CandidateNotional(state) else -CandidateNotional(state)
  }

  function ProjectedGross(state: PretradeState): real {
    MaxReal(0.0, Gross(state.positions) + CommittedNotional(state.openOrders, state.prefix) + OrderDelta(state))
  }

  function ProjectedSymbol(state: PretradeState): real {
    MaxReal(0.0, SymbolValue(state.positions, state.order.symbol) + OrderDelta(state))
  }

  function ProjectedCash(state: PretradeState): real {
    state.account.cash - CommittedNotional(state.openOrders, state.prefix)
    - (if state.order.side == Buy then CandidateNotional(state) else 0.0)
  }

  function CashReserve(state: PretradeState, limits: ControlLimits): real {
    MaxReal(limits.minimumCashReserve, Share(state.account.equity, limits.minimumCashFraction))
  }

  /** Submissions in the closed window that ends now. */
  function RecentCount(timestamps: seq<int>, limits: ControlLimits, now: int): nat {
    CountIn(timestamps, now - limits.orderWindow, now)
  }

  /** Submissions in the half-open regular session. */
  function SessionCount(timestamps: seq<int>, day: CalendarDay): nat {
    CountIn(timestamps, day.regularOpen, day.regularClose - 1)
  }

  datatype Section = AccountSection | ClockSection | CalendarSection | AssetSection | QuoteSection | OrderSection | CommitmentSection
    | PositionSection | ExposureSection | RateSection

  function SectionOf(reason: Reason): Section {
    match reason
    case ReconciliationNotReady => AccountSection
    case ReconciliationStale => AccountSection
    case ReconciliationFromFuture => AccountSection
    case AccountNotPermitted => AccountSection
    case AccountStale => AccountSection
    case AccountFromFuture => AccountSection
    case AccountFingerprintMismatch => AccountSection
    case StrategyNamespaceMismatch => AccountSection
    case LimitOrderRequired => OrderSection
    case DayTimeInForceRequired => OrderSection
    case ExtendedHoursDisabled => OrderSection
    case OrderNotionalLimit => OrderSection
    case ForeignOpenOrder => CommitmentSection
    case OpenOrderPriceUnknown => CommitmentSection
    case OpenOrderLimit => CommitmentSection
    case BuyingPowerLimit => CommitmentSection
    case PositionStale => PositionSection
    case PositionFromFuture => PositionSection
    case ShortOrNegativePosition => PositionSection
    case SellExceedsPosition => PositionSection
    case GrossExposureLimit => ExposureSection
    case SymbolExposureLimit => ExposureSection
    case CashReserveLimit => ExposureSection
    case SubmissionTimestampFromFuture => RateSection
    case OrderRateLimit => RateSection
    case SessionOrderLimit => RateSection
    case SymbolSnapshotMismatch => AssetSection
    case AssetNotEligible => AssetSection
    case AssetStale => AssetSection
    case AssetFromFuture => AssetSection
    case QuoteStale => QuoteSection
    case QuoteFromFuture => QuoteSection
    case SpreadTooWide => QuoteSection
    case CalendarDateMismatch => CalendarSection
    case ClockCalendarCloseMismatch => CalendarSection
    case OutsideRegularSession => CalendarSection
    case _ => ClockSection
  }

  /** What each reason says about the state. */
  predicate Violates(state: PretradeState, limits: ControlLimits, reason: Reason)
    requires ValidState(state)
  {
    match SectionOf(reason)
    case AccountSection => AccountViolation(state, limits, reason)
    case ClockSection => ClockViolation(state, limits, reason)
    case CalendarSection => CalendarViolation(state, limits, reason)
    case AssetSection => AssetViolation(state, limits, reason)
    case QuoteSection => QuoteViolation(state, limits, reason)
    case OrderSection => OrderViolation(state, limits, reason)
    case CommitmentSection => CommitmentViolation(state, limits, reason)
    case PositionSection => PositionViolation(state, limits, reason)
    case ExposureSection => ExposureViolation(state, limits, reason)
    case RateSection => RateViolation(state, limits, reason)
  }

  predicate AccountViolation(state: PretradeState, limits: ControlLimits, reason: Reason) {
    match reason
    case ReconciliationNotReady => !state.reconciliationReady
    case ReconciliationStale => state.now - state.reconciliationTimestamp > limits.maxReconciliationAge
    case ReconciliationFromFuture => state.now - state.reconciliationTimestamp < -limits.maxFutureSkew
    case AccountNotPermitted => !state.account.PermitsNewExposure() && state.order.side == Buy
    case AccountStale => state.now - state.account.capturedAt > limits.maxAccountAge
    case AccountFromFuture => state.now - state.account.capturedAt < -limits.maxFutureSkew
    case AccountFingerprintMismatch => state.account.accountHash != state.order.accountHash
    case StrategyNamespaceMismatch => state.order.namespace != state.namespace
    case _ => false
  }

  predicate ClockViolation(state: PretradeState, limits: ControlLimits, reason: Reason) {
    var now := state.now;
    match reason
    case ClockFromFuture => state.clock.timestamp > now + limits.maxFutureSkew
    case ClockStale => state.clock.timestamp <= now + limits.maxFutureSkew && now - state.clock.timestamp > limits.maxClockAge
    case BrokerClockClosed => !state.clock.isOpen
    case _ => false
  }

  predicate CalendarViolation(state: PretradeState, limits: ControlLimits, reason: Reason) {
    var now := state.now;
    match reason
    case CalendarDateMismatch => state.calendar.tradeDate != state.localDate
    case ClockCalendarCloseMismatch =>
      Apart(state.clock.nextClose, state.calendar.regularClose) > CloseTolerance
    case OutsideRegularSession => !(state.calendar.regularOpen <= now < state.calendar.regularClose)
    case _ => false
  }

  predicate AssetViolation(state: PretradeState, limits: ControlLimits, reason: Reason) {
    var now := state.now;
    match reason
    case SymbolSnapshotMismatch => state.asset.symbol != state.order.symbol || state.quote.symbol != state.order.symbol
    case AssetNotEligible => !(state.asset.isUsEquity && state.asset.active && state.asset.tradable)
    case AssetStale => now - state.asset.capturedAt > limits.maxAssetAge
    case AssetFromFuture => now - state.asset.capturedAt < -limits.maxFutureSkew
    case _ => false
  }

  predicate QuoteViolation(state: PretradeState, limits: ControlLimits, reason: Reason)
    requires ValidState(state)
  {
    var now := state.now;
    match reason
    case QuoteStale => now - state.quote.timestamp > limits.maxQuoteAge
    case QuoteFromFuture => now - state.quote.timestamp < -limits.maxFutureSkew
    case SpreadTooWide => SpreadBps(state.quote) > limits.maxSpreadBps
    case _ => false
  }

  predicate OrderViolation(state: PretradeState, limits: ControlLimits, reason: Reason) {
    match reason
    case LimitOrderRequired => state.order.orderType != Limit || state.order.limitPrice.None?
    case DayTimeInForceRequired => state.order.timeInForce != Day
    case ExtendedHoursDisabled => state.order.extendedHours
    case OrderNotionalLimit => CandidateNotional(state) > limits.maxOrderNotional
    case _ => false
  }

  predicate CommitmentViolation(state: PretradeState, limits: ControlLimits, reason: Reason) {
    match reason
    case ForeignOpenOrder => AnyForeignOpen(state.openOrders, state.prefix)
    case OpenOrderPriceUnknown => AnyUnpriced(state.openOrders, state.prefix)
    case OpenOrderLimit => OwnedOpenCount(state.openOrders, state.prefix) >= limits.maxOpenOwnedOrders
    case BuyingPowerLimit =>
      state.order.side == Buy
      && CommittedNotional(state.openOrders, state.prefix) + CandidateNotional(state) > state.account.buyingPower
    case _ => false
  }

  predicate PositionViolation(state: PretradeState, limits: ControlLimits, reason: Reason) {
    match reason
    case PositionStale => AnyCapturedBefore(state.positions, state.now - limits.maxPositionAge)
    case PositionFromFuture => AnyCapturedAfter(state.positions, state.now + limits.maxFutureSkew)
    case ShortOrNegativePosition => AnyNegative(state.positions)
    case SellExceedsPosition => SellExceeds(state)
    case _ => false
  }

  predicate ExposureViolation(state: PretradeState, limits: ControlLimits, reason: Reason) {
    match reason
    case GrossExposureLimit => ProjectedGross(state) > Share(state.account.equity, limits.maxGrossFraction)
    case SymbolExposureLimit => ProjectedSymbol(state) > Share(state.account.equity, limits.maxSymbolFraction)
    case CashReserveLimit => state.order.side == Buy && ProjectedCash(state) < CashReserve(state, limits)
    case _ => false
  }

  predicate SellExceeds(state: PretradeState) {
    state.order.side == Sell && state.order.quantity as real > SymbolQuantity(state.positions, state.order.symbol)
  }

  predicate RateViolation(state: PretradeState, limits: ControlLimits, reason: Reason) {
    match reason
    case SubmissionTimestampFromFuture => AnyAfter(state.submissionTimestamps, state.now + limits.maxFutureSkew)
    case OrderRateLimit => RecentCount(state.submissionTimestamps, limits, state.now) >= limits.maxOrdersPerWindow
    case SessionOrderLimit => SessionCount(state.submissionTimestamps, state.calendar) >= limits.maxOrdersPerSession
    case _ => false
  }

  predicate AnyForeignOpen(orders: seq<OrderSnapshot>, prefix: string) {
    exists i :: 0 <= i < |orders| && IsForeignOpen(orders[i], prefix)
  }

  predicate AnyUnpriced(orders: seq<OrderSnapshot>, prefix: string) {
    exists i :: 0 <= i < |orders| && IsUnpriced(orders[i], prefix)
  }

  predicate AnyCapturedBefore(positions: seq<PositionSnapshot>, at: int) {
    exists i :: 0 <= i < |positions| && positions[i].capturedAt < at
  }

  predicate AnyCapturedAfter(positions: seq<PositionSnapshot>, at: int) {
    exists i :: 0 <= i < |positions| && positions[i].capturedAt > at
  }

  predicate AnyNegative(positions: seq<PositionSnapshot>) {
    exists i :: 0 <= i < |positions| && (positions[i].quantity < 0.0 || positions[i].marketValue < 0.0)
  }

  predicate AnyAfter(timestamps: seq<int>, at: int) {
    exists i :: 0 <= i < |timestamps| && timestamps[i] > at
  }

  predicate IsForeignOpen(order: OrderSnapshot, prefix: string) {
    !order.status.Terminal() && !Owned(order.clientId, prefix)
  }

  predicate IsUnpriced(order: OrderSnapshot, prefix: string) {
    OwnedOpenBuy(order, prefix) && PriceOf(order).None?
  }

  ghost predicate Permitted(state: PretradeState, limits: ControlLimits)
    requires ValidState(state)
  {
    forall reason :: !Violates(state, limits, reason)
  }

  // ----- the evaluation -----

  /** Each reason once, in the order of its first occurrence. */
  function Unique(reasons: seq<Reason>): (unique: seq<Reason>)
    ensures Distinct(unique)
    ensures forall r :: r in unique <==> r in reasons
  {
    if reasons == [] then []
    else
      var before := Unique(reasons[..|reasons| - 1]);
      var last := reasons[|reasons| - 1];
      assert reasons == reasons[..|reasons| - 1] + [last];
      if last in before then before else before + [last]
  }

  /** Every control, evaluated without a side effect: the reasons are exactly the violated controls, each once. */
  method EvaluatePaperPretrade(state: PretradeState, limits: ControlLimits) returns (decision: Decision)
    requires ValidState(state)
    ensures decision.allowed <==> Permitted(state, limits)
    ensures decision.allowed <==> decision.reasons == []
    ensures Distinct(decision.reasons) && forall r :: r in decision.reasons <==> Violates(state, limits, r)
    ensures decision.candidateNotional == CandidateNotional(state)
    ensures decision.committedNotional == CommittedNotional(state.openOrders, state.prefix)
    ensures decision.projectedGross == ProjectedGross(state) && decision.projectedSymbol == ProjectedSymbol(state)
    ensures decision.projectedCash == ProjectedCash(state)
    ensures decision.recentCount == RecentCount(state.submissionTimestamps, limits, state.now)
    ensures decision.sessionCount == SessionCount(state.submissionTimestamps, state.calendar)
  {
    var accountReasons := CheckAccount(state, limits);
    var clockReasons := CheckClock(state, limits);
    var calendarReasons := CheckCalendar(state, limits);
    var assetReasons := CheckAsset(state, limits);
    var quoteReasons := CheckQuote(state, limits);
    var orderReasons := CheckOrder(state, limits);
    var committed, owned, openReasons := OpenOrderCommitment(state.openOrders, state.prefix);
    var commitmentReasons := CheckCommitment(state, limits, committed, owned, openReasons);
    var gross, symbolValue, cash, exceeds, negative := Project(state, committed);
    var positionReasons := CheckPositions(state, limits, exceeds, negative);
    var exposureReasons := CheckExposure(state, limits, gross, symbolValue, cash);
    var rateReasons, recent, session := CheckRates(state, limits);
    var first := accountReasons + clockReasons + calendarReasons + assetReasons + quoteReasons + orderReasons;
    var second := commitmentReasons + positionReasons + exposureReasons + rateReasons;
    var unique := Unique(first + second);
    forall r ensures r in unique <==> Violates(state, limits, r) {
      assert r in first <==>
             r in accountReasons || r in clockReasons || r in calendarReasons || r in assetReasons || r in quoteReasons
             || r in orderReasons;
      assert r in second <==> r in commitmentReasons || r in positionReasons || r in exposureReasons || r in rateReasons;
    }
    assert unique != [] ==> unique[0] in unique;
    decision := Decision(unique == [], unique, CandidateNotional(state), committed, gross, symbolValue, cash, recent,
                         session);
  }

  /** The reasons so far, and one more if its control is violated. */
  method Note(reasons: seq<Reason>, violated: bool, reason: Reason) returns (noted: seq<Reason>)
    ensures forall r :: r in noted <==> r in reasons || (violated && r == reason)
  {
    noted := if violated then reasons + [reason] else reasons;
  }

  ghost predicate Explains(reasons: seq<Reason>, section: Section, state: PretradeState, limits: ControlLimits)
    requires ValidState(state)
  {
    forall r :: r in reasons <==> SectionOf(r) == section && Violates(state, limits, r)
  }

  method CheckAccount(state: PretradeState, limits: ControlLimits) returns (reasons: seq<Reason>)
    requires ValidState(state)
    ensures Explains(reasons, AccountSection, state, limits)
  {
    var reconciliationAge := state.now - state.reconciliationTimestamp;
    var accountAge := state.now - state.account.capturedAt;
    reasons := Note([], !state.reconciliationReady, ReconciliationNotReady);
    reasons := Note(reasons, reconciliationAge > limits.maxReconciliationAge, ReconciliationStale);
    reasons := Note(reasons, reconciliationAge < -limits.maxFutureSkew, ReconciliationFromFuture);
    reasons := Note(reasons, !state.account.PermitsNewExposure() && state.order.side == Buy, AccountNotPermitted);
    reasons := Note(reasons, accountAge > limits.maxAccountAge, AccountStale);
    reasons := Note(reasons, accountAge < -limits.maxFutureSkew, AccountFromFuture);
    reasons := Note(reasons, state.account.accountHash != state.order.accountHash, AccountFingerprintMismatch);
    reasons := Note(reasons, state.order.namespace != state.namespace, StrategyNamespaceMismatch);
  }

  method CheckClock(state: PretradeState, limits: ControlLimits) returns (reasons: seq<Reason>)
    requires ValidState(state)
    ensures Explains(reasons, ClockSection, state, limits)
  {
    var early := state.clock.timestamp > state.now + limits.maxFutureSkew;
    reasons := Note([], early, ClockFromFuture);
    reasons := Note(reasons, !early && state.now - state.clock.timestamp > limits.maxClockAge, ClockStale);
    reasons := Note(reasons, !state.clock.isOpen, BrokerClockClosed);
  }

  method CheckCalendar(state: PretradeState, limits: ControlLimits) returns (reasons: seq<Reason>)
    requires ValidState(state)
    ensures Explains(reasons, CalendarSection, state, limits)
  {
    var clock, calendar := state.clock, state.calendar;
    reasons := Note([], calendar.tradeDate != state.localDate, CalendarDateMismatch);
    reasons := Note(reasons, Apart(clock.nextClose, calendar.regularClose) > CloseTolerance, ClockCalendarCloseMismatch);
    reasons := Note(reasons, !(calendar.regularOpen <= state.now < calendar.regularClose), OutsideRegularSession);
  }

  method CheckAsset(state: PretradeState, limits: ControlLimits) returns (reasons: seq<Reason>)
    requires ValidState(state)
    ensures Explains(reasons, AssetSection, state, limits)
  {
    var asset := state.asset;
    var age := state.now - asset.capturedAt;
    reasons := Note([], asset.symbol != state.order.symbol || state.quote.symbol != state.order.symbol, SymbolSnapshotMismatch);
    reasons := Note(reasons, !(asset.isUsEquity && asset.active && asset.tradable), AssetNotEligible);
    reasons := Note(reasons, age > limits.maxAssetAge, AssetStale);
    reasons := Note(reasons, age < -limits.maxFutureSkew, AssetFromFuture);
  }

  method CheckQuote(state: PretradeState, limits: ControlLimits) returns (reasons: seq<Reason>)
    requires ValidState(state)
    ensures Explains(reasons, QuoteSection, state, limits)
  {
    var age := state.now - state.quote.timestamp;
    reasons := Note([], age > limits.maxQuoteAge, QuoteStale);
    reasons := Note(reasons, age < -limits.maxFutureSkew, QuoteFromFuture);
    reasons := Note(reasons, SpreadBps(state.quote) > limits.maxSpreadBps, SpreadTooWide);
  }

  method CheckOrder(state: PretradeState, limits: ControlLimits) returns (reasons: seq<Reason>)
    requires ValidState(state)
    ensures Explains(reasons, OrderSection, state, limits)
  {
    var order := state.order;
    reasons := Note([], order.orderType != Limit || order.limitPrice.None?, LimitOrderRequired);
    reasons := Note(reasons, order.timeInForce != Day, DayTimeInForceRequired);
    reasons := Note(reasons, order.extendedHours, ExtendedHoursDisabled);
    reasons := Note(reasons, CandidateNotional(state) > limits.maxOrderNotional, OrderNotionalLimit);
  }

  method CheckCommitment(state: PretradeState, limits: ControlLimits, committed: real, owned: nat, openReasons: seq<Reason>)
    returns (reasons: seq<Reason>)
    requires ValidState(state) && committed == CommittedNotional(state.openOrders, state.prefix)
    requires owned == OwnedOpenCount(state.openOrders, state.prefix)
    requires OpenOrdersExplained(openReasons, state.openOrders, state.prefix)
    ensures Explains(reasons, CommitmentSection, state, limits)
  {
    var exceeds := state.order.side == Buy && committed + CandidateNotional(state) > state.account.buyingPower;
    reasons := Note(openReasons, owned >= limits.maxOpenOwnedOrders, OpenOrderLimit);
    reasons := Note(reasons, exceeds, BuyingPowerLimit);
  }

  method CheckPositions(state: PretradeState, limits: ControlLimits, exceeds: bool, negative: bool)
    returns (reasons: seq<Reason>)
    requires ValidState(state) && exceeds == SellExceeds(state) && negative == AnyNegative(state.positions)
    ensures Explains(reasons, PositionSection, state, limits)
  {
    reasons := Note([], AnyCapturedBefore(state.positions, state.now - limits.maxPositionAge), PositionStale);
    reasons := Note(reasons, AnyCapturedAfter(state.positions, state.now + limits.maxFutureSkew), PositionFromFuture);
    reasons := Note(reasons, negative, ShortOrNegativePosition);
    reasons := Note(reasons, exceeds, Reason.SellExceedsPosition);
  }

  method CheckExposure(state: PretradeState, limits: ControlLimits, gross: real, symbolValue: real, cash: real)
    returns (reasons: seq<Reason>)
    requires ValidState(state)
    requires gross == ProjectedGross(state) && symbolValue == ProjectedSymbol(state) && cash == ProjectedCash(state)
    ensures Explains(reasons, ExposureSection, state, limits)
  {
    var equity := state.account.equity;
    reasons := Note([], gross > Share(equity, limits.maxGrossFraction), GrossExposureLimit);
    reasons := Note(reasons, symbolValue > Share(equity, limits.maxSymbolFraction), SymbolExposureLimit);
    reasons := Note(reasons, state.order.side == Buy && cash < CashReserve(state, limits), CashReserveLimit);
  }

  method Project(state: PretradeState, committed: real)
    returns (gross: real, symbolValue: real, cash: real, exceeds: bool, negative: bool)
    requires committed == CommittedNotional(state.openOrders, state.prefix)
    ensures gross == ProjectedGross(state) && symbolValue == ProjectedSymbol(state) && cash == ProjectedCash(state)
    ensures exceeds == SellExceeds(state) && negative == AnyNegative(state.positions)
  {
    var candidate, symbol := CandidateNotional(state), state.order.symbol;
    var delta := if state.order.side == Buy then candidate else -candidate;
    var positionGross, bySymbol, quantities;
    positionGross, bySymbol, quantities, negative := PositionExposure(state.positions);
    var holding := if symbol in quantities then quantities[symbol] else 0.0;
    var value := if symbol in bySymbol then bySymbol[symbol] else 0.0;
    assert value == SymbolValue(state.positions, symbol) && holding == SymbolQuantity(state.positions, symbol) by {
      assert At(bySymbol, symbol) == SymbolValue(state.positions, symbol);
      assert At(quantities, symbol) == SymbolQuantity(state.positions, symbol);
    }
    exceeds := state.order.side == Sell && state.order.quantity as real > holding;
    gross := MaxReal(0.0, positionGross + committed + delta);
    symbolValue := MaxReal(0.0, value + delta);
    cash := state.account.cash - committed - (if state.order.side == Buy then candidate else 0.0);
  }

  method CheckRates(state: PretradeState, limits: ControlLimits) returns (reasons: seq<Reason>, recent: nat, session: nat)
    requires ValidState(state)
    ensures Explains(reasons, RateSection, state, limits)
    ensures recent == RecentCount(state.submissionTimestamps, limits, state.now)
    ensures session == SessionCount(state.submissionTimestamps, state.calendar)
  {
    recent := RecentCount(state.submissionTimestamps, limits, state.now);
    session := SessionCount(state.submissionTimestamps, state.calendar);
    reasons := Note([], AnyAfter(state.submissionTimestamps, state.now + limits.maxFutureSkew), SubmissionTimestampFromFuture);
    reasons := Note(reasons, recent >= limits.maxOrdersPerWindow, OrderRateLimit);
    reasons := Note(reasons, session >= limits.maxOrdersPerSession, SessionOrderLimit);
  }

  ghost predicate OpenOrdersExplained(reasons: seq<Reason>, orders: seq<OrderSnapshot>, prefix: string) {
    forall r :: r in reasons <==>
      || (r == ForeignOpenOrder && AnyForeignOpen(orders, prefix))
      || (r == OpenOrderPriceUnknown && AnyUnpriced(orders, prefix))
  }

  /** The cash open owned buys may still take, how many owned orders are open, and what speaks against them. */
  method OpenOrderCommitment(orders: seq<OrderSnapshot>, prefix: string)
    returns (commitment: real, owned: nat, reasons: seq<Reason>)
    ensures commitment == CommittedNotional(orders, prefix) && owned == OwnedOpenCount(orders, prefix)
    ensures OpenOrdersExplained(reasons, orders, prefix)
  {
    commitment, owned, reasons := 0.0, 0, [];
    for i := 0 to |orders|
      invariant commitment == CommittedNotional(orders[..i], prefix) && owned == OwnedOpenCount(orders[..i], prefix)
      invariant forall r :: r in reasons ==> r == ForeignOpenOrder || r == OpenOrderPriceUnknown
      invariant ForeignOpenOrder in reasons <==> exists k :: 0 <= k < i && IsForeignOpen(orders[k], prefix)
      invariant OpenOrderPriceUnknown in reasons <==> exists k :: 0 <= k < i && IsUnpriced(orders[k], prefix)
    {
      assert orders[..i + 1][..i] == orders[..i];
      var order := orders[i];
      if order.status.Terminal() {
        continue;
      }
      if !Owned(order.clientId, prefix) {
        reasons := reasons + [ForeignOpenOrder];
        continue;
      }
      owned := owned + 1;
      if order.side != Buy {
        continue;
      }
      var price := PriceOf(order);
      if price.None? {
        reasons := reasons + [OpenOrderPriceUnknown];
        continue;
      }
      commitment := commitment + Cost(order.Remaining(), price.value);
    }
    assert orders[..|orders|] == orders;
  }

  /** Gross and per-symbol market value and quantity. */
  method PositionExposure(positions: seq<PositionSnapshot>)
    returns (gross: real, bySymbol: map<string, real>, quantities: map<string, real>, negative: bool)
    ensures gross == Gross(positions)
    ensures forall s :: At(bySymbol, s) == SymbolValue(positions, s) && At(quantities, s) == SymbolQuantity(positions, s)
    ensures negative <==> AnyNegative(positions)
  {
    gross, bySymbol, quantities, negative := 0.0, map[], map[], false;
    for i := 0 to |positions|
      invariant gross == Gross(positions[..i])
      invariant forall s :: At(bySymbol, s) == SymbolValue(positions[..i], s)
      invariant forall s :: At(quantities, s) == SymbolQuantity(positions[..i], s)
      invariant negative <==> exists k :: 0 <= k < i && (positions[k].quantity < 0.0 || positions[k].marketValue < 0.0)
    {
      assert positions[..i + 1][..i] == positions[..i];
      var position := positions[i];
      if position.quantity < 0.0 || position.marketValue < 0.0 {
        negative := true;
      }
      var value := AbsReal(position.marketValue);
      var symbol := position.symbol;
      gross := gross + value;
      bySymbol := bySymbol[symbol := (if symbol in bySymbol then bySymbol[symbol] else 0.0) + value];
      quantities := quantities[symbol := (if symbol in quantities then quantities[symbol] else 0.0) + position.quantity];
    }
    assert positions[..|positions|] == positions;
  }

  // ----- what an allowed buy guarantees -----

  /** What becomes of one order: how much of it fills, at what price, and where it is marked afterwards. */
  datatype Outcome = Outcome(quantity: real, price: real, mark: real)

  ghost predicate Within(outcome: Outcome, quantity: real, limit: real) {
    0.0 <= outcome.quantity <= quantity && 0.0 <= outcome.price <= limit && 0.0 <= outcome.mark <= limit
  }

  /** Any open owned buy may fill in whole or part at or below its limit; nothing else fills. */
  ghost predicate Possible(orders: seq<OrderSnapshot>, prefix: string, outcomes: seq<Outcome>) {
    && |outcomes| == |orders|
    && forall i :: 0 <= i < |orders| ==>
         if OwnedOpenBuy(orders[i], prefix) && orders[i].limitPrice.Some?
         then Within(outcomes[i], orders[i].Remaining(), orders[i].limitPrice.value)
         else outcomes[i] == Outcome(0.0, 0.0, 0.0)
  }

  ghost predicate BuysAreLimited(orders: seq<OrderSnapshot>, prefix: string) {
    forall i :: 0 <= i < |orders| && OwnedOpenBuy(orders[i], prefix) ==> orders[i].limitPrice.Some?
  }

  ghost function Spent(outcomes: seq<Outcome>): real {
    if outcomes == [] then 0.0
    else Spent(outcomes[..|outcomes| - 1]) + Cost(outcomes[|outcomes| - 1].quantity, outcomes[|outcomes| - 1].price)
  }

  ghost function Marked(outcomes: seq<Outcome>): real {
    if outcomes == [] then 0.0
    else Marked(outcomes[..|outcomes| - 1]) + Cost(outcomes[|outcomes| - 1].quantity, outcomes[|outcomes| - 1].mark)
  }

  /** No outcome of the open orders costs, or is worth, more than what was committed for them. */
  lemma {:induction false} OutcomesWithinCommitment(orders: seq<OrderSnapshot>, prefix: string, outcomes: seq<Outcome>)
    requires Possible(orders, prefix, outcomes) && BuysAreLimited(orders, prefix)
    requires forall i :: 0 <= i < |orders| ==> ValidOrder(orders[i])
    ensures Spent(outcomes) <= CommittedNotional(orders, prefix)
    ensures Marked(outcomes) <= CommittedNotional(orders, prefix)
  {
    if orders != [] {
      var n := |orders| - 1;
      OutcomesWithinCommitment(orders[..n], prefix, outcomes[..n]);
      var order, outcome := orders[n], outcomes[n];
      if OwnedOpenBuy(order, prefix) {
        CostMonotone(outcome.quantity, order.Remaining(), outcome.price, order.limitPrice.value);
        CostMonotone(outcome.quantity, order.Remaining(), outcome.mark, order.limitPrice.value);
      }
    }
  }

  /** Every open order filled completely at its limit. */
  ghost function Worst(orders: seq<OrderSnapshot>, prefix: string): seq<Outcome> {
    seq(|orders|, i requires 0 <= i < |orders| =>
      if OwnedOpenBuy(orders[i], prefix) && orders[i].limitPrice.Some?
      then Outcome(orders[i].Remaining(), orders[i].limitPrice.value, orders[i].limitPrice.value)
      else Outcome(0.0, 0.0, 0.0))
  }

  /** The commitment is not an over-estimate: filling everything at its limit costs exactly that much. */
  lemma {:induction false} WorstIsCommitment(orders: seq<OrderSnapshot>, prefix: string)
    requires BuysAreLimited(orders, prefix) && forall i :: 0 <= i < |orders| ==> ValidOrder(orders[i])
    ensures Possible(orders, prefix, Worst(orders, prefix))
    ensures Spent(Worst(orders, prefix)) == CommittedNotional(orders, prefix) == Marked(Worst(orders, prefix))
  {
    if orders != [] {
      var n := |orders| - 1;
      WorstIsCommitment(orders[..n], prefix);
      assert Worst(orders, prefix)[..n] == Worst(orders[..n], prefix);
      assert Cost(0.0, 0.0) == 0.0;
    }
  }

  /** The account after the outcomes of the open orders and of the candidate: the three promises of the controls. */
  ghost predicate AccountSafe(state: PretradeState, limits: ControlLimits, outcomes: seq<Outcome>, candidate: Outcome) {
    var spent := Spent(outcomes) + Cost(candidate.quantity, candidate.price);
    && state.account.cash - spent >= CashReserve(state, limits)
    && spent <= state.account.buyingPower
    && Gross(state.positions) + Marked(outcomes) + Cost(candidate.quantity, candidate.mark)
       <= Share(state.account.equity, limits.maxGrossFraction)
  }

  /** The candidate filled completely at the price reserved for it. */
  function FullFill(state: PretradeState): Outcome {
    var price := CandidatePrice(state.order, state.quote);
    Outcome(state.order.quantity as real, price, price)
  }

  lemma {:induction false} MoneyControls(state: PretradeState, limits: ControlLimits)
    requires ValidState(state) && state.order.side == Buy
    ensures var committed, candidate := CommittedNotional(state.openOrders, state.prefix), CandidateNotional(state);
            && (Violates(state, limits, BuyingPowerLimit) <==> committed + candidate > state.account.buyingPower)
            && (Violates(state, limits, CashReserveLimit) <==>
                  state.account.cash - committed - candidate < CashReserve(state, limits))
            && (Violates(state, limits, GrossExposureLimit) <==>
                  MaxReal(0.0, Gross(state.positions) + committed + candidate) > Share(state.account.equity, limits.maxGrossFraction))
  {
  }

  lemma {:induction false} WorstAmounts(state: PretradeState)
    requires ValidState(state) && state.order.side == Buy && BuysAreLimited(state.openOrders, state.prefix)
    ensures var full, worst := FullFill(state), Worst(state.openOrders, state.prefix);
            && Spent(worst) == CommittedNotional(state.openOrders, state.prefix) == Marked(worst)
            && Cost(full.quantity, full.price) == CandidateNotional(state) == Cost(full.quantity, full.mark)
            && 0.0 <= Gross(state.positions) + CommittedNotional(state.openOrders, state.prefix) + CandidateNotional(state)
  {
    CostMonotone(0.0, state.order.quantity as real, 0.0, CandidatePrice(state.order, state.quote));
    GrossNonNegative(state.positions);
    WorstIsCommitment(state.openOrders, state.prefix);
    CommitmentNonNegative(state.openOrders, state.prefix);
  }

  /** The three money controls are the three promises for the worst outcome. */
  lemma {:induction false} ControlsAreWorstCase(state: PretradeState, limits: ControlLimits)
    requires ValidState(state) && state.order.side == Buy && BuysAreLimited(state.openOrders, state.prefix)
    ensures (!Violates(state, limits, BuyingPowerLimit) && !Violates(state, limits, CashReserveLimit)
             && !Violates(state, limits, GrossExposureLimit)) <==>
            AccountSafe(state, limits, Worst(state.openOrders, state.prefix), FullFill(state))
  {
    MoneyControls(state, limits);
    WorstAmounts(state);
  }

  /** If the worst outcome is safe, every one is. */
  lemma {:induction false} WorstCaseCoversAll(state: PretradeState, limits: ControlLimits, outcomes: seq<Outcome>, candidate: Outcome)
    requires ValidState(state) && state.order.side == Buy && BuysAreLimited(state.openOrders, state.prefix)
    requires AccountSafe(state, limits, Worst(state.openOrders, state.prefix), FullFill(state))
    requires Possible(state.openOrders, state.prefix, outcomes)
    requires Within(candidate, state.order.quantity as real, CandidatePrice(state.order, state.quote))
    ensures AccountSafe(state, limits, outcomes, candidate)
  {
    var quantity, price := state.order.quantity as real, CandidatePrice(state.order, state.quote);
    WorstIsCommitment(state.openOrders, state.prefix);
    OutcomesWithinCommitment(state.openOrders, state.prefix, outcomes);
    CostMonotone(candidate.quantity, quantity, candidate.price, price);
    CostMonotone(candidate.quantity, quantity, candidate.mark, price);
  }

  /** A buy passes the money controls exactly when no outcome of the open orders and of the candidate, each at or
      below the price reserved for it, can break a promise. */
  lemma {:induction false} MoneyControlsAreExact(state: PretradeState, limits: ControlLimits)
    requires ValidState(state) && state.order.side == Buy && BuysAreLimited(state.openOrders, state.prefix)
    ensures (!Violates(state, limits, BuyingPowerLimit) && !Violates(state, limits, CashReserveLimit)
             && !Violates(state, limits, GrossExposureLimit)) <==>
            forall outcomes, candidate ::
              Possible(state.openOrders, state.prefix, outcomes)
              && Within(candidate, state.order.quantity as real, CandidatePrice(state.order, state.quote)) ==>
              AccountSafe(state, limits, outcomes, candidate)
  {
    ControlsAreWorstCase(state, limits);
    WorstIsCommitment(state.openOrders, state.prefix);
    assert Within(FullFill(state), state.order.quantity as real, CandidatePrice(state.order, state.quote));
    if AccountSafe(state, limits, Worst(state.openOrders, state.prefix), FullFill(state)) {
      forall outcomes, candidate
        | Possible(state.openOrders, state.prefix, outcomes)
          && Within(candidate, state.order.quantity as real, CandidatePrice(state.order, state.quote))
        ensures AccountSafe(state, limits, outcomes, candidate)
      {
        WorstCaseCoversAll(state, limits, outcomes, candidate);
      }
    }
  }

  lemma {:induction false} GrossNonNegative(positions: seq<PositionSnapshot>)
    ensures Gross(positions) >= 0.0
  {
    if positions != [] { GrossNonNegative(positions[..|positions| - 1]); }
  }

  lemma {:induction false} CommitmentNonNegative(orders: seq<OrderSnapshot>, prefix: string)
    requires forall i :: 0 <= i < |orders| ==> ValidOrder(orders[i])
    ensures CommittedNotional(orders, prefix) >= 0.0
  {
    if orders != [] {
      var order := orders[|orders| - 1];
      CommitmentNonNegative(orders[..|orders| - 1], prefix);
      if PriceOf(order).Some? { CostMonotone(0.0, order.Remaining(), 0.0, PriceOf(order).value); }
    }
  }

  /** An allowed buy is safe in the worst case: at limit prices it and every open owned buy may fill, in whole or
      part, without touching the reserve, the exposure bound or the buying power. */
  lemma {:induction false} AllowedBuyIsWorstCaseSafe(state: PretradeState, limits: ControlLimits, outcomes: seq<Outcome>, candidate: Outcome)
    requires ValidState(state) && Permitted(state, limits) && state.order.side == Buy
    requires BuysAreLimited(state.openOrders, state.prefix)
    requires Possible(state.openOrders, state.prefix, outcomes)
    requires state.order.limitPrice.Some? ==> Within(candidate, state.order.quantity as real, state.order.limitPrice.value)
    ensures state.order.limitPrice.Some?
    ensures AccountSafe(state, limits, outcomes, candidate)
    ensures forall i :: 0 <= i < |state.openOrders| ==>
              state.openOrders[i].status.Terminal() || Owned(state.openOrders[i].clientId, state.prefix)
  {
    assert !Violates(state, limits, LimitOrderRequired) && !Violates(state, limits, ForeignOpenOrder);
    assert !Violates(state, limits, BuyingPowerLimit) && !Violates(state, limits, CashReserveLimit);
    assert !Violates(state, limits, GrossExposureLimit);
    assert Within(candidate, state.order.quantity as real, CandidatePrice(state.order, state.quote));
    MoneyControlsAreExact(state, limits);
    forall i | 0 <= i < |state.openOrders|
      ensures state.openOrders[i].status.Terminal() || Owned(state.openOrders[i].clientId, state.prefix)
    {
      assert !IsForeignOpen(state.openOrders[i], state.prefix);
    }
  }
}
