/** The event loop of one simulation run, and what holds over every whole run of it. */
module Engine {
  import opened Prelude
  import opened Portfolio
  import opened Risk
  import opened SimulatedBroker
  import Reporting

  /** One observation together with the target fraction an arbitrary strategy gives for it. */
  datatype Bar = Bar(event: MarketEvent, targetFraction: real)

  predicate ValidBar(bar: Bar) {
    ValidEvent(bar.event) && 0.0 <= bar.targetFraction <= 1.0
  }

  ghost predicate ValidBars(bars: seq<Bar>) {
    forall i :: 0 <= i < |bars| ==> ValidBar(bars[i])
  }

  datatype Config = Config(policy: RiskPolicy, costs: BrokerCosts, initialCash: real, evaluationStart: Option<int>)

  predicate ValidConfig(config: Config) {
    ValidPolicy(config.policy) && ValidCosts(config.costs) && config.initialCash > 0.0
  }

  datatype Tally = Tally(lastTimestamp: Option<int>, intents: nat, allowed: nat, denied: nat, rejected: nat,
                         fills: seq<Fill>, curve: seq<EquityPoint>)

  datatype EngineState = EngineState(book: Book, risk: RiskState, broker: BrokerState, tally: Tally)

  datatype EngineError = NoEvents | ClockNotIncreasing | Broker(error: BrokerError) | Unpriced | NothingEvaluated

  function Initial(config: Config): EngineState {
    EngineState(NewBook(config.initialCash), Fresh, BrokerState([], {}), Tally(None, 0, 0, 0, 0, [], []))
  }

  predicate InEvaluation(config: Config, event: MarketEvent) {
    config.evaluationStart.None? || event.timestamp >= config.evaluationStart.value
  }

  ghost predicate Coherent(state: EngineState) {
    PositionsOk(state.book) && ValidPending(state.broker.pending)
  }

  /** The accounting boundary: an accepted fill is rechecked, a rejected one halts the run. */
  function BookFill(config: Config, state: EngineState, fill: Fill): EngineState
    requires PositionsOk(state.book) && ValidFill(fill)
  {
    var (book, error) := Apply(state.book, fill);
    if error.Some? then
      state.(book := book,
             risk := state.risk.(halted := true, haltReason := Some(PortfolioRejectedFill)),
             tally := state.tally.(rejected := state.tally.rejected + 1))
    else
      state.(book := book,
             risk := AfterFill(config.policy, state.risk, book, fill),
             tally := state.tally.(fills := state.tally.fills + [fill]))
  }

  ghost function BookFills(config: Config, state: EngineState, fills: seq<Fill>): (after: EngineState)
    requires Coherent(state) && forall i :: 0 <= i < |fills| ==> ValidFill(fills[i])
    ensures Coherent(after) && after.broker == state.broker
  {
    if fills == [] then state
    else
      var before := BookFills(config, state, fills[..|fills| - 1]);
      ApplyConserves(before.book, fills[|fills| - 1]);
      BookFill(config, before, fills[|fills| - 1])
  }

  /** The first half of a bar: clock, fills, mark and circuit breakers, up to where an intent is formed. */
  ghost function Observed(config: Config, state: EngineState, event: MarketEvent): (result: Result<EngineState, EngineError>)
    requires ValidConfig(config) && Coherent(state) && ValidEvent(event)
    ensures result.Ok? ==> Coherent(result.value)
  {
    if state.tally.lastTimestamp.Some? && event.timestamp <= state.tally.lastTimestamp.value then Err(ClockNotIncreasing)
    else
      match Match(config.costs, state.broker.pending, event)
      case Err(error) => Err(Broker(error))
      case Ok((fills, remaining)) =>
        var clocked := state.(broker := state.broker.(pending := remaining),
                              tally := state.tally.(lastTimestamp := Some(event.timestamp)));
        var filled := BookFills(config, clocked, fills);
        if !OnlyHolds(filled.book.positions, event.symbol) then Err(Unpriced)
        else
          var point := Mark(filled.book, event);
          Ok(filled.(risk := AfterObserve(config.policy, filled.risk, filled.book, point),
                     tally := filled.tally.(curve := if InEvaluation(config, event) then filled.tally.curve + [point]
                                                     else filled.tally.curve)))
  }

  /** Once halted with a position, the strategy's target is overridden by zero. */
  function EffectiveTarget(state: EngineState, bar: Bar): real {
    if state.risk.halted && Held(state.book.positions, bar.event.symbol).quantity > 0 then 0.0 else bar.targetFraction
  }

  /** The second half of a bar: intent, risk decision and submission. */
  function Traded(config: Config, state: EngineState, bar: Bar): Result<EngineState, EngineError>
    requires ValidConfig(config) && ValidBar(bar)
  {
    if !InEvaluation(config, bar.event) then Ok(state)
    else
      match OrderForTarget(state.book, bar.event, EffectiveTarget(state, bar))
      case None => Ok(state)
      case Some(intent) =>
        var counted := state.(tally := state.tally.(intents := state.tally.intents + 1));
        var (risk, decision) := Evaluation(config.policy, state.risk, intent, state.book, Mark(state.book, bar.event));
        if !decision.allowed then
          Ok(counted.(risk := risk, tally := counted.tally.(denied := counted.tally.denied + 1)))
        else
          match Submit(state.broker, intent, decision)
          case Err(error) => Err(Broker(error))
          case Ok(broker) =>
            Ok(counted.(risk := risk, broker := broker, tally := counted.tally.(allowed := counted.tally.allowed + 1)))
  }

  ghost function Step(config: Config, state: EngineState, bar: Bar): (result: Result<EngineState, EngineError>)
    requires ValidConfig(config) && Coherent(state) && ValidBar(bar)
    ensures result.Ok? ==> Coherent(result.value)
  {
    match Observed(config, state, bar.event)
    case Err(error) => Err(error)
    case Ok(observed) => Traded(config, observed, bar)
  }

  /** The state after a whole run of bars, before the end-of-run cancellation. */
  ghost function Replay(config: Config, bars: seq<Bar>): (result: Result<EngineState, EngineError>)
    requires ValidConfig(config) && ValidBars(bars)
    ensures result.Ok? ==> Coherent(result.value)
  {
    if bars == [] then Ok(Initial(config))
    else
      match Replay(config, bars[..|bars| - 1])
      case Err(error) => Err(error)
      case Ok(state) => Step(config, state, bars[|bars| - 1])
  }

  /** A run that did not raise did not raise on any prefix. */
  lemma {:induction false} PrefixRuns(config: Config, bars: seq<Bar>, n: nat)
    requires ValidConfig(config) && ValidBars(bars) && n <= |bars|
    ensures Replay(config, bars).Ok? ==> Replay(config, bars[..n]).Ok?
    ensures Replay(config, bars[..n]).Err? ==> Replay(config, bars) == Replay(config, bars[..n])
  {
    if n == |bars| {
      assert bars[..n] == bars;
    } else {
      assert bars[..|bars| - 1][..n] == bars[..n];
      PrefixRuns(config, bars[..|bars| - 1], n);
    }
  }

  lemma {:induction false} RunStep(config: Config, bars: seq<Bar>, n: nat)
    requires ValidConfig(config) && ValidBars(bars) && n < |bars| && Replay(config, bars[..n + 1]).Ok?
    ensures Replay(config, bars[..n]).Ok?
    ensures Replay(config, bars[..n + 1]) == Step(config, Replay(config, bars[..n]).value, bars[n])
  {
    assert bars[..n + 1][..n] == bars[..n];
  }

  // ----- invariants of every run -----

  /** All identifiers the run has seen are older than the next event, so none can repeat. */
  ghost predicate IdentifiersAreOld(state: EngineState) {
    && (forall id :: id in state.risk.seenIntents ==>
          state.tally.lastTimestamp.Some? && id.timestamp <= state.tally.lastTimestamp.value)
    && (forall id :: id in state.broker.orderIds ==>
          state.tally.lastTimestamp.Some? && id.intentId.timestamp <= state.tally.lastTimestamp.value)
  }

  /** Every queued order is for the run's symbol and older than the next event, so the next event fills it. */
  ghost predicate PendingIsEligible(state: EngineState, symbol: string) {
    forall i :: 0 <= i < |state.broker.pending| ==>
      && state.broker.pending[i].intent.symbol == symbol
      && state.tally.lastTimestamp.Some? && state.broker.pending[i].intent.timestamp <= state.tally.lastTimestamp.value
  }

  /** Each allowed intent is filled, rejected or still queued, and at most one is queued. */
  ghost predicate OrdersBalance(state: EngineState) {
    && state.tally.allowed == |state.tally.fills| + state.tally.rejected + |state.broker.pending|
    && state.tally.intents == state.tally.allowed + state.tally.denied
    && |state.broker.pending| <= 1
  }

  ghost predicate RunInvariant(state: EngineState, symbol: string) {
    && Coherent(state) && Conserved(state.book) && OnlyHolds(state.book.positions, symbol)
    && IdentifiersAreOld(state) && PendingIsEligible(state, symbol) && OrdersBalance(state)
  }

  ghost predicate SingleSymbol(bars: seq<Bar>, symbol: string) {
    forall i :: 0 <= i < |bars| ==> bars[i].event.symbol == symbol
  }

  /** An event later than every queued order of its symbol empties the queue. */
  lemma {:induction false} MatchFillsAll(costs: BrokerCosts, pending: seq<PendingOrder>, event: MarketEvent)
    requires ValidCosts(costs) && ValidPending(pending) && ValidEvent(event)
    requires forall i :: 0 <= i < |pending| ==> Eligible(pending[i], event)
    requires Match(costs, pending, event).Ok?
    ensures Match(costs, pending, event).value.1 == []
    ensures |Match(costs, pending, event).value.0| == |pending|
    ensures forall i :: 0 <= i < |pending| ==>
              var fill := Match(costs, pending, event).value.0[i];
              && fill.symbol == event.symbol && fill.side == pending[i].intent.side
              && fill.quantity == pending[i].approvedQuantity
  {
    if pending != [] { MatchFillsAll(costs, pending[..|pending| - 1], event); }
  }

  /** What one booked fill of the held symbol keeps. */
  ghost predicate BookedFrom(state: EngineState, after: EngineState, symbol: string, fills: nat) {
    && Conserved(after.book) && OnlyHolds(after.book.positions, symbol)
    && after.risk.seenIntents == state.risk.seenIntents
    && after.risk.peakEquity == state.risk.peakEquity
    && (state.risk.halted ==> after.risk.halted)
    && after.tally == state.tally.(fills := after.tally.fills, rejected := after.tally.rejected)
    && |after.tally.fills| + after.tally.rejected == |state.tally.fills| + state.tally.rejected + fills
  }

  lemma {:induction false} BookFillKeeps(config: Config, state: EngineState, fill: Fill)
    requires Coherent(state) && Conserved(state.book) && OnlyHolds(state.book.positions, fill.symbol) && ValidFill(fill)
    ensures BookedFrom(state, BookFill(config, state, fill), fill.symbol, 1)
  {
    ApplyConserves(state.book, fill);
    var after := Apply(state.book, fill).0;
    assert OnlyHolds(after.positions, fill.symbol);
  }

  /** What booking any number of fills of one symbol keeps. */
  lemma {:induction false} BookFillsKeeps(config: Config, state: EngineState, fills: seq<Fill>, symbol: string)
    requires Coherent(state) && Conserved(state.book) && OnlyHolds(state.book.positions, symbol)
    requires forall i :: 0 <= i < |fills| ==> ValidFill(fills[i]) && fills[i].symbol == symbol
    ensures BookedFrom(state, BookFills(config, state, fills), symbol, |fills|)
  {
    if fills != [] {
      BookFillsKeeps(config, state, fills[..|fills| - 1], symbol);
      BookFillKeeps(config, BookFills(config, state, fills[..|fills| - 1]), fills[|fills| - 1]);
    }
  }

  /** Between the fills of a bar and its submission nothing is queued: in particular at every halt. */
  lemma {:induction false} ObservedKeeps(config: Config, state: EngineState, event: MarketEvent)
    requires ValidConfig(config) && ValidEvent(event) && RunInvariant(state, event.symbol)
    requires Observed(config, state, event).Ok?
    ensures var observed := Observed(config, state, event).value;
            && RunInvariant(observed, event.symbol)
            && observed.broker == state.broker.(pending := [])
            && (state.risk.halted ==> observed.risk.halted)
            && observed.tally.lastTimestamp == Some(event.timestamp)
            && (forall id :: id in observed.risk.seenIntents ==> id.timestamp < event.timestamp)
            && (forall id :: id in observed.broker.orderIds ==> id.intentId.timestamp < event.timestamp)
  {
    MatchFillsAll(config.costs, state.broker.pending, event);
    var (fills, remaining) := Match(config.costs, state.broker.pending, event).value;
    var clocked := state.(broker := state.broker.(pending := remaining),
                          tally := state.tally.(lastTimestamp := Some(event.timestamp)));
    BookFillsKeeps(config, clocked, fills, event.symbol);
  }

  /** The second half of a bar queues at most one order and never raises. */
  lemma {:induction false} TradedKeeps(config: Config, observed: EngineState, bar: Bar)
    requires ValidConfig(config) && ValidBar(bar) && RunInvariant(observed, bar.event.symbol)
    requires observed.broker.pending == [] && observed.tally.lastTimestamp == Some(bar.event.timestamp)
    requires forall id :: id in observed.risk.seenIntents ==> id.timestamp < bar.event.timestamp
    requires forall id :: id in observed.broker.orderIds ==> id.intentId.timestamp < bar.event.timestamp
    ensures Traded(config, observed, bar).Ok?
    ensures var after := Traded(config, observed, bar).value;
            && RunInvariant(after, bar.event.symbol)
            && after.book == observed.book
            && (observed.risk.halted ==> after.risk.halted)
            && after.tally.lastTimestamp == observed.tally.lastTimestamp
  {
    var target := OrderForTarget(observed.book, bar.event, EffectiveTarget(observed, bar));
    if InEvaluation(config, bar.event) && target.Some? {
      var intent := target.value;
      assert intent.id !in observed.risk.seenIntents;
      var (risk, decision) := Evaluation(config.policy, observed.risk, intent, observed.book, Mark(observed.book, bar.event));
      assert decision.intentId == intent.id;
      assert decision.allowed ==> 0 < decision.approvedQuantity <= intent.quantity;
    }
  }

  /** Every run of one symbol: at most one order is ever queued, every allowed intent is filled, rejected or
      queued, money is conserved, and the only errors left are a clock that stands still, a slippage that
      consumes the price, and nothing else. */
  lemma {:induction false} RunKeepsInvariant(config: Config, bars: seq<Bar>, symbol: string)
    requires ValidConfig(config) && ValidBars(bars) && SingleSymbol(bars, symbol)
    ensures match Replay(config, bars)
            case Ok(state) => RunInvariant(state, symbol)
            case Err(error) => error == ClockNotIncreasing || error == Broker(NonPositiveFillPrice)
  {
    if bars == [] {
      ConservationOverEveryHistory(config.initialCash, []);
    } else {
      var init, bar := bars[..|bars| - 1], bars[|bars| - 1];
      RunKeepsInvariant(config, init, symbol);
      if Replay(config, init).Ok? {
        var state := Replay(config, init).value;
        if Observed(config, state, bar.event).Ok? {
          ObservedKeeps(config, state, bar.event);
          TradedKeeps(config, Observed(config, state, bar.event).value, bar);
        } else {
          ObservedErrors(config, state, bar.event);
        }
      }
    }
  }

  lemma {:induction false} ObservedErrors(config: Config, state: EngineState, event: MarketEvent)
    requires ValidConfig(config) && ValidEvent(event) && RunInvariant(state, event.symbol)
    requires Observed(config, state, event).Err?
    ensures var error := Observed(config, state, event).error;
            error == ClockNotIncreasing || error == Broker(NonPositiveFillPrice)
  {
    MatchErrors(config.costs, state.broker.pending, event);
    if Match(config.costs, state.broker.pending, event).Ok? {
      var (fills, remaining) := Match(config.costs, state.broker.pending, event).value;
      var clocked := state.(broker := state.broker.(pending := remaining),
                            tally := state.tally.(lastTimestamp := Some(event.timestamp)));
      if !(state.tally.lastTimestamp.Some? && event.timestamp <= state.tally.lastTimestamp.value) {
        MatchFillsAll(config.costs, state.broker.pending, event);
        BookFillsKeeps(config, clocked, fills, event.symbol);
      }
    }
  }

  lemma {:induction false} MatchErrors(costs: BrokerCosts, pending: seq<PendingOrder>, event: MarketEvent)
    requires ValidCosts(costs) && ValidPending(pending) && ValidEvent(event)
    ensures Match(costs, pending, event).Err? ==> Match(costs, pending, event).error == NonPositiveFillPrice
  {
    if pending != [] { MatchErrors(costs, pending[..|pending| - 1], event); }
  }

  /** Every equity point of every run reconciles to realized and unrealized profit less fees. */
  lemma {:induction false} EveryPointReconciles(config: Config, bars: seq<Bar>, symbol: string, n: nat)
    requires ValidConfig(config) && ValidBars(bars) && SingleSymbol(bars, symbol) && n < |bars|
    requires Replay(config, bars).Ok?
    ensures Replay(config, bars[..n]).Ok? && Observed(config, Replay(config, bars[..n]).value, bars[n].event).Ok?
    ensures var observed := Observed(config, Replay(config, bars[..n]).value, bars[n].event).value;
            var point := Mark(observed.book, bars[n].event);
            point.equity == config.initialCash + point.realizedPnl + point.unrealizedPnl - point.fees
  {
    PrefixRuns(config, bars, n + 1);
    RunStep(config, bars, n);
    RunKeepsInvariant(config, bars[..n], symbol);
    var state := Replay(config, bars[..n]).value;
    ObservedKeeps(config, state, bars[n].event);
    InitialCashKept(config, bars[..n]);
    BookedInitialCash(config, state, bars[n].event);
    EquityIdentity(Observed(config, state, bars[n].event).value.book, bars[n].event);
  }

  lemma {:induction false} InitialCashKept(config: Config, bars: seq<Bar>)
    requires ValidConfig(config) && ValidBars(bars) && Replay(config, bars).Ok?
    ensures Replay(config, bars).value.book.initialCash == config.initialCash
  {
    if bars != [] {
      var init, bar := bars[..|bars| - 1], bars[|bars| - 1];
      InitialCashKept(config, init);
      BookedInitialCash(config, Replay(config, init).value, bar.event);
    }
  }

  lemma {:induction false} BookedInitialCash(config: Config, state: EngineState, event: MarketEvent)
    requires ValidConfig(config) && Coherent(state) && ValidEvent(event) && Observed(config, state, event).Ok?
    ensures Observed(config, state, event).value.book.initialCash == state.book.initialCash
  {
    var (fills, remaining) := Match(config.costs, state.broker.pending, event).value;
    var clocked := state.(broker := state.broker.(pending := remaining),
                          tally := state.tally.(lastTimestamp := Some(event.timestamp)));
    FillsKeepInitialCash(config, clocked, fills);
  }

  lemma {:induction false} FillsKeepInitialCash(config: Config, state: EngineState, fills: seq<Fill>)
    requires Coherent(state) && forall i :: 0 <= i < |fills| ==> ValidFill(fills[i])
    ensures BookFills(config, state, fills).book.initialCash == state.book.initialCash
  {
    if fills != [] {
      FillsKeepInitialCash(config, state, fills[..|fills| - 1]);
      ApplyConserves(BookFills(config, state, fills[..|fills| - 1]).book, fills[|fills| - 1]);
    }
  }

  // ----- a halt leads to a flat position -----

  /** Halted and waiting only to sell all that is held. */
  ghost predicate Exiting(state: EngineState, symbol: string) {
    && state.risk.halted
    && (if Held(state.book.positions, symbol).quantity == 0 then state.broker.pending == []
        else |state.broker.pending| == 1 && state.broker.pending[0].intent.side.Sell?
             && state.broker.pending[0].approvedQuantity == Held(state.book.positions, symbol).quantity)
  }

  /** Halted, flat and with nothing queued. */
  ghost predicate Done(state: EngineState, symbol: string) {
    state.risk.halted && Held(state.book.positions, symbol).quantity == 0 && state.broker.pending == []
  }

  /** A bar of the evaluation that is halted when its intent is formed ends with the exit queued. */
  lemma {:induction false} HaltedBarExits(config: Config, observed: EngineState, bar: Bar)
    requires ValidConfig(config) && ValidBar(bar) && RunInvariant(observed, bar.event.symbol)
    requires observed.broker.pending == [] && observed.tally.lastTimestamp == Some(bar.event.timestamp)
    requires forall id :: id in observed.risk.seenIntents ==> id.timestamp < bar.event.timestamp
    requires forall id :: id in observed.broker.orderIds ==> id.intentId.timestamp < bar.event.timestamp
    requires observed.risk.halted && InEvaluation(config, bar.event)
    ensures Traded(config, observed, bar).Ok? && Exiting(Traded(config, observed, bar).value, bar.event.symbol)
  {
    TradedKeeps(config, observed, bar);
    var held := Held(observed.book.positions, bar.event.symbol).quantity;
    var target := EffectiveTarget(observed, bar);
    if held > 0 {
      ZeroTarget(observed.book, bar.event);
      assert OrderForTarget(observed.book, bar.event, target).Some?;
    }
  }

  /** A zero target asks to sell exactly what is held. */
  lemma {:induction false} ZeroTarget(book: Book, event: MarketEvent)
    requires event.close > 0.0 && Held(book.positions, event.symbol).quantity > 0
    ensures var held := Held(book.positions, event.symbol).quantity;
            OrderForTarget(book, event, 0.0) ==
            Some(OrderIntent(IntentId(event.timestamp, event.symbol, Sell, held, event.close),
                             event.timestamp, event.symbol, Sell, held, event.close))
  {
    var equity := Mark(book, event).equity;
    assert equity * 0.0 == 0.0;
    assert FloorDivide(0.0, event.close) == 0;
  }

  /** The event after a halted bar executes the exit: the position is zero even if the portfolio rejects the
      sale for its fee. */
  lemma {:induction false} ExitExecutes(config: Config, state: EngineState, event: MarketEvent)
    requires ValidConfig(config) && ValidEvent(event) && RunInvariant(state, event.symbol) && Exiting(state, event.symbol)
    requires Observed(config, state, event).Ok?
    ensures Done(Observed(config, state, event).value, event.symbol)
  {
    ObservedKeeps(config, state, event);
    MatchFillsAll(config.costs, state.broker.pending, event);
    var (fills, remaining) := Match(config.costs, state.broker.pending, event).value;
    var clocked := state.(broker := state.broker.(pending := remaining),
                          tally := state.tally.(lastTimestamp := Some(event.timestamp)));
    if fills != [] {
      assert fills[..|fills| - 1] == [];
      assert BookFills(config, clocked, fills) == BookFill(config, clocked, fills[0]);
      assert Held(Apply(clocked.book, fills[0]).0.positions, event.symbol).quantity == 0;
    } else {
      assert BookFills(config, clocked, fills) == clocked;
    }
  }

  /** Flat and halted, no bar ever opens a position again. */
  lemma {:induction false} DoneStaysDone(config: Config, observed: EngineState, bar: Bar)
    requires ValidConfig(config) && ValidBar(bar) && RunInvariant(observed, bar.event.symbol)
    requires Done(observed, bar.event.symbol) && observed.tally.lastTimestamp == Some(bar.event.timestamp)
    requires forall id :: id in observed.risk.seenIntents ==> id.timestamp < bar.event.timestamp
    requires forall id :: id in observed.broker.orderIds ==> id.intentId.timestamp < bar.event.timestamp
    ensures Traded(config, observed, bar).Ok? && Done(Traded(config, observed, bar).value, bar.event.symbol)
  {
    TradedKeeps(config, observed, bar);
    if InEvaluation(config, bar.event) {
      HaltedBarExits(config, observed, bar);
    }
  }

  lemma {:induction false} HaltedBarLeavesExit(config: Config, bars: seq<Bar>, symbol: string, k: nat)
    requires ValidConfig(config) && ValidBars(bars) && SingleSymbol(bars, symbol) && Replay(config, bars).Ok?
    requires k < |bars| && InEvaluation(config, bars[k].event)
    requires Replay(config, bars[..k]).Ok? && Observed(config, Replay(config, bars[..k]).value, bars[k].event).Ok?
    requires Observed(config, Replay(config, bars[..k]).value, bars[k].event).value.risk.halted
    ensures Replay(config, bars[..k + 1]).Ok? && Exiting(Replay(config, bars[..k + 1]).value, symbol)
  {
    PrefixRuns(config, bars, k + 1);
    RunStep(config, bars, k);
    RunKeepsInvariant(config, bars[..k], symbol);
    var start := Replay(config, bars[..k]).value;
    ObservedKeeps(config, start, bars[k].event);
    HaltedBarExits(config, Observed(config, start, bars[k].event).value, bars[k]);
  }

  lemma {:induction false} ExitingBarIsDone(config: Config, bars: seq<Bar>, symbol: string, n: nat)
    requires ValidConfig(config) && ValidBars(bars) && SingleSymbol(bars, symbol) && Replay(config, bars).Ok?
    requires n < |bars| && Replay(config, bars[..n]).Ok? && Exiting(Replay(config, bars[..n]).value, symbol)
    ensures Replay(config, bars[..n + 1]).Ok? && Done(Replay(config, bars[..n + 1]).value, symbol)
  {
    PrefixRuns(config, bars, n + 1);
    RunStep(config, bars, n);
    RunKeepsInvariant(config, bars[..n], symbol);
    var before := Replay(config, bars[..n]).value;
    ObservedKeeps(config, before, bars[n].event);
    ExitExecutes(config, before, bars[n].event);
    DoneStaysDone(config, Observed(config, before, bars[n].event).value, bars[n]);
  }

  lemma {:induction false} DoneForever(config: Config, bars: seq<Bar>, symbol: string, n: nat, m: nat)
    requires ValidConfig(config) && ValidBars(bars) && SingleSymbol(bars, symbol) && Replay(config, bars).Ok?
    requires n <= m <= |bars| && Replay(config, bars[..n]).Ok? && Done(Replay(config, bars[..n]).value, symbol)
    ensures Replay(config, bars[..m]).Ok? && Done(Replay(config, bars[..m]).value, symbol)
    decreases m
  {
    if n < m {
      DoneForever(config, bars, symbol, n, m - 1);
      ExitingBarIsDone(config, bars, symbol, m - 1);
    }
  }

  /** The halt guarantee over whole runs. Bar `k` of the evaluation is halted when its intent is formed; then
      the position is zero after bar `k + 1` and after every later bar. */
  lemma {:induction false} HaltLeadsToFlat(config: Config, bars: seq<Bar>, symbol: string, k: nat, m: nat)
    requires ValidConfig(config) && ValidBars(bars) && SingleSymbol(bars, symbol) && Replay(config, bars).Ok?
    requires k + 1 < m <= |bars| && InEvaluation(config, bars[k].event)
    requires Replay(config, bars[..k]).Ok? && Observed(config, Replay(config, bars[..k]).value, bars[k].event).Ok?
    requires Observed(config, Replay(config, bars[..k]).value, bars[k].event).value.risk.halted
    ensures Replay(config, bars[..m]).Ok? && Done(Replay(config, bars[..m]).value, symbol)
  {
    HaltedBarLeavesExit(config, bars, symbol, k);
    ExitingBarIsDone(config, bars, symbol, k + 1);
    DoneForever(config, bars, symbol, k + 2, m);
  }

  // ----- an approved buy, filled in a run -----

  /** What a queued buy says about the evaluation that queued it. */
  ghost predicate QueuedByEvaluation(config: Config, state: EngineState, observed: EngineState, bar: Bar, order: PendingOrder)
    requires ValidConfig(config) && order.intent.referencePrice > 0.0
  {
    var verdict := Evaluation(config.policy, observed.risk, order.intent, observed.book, Mark(observed.book, bar.event)).1;
    && verdict.allowed && order.approvedQuantity == verdict.approvedQuantity
    && state.book == observed.book && state.book.cash >= 0.0 && !state.risk.halted
    && order.intent.symbol == bar.event.symbol && order.intent.timestamp == bar.event.timestamp
  }

  /** Only money that is there can be spent: an approved buy means cash in hand. */
  lemma {:induction false} SpendableMeansCash(policy: RiskPolicy, book: Book, event: MarketEvent)
    requires ValidPolicy(policy) && PositionsOk(book) && event.close > 0.0
    requires SpendableCash(policy, book, Mark(book, event).equity) > 0.0
    ensures book.cash >= 0.0
  {
    var fraction := policy.limits.minCashReserveFraction;
    var held := Held(book.positions, event.symbol).quantity;
    ValueMonotone(held, 0.0, event.close);
    PortionMonotone(book.cash, Mark(book, event).equity, fraction);
    if book.cash < 0.0 { ScaleOrder(fraction, 1.0, -book.cash); }
  }

  lemma {:induction false} TradedQueuesEvaluatedBuy(config: Config, observed: EngineState, bar: Bar)
    requires ValidConfig(config) && ValidBar(bar) && RunInvariant(observed, bar.event.symbol)
    requires observed.broker.pending == [] && Traded(config, observed, bar).Ok?
    requires var pending := Traded(config, observed, bar).value.broker.pending; pending != [] && pending[0].intent.side.Buy?
    ensures var after := Traded(config, observed, bar).value;
            var order := after.broker.pending[0];
            && after.broker.pending == [order] && order.intent.referencePrice > 0.0 && order.approvedQuantity > 0
            && QueuedByEvaluation(config, after, observed, bar, order)
  {
    var intent := OrderForTarget(observed.book, bar.event, EffectiveTarget(observed, bar)).value;
    var point := Mark(observed.book, bar.event);
    var decision := Evaluation(config.policy, observed.risk, intent, observed.book, point).1;
    SizingGuarantees(config.policy, intent, observed.book, point.equity, decision.approvedQuantity);
    PriceIsPositive(config.policy, intent.referencePrice);
    ValueMonotone(decision.approvedQuantity, 0.0, config.policy.costs.feePerShare);
    assert Value(decision.approvedQuantity, ConservativePrice(config.policy, intent.referencePrice)) > 0.0;
    SpendableMeansCash(config.policy, observed.book, bar.event);
  }

  /** Filling the one queued order. */
  lemma {:induction false} OneOrderMatches(costs: BrokerCosts, order: PendingOrder, event: MarketEvent, fill: Fill)
    requires ValidCosts(costs) && ValidOrder(order) && ValidEvent(event) && Eligible(order, event)
    requires FillFor(costs, order, event) == Ok(fill)
    ensures Match(costs, [order], event) == Ok(([fill], []))
  {
    var pending := [order];
    assert pending[..|pending| - 1] == [];
    assert Match(costs, [], event) == Ok(([], []));
    assert [] + [fill] == [fill];
  }

  /** A fill that passes the commitment test never leaves its halt reason. */
  lemma {:induction false} OtherReasonsOnly(config: Config, risk: RiskState, book: Book, fill: Fill, event: MarketEvent)
    requires ValidConfig(config) && PositionsOk(book) && !CommitmentTrips(config.policy, fill)
    requires risk.haltReason != Some(PostFillOrderCommitment)
    ensures var filled := AfterFill(config.policy, risk, book, fill);
            AfterObserve(config.policy, filled, book, Mark(book, event)).haltReason != Some(PostFillOrderCommitment)
  {
  }

  /** A fill that went through: booked, not rejected, no order-commitment halt, and no post-fill halt of its own when
      the worst fill of its order keeps the position limit and the reserve. */
  ghost predicate BuyBooked(config: Config, state: EngineState, observed: EngineState, order: PendingOrder, fill: Fill)
    requires PositionsOk(state.book) && ValidFill(fill)
  {
    && observed.tally.fills == state.tally.fills + [fill] && observed.tally.rejected == state.tally.rejected
    && observed.book == Bought(state.book, fill) && !CommitmentTrips(config.policy, fill)
    && (state.risk.haltReason != Some(PostFillOrderCommitment) ==>
          observed.risk.haltReason != Some(PostFillOrderCommitment))
    && (WorstFillFits(config.policy, order.intent, state.book, order.approvedQuantity)
        && WorstFillKeepsReserve(config.policy, order.intent, state.book, order.approvedQuantity) ==>
          !AfterFill(config.policy, state.risk, observed.book, fill).halted)
  }

  /** The sizing guarantees hold of whole runs: when bar `k` leaves a buy queued and the broker's rounded fill of it at
      the next bar is within the bound, that fill goes through. */
  lemma {:induction false} ApprovedBuyFillsInRun(config: Config, bars: seq<Bar>, symbol: string, k: nat, state: EngineState,
                                                 order: PendingOrder, fill: Fill)
    requires ValidConfig(config) && ValidBars(bars) && SingleSymbol(bars, symbol) && Replay(config, bars).Ok?
    requires k + 1 < |bars| && Replay(config, bars[..k + 1]) == Ok(state)
    requires state.broker.pending == [order] && order.intent.side.Buy? && ValidOrder(order)
    requires FillFor(config.costs, order, bars[k + 1].event) == Ok(fill)
    requires WithinBound(config.policy, order.intent, order.approvedQuantity, fill)
    ensures Observed(config, state, bars[k + 1].event).Ok?
    ensures BuyBooked(config, state, Observed(config, state, bars[k + 1].event).value, order, fill)
  {
    PrefixRuns(config, bars, k + 2);
    RunStep(config, bars, k + 1);
    RunKeepsInvariant(config, bars[..k + 1], symbol);
    var looked := QueuedWhere(config, bars, symbol, k, state, order);
    BuyIsBooked(config, state, looked, bars[k], bars[k + 1].event, order, fill);
  }

  /** A buy that is queued after bar `k` was approved at bar `k`. */
  lemma {:induction false} QueuedWhere(config: Config, bars: seq<Bar>, symbol: string, k: nat, state: EngineState,
                                       order: PendingOrder) returns (looked: EngineState)
    requires ValidConfig(config) && ValidBars(bars) && SingleSymbol(bars, symbol)
    requires k < |bars| && Replay(config, bars[..k + 1]) == Ok(state)
    requires state.broker.pending == [order] && order.intent.side.Buy?
    ensures order.intent.referencePrice > 0.0 && QueuedByEvaluation(config, state, looked, bars[k], order)
  {
    RunStep(config, bars, k);
    RunKeepsInvariant(config, bars[..k], symbol);
    var start := Replay(config, bars[..k]).value;
    ObservedKeeps(config, start, bars[k].event);
    looked := Observed(config, start, bars[k].event).value;
    TradedQueuesEvaluatedBuy(config, looked, bars[k]);
  }

  lemma {:induction false} BuyIsBooked(config: Config, state: EngineState, looked: EngineState, bar: Bar, event: MarketEvent,
                                       order: PendingOrder, fill: Fill)
    requires ValidConfig(config) && ValidEvent(event) && RunInvariant(state, event.symbol) && Observed(config, state, event).Ok?
    requires state.broker.pending == [order] && order.intent.side.Buy? && order.intent.referencePrice > 0.0
    requires QueuedByEvaluation(config, state, looked, bar, order) && ValidOrder(order)
    requires FillFor(config.costs, order, event) == Ok(fill)
    requires WithinBound(config.policy, order.intent, order.approvedQuantity, fill)
    ensures BuyBooked(config, state, Observed(config, state, event).value, order, fill)
  {
    var point := Mark(looked.book, bar.event);
    OneOrderMatches(config.costs, order, event, fill);
    ApprovedBuyIsAccepted(config.policy, looked.risk, order.intent, looked.book, point, fill);
    ApprovedBuyNeverHaltsExactly(config.policy, looked.risk, order.intent, looked.book, point, state.risk);
    var clocked := state.(broker := state.broker.(pending := []),
                          tally := state.tally.(lastTimestamp := Some(event.timestamp)));
    OneFillBooks(config, clocked, fill);
    ApplyConserves(state.book, fill);
    if state.risk.haltReason != Some(PostFillOrderCommitment) {
      OtherReasonsOnly(config, state.risk, Bought(state.book, fill), fill, event);
    }
  }

  lemma {:induction false} OneFillBooks(config: Config, state: EngineState, fill: Fill)
    requires Coherent(state) && ValidFill(fill) && Apply(state.book, fill) == (Bought(state.book, fill), None)
    ensures BookFills(config, state, [fill]) == state.(book := Bought(state.book, fill),
                                                       risk := AfterFill(config.policy, state.risk, Bought(state.book, fill), fill),
                                                       tally := state.tally.(fills := state.tally.fills + [fill]))
  {
    var fills := [fill];
    assert fills[..|fills| - 1] == [];
    assert BookFills(config, state, []) == state;
  }

  // ----- the reported drawdown of an unhalted run -----

  ghost function Equities(curve: seq<EquityPoint>): (equities: seq<real>)
    ensures |equities| == |curve|
    ensures forall i :: 0 <= i < |curve| ==> equities[i] == curve[i].equity
  {
    seq(|curve|, i requires 0 <= i < |curve| => curve[i].equity)
  }

  /** The report's scan of the curve stays above the drawdown that would have halted the run. */
  ghost predicate DrawdownWithin(config: Config, state: EngineState) {
    state.tally.curve != [] ==>
      && 0.0 < Reporting.ScanAll(Equities(state.tally.curve)).peak <= state.risk.peakEquity
      && Reporting.ScanAll(Equities(state.tally.curve)).maximumDrawdown > -config.policy.limits.maxDrawdownFraction
  }

  lemma {:induction false} ScanAppend(curve: seq<EquityPoint>, point: EquityPoint)
    ensures Reporting.ScanAll(Equities(curve + [point])) ==
            Reporting.ScanPoint(if curve == [] then Reporting.Scan(point.equity, 0.0)
                                else Reporting.ScanAll(Equities(curve)), point.equity)
  {
    var longer := Equities(curve + [point]);
    assert longer[..|longer| - 1] == Equities(curve);
  }

  /** The breaker's ratio and the report's ratio are the same number with the opposite sign. */
  lemma {:induction false} DrawdownRatio(equity: real, peak: real, breakerPeak: real, limit: real)
    requires 0.0 < equity <= peak <= breakerPeak && (breakerPeak - equity) / breakerPeak < limit
    ensures equity / peak - 1.0 > -limit
  {
    Reporting.RatioMonotone(equity, peak, breakerPeak);
    var kept, lost := equity / breakerPeak, (breakerPeak - equity) / breakerPeak;
    assert kept * breakerPeak == equity && lost * breakerPeak == breakerPeak - equity;
    assert (kept + lost - 1.0) * breakerPeak == 0.0;
    ProductZero(kept + lost - 1.0, breakerPeak);
  }

  lemma {:induction false} ProductZero(a: real, b: real)
    requires b > 0.0 && a * b == 0.0
    ensures a == 0.0
  {
  }

  /** One point observed without a halt keeps the reported drawdown within the limit. */
  lemma {:induction false} PointKeepsDrawdown(config: Config, risk: RiskState, book: Book, curve: seq<EquityPoint>, point: EquityPoint)
    requires ValidConfig(config) && !AfterObserve(config.policy, risk, book, point).halted
    requires curve != [] ==>
               && 0.0 < Reporting.ScanAll(Equities(curve)).peak <= risk.peakEquity
               && Reporting.ScanAll(Equities(curve)).maximumDrawdown > -config.policy.limits.maxDrawdownFraction
    ensures point.equity > 0.0
    ensures var scan := Reporting.ScanAll(Equities(curve + [point]));
            && 0.0 < scan.peak <= AfterObserve(config.policy, risk, book, point).peakEquity
            && scan.maximumDrawdown > -config.policy.limits.maxDrawdownFraction
  {
    ScanAppend(curve, point);
    var start := if curve == [] then Reporting.Scan(point.equity, 0.0) else Reporting.ScanAll(Equities(curve));
    var peak := MaxReal(start.peak, point.equity);
    DrawdownRatio(point.equity, peak, MaxReal(risk.peakEquity, point.equity), config.policy.limits.maxDrawdownFraction);
  }

  /** A run that never halted reports a drawdown strictly above the negated limit. */
  lemma {:induction false} UnhaltedRunReportsSmallDrawdown(config: Config, bars: seq<Bar>, symbol: string)
    requires ValidConfig(config) && ValidBars(bars) && SingleSymbol(bars, symbol)
    requires Replay(config, bars).Ok? && !Replay(config, bars).value.risk.halted
    ensures DrawdownWithin(config, Replay(config, bars).value)
  {
    if bars != [] {
      var init, bar := bars[..|bars| - 1], bars[|bars| - 1];
      var state := Replay(config, init).value;
      RunKeepsInvariant(config, init, symbol);
      ObservedKeeps(config, state, bar.event);
      var observed := Observed(config, state, bar.event).value;
      TradedKeeps(config, observed, bar);
      UnhaltedRunReportsSmallDrawdown(config, init, symbol);
      ObservedKeepsDrawdown(config, state, bar.event);
      TradedKeepsScan(config, observed, bar);
    }
  }

  /** The parts of an observed state, in terms of the fills of the bar. */
  lemma {:induction false} ObservedParts(config: Config, state: EngineState, event: MarketEvent, filled: EngineState)
    requires ValidConfig(config) && ValidEvent(event) && Coherent(state) && Observed(config, state, event).Ok?
    requires var (fills, remaining) := Match(config.costs, state.broker.pending, event).value;
             filled == BookFills(config, state.(broker := state.broker.(pending := remaining),
                                                tally := state.tally.(lastTimestamp := Some(event.timestamp))), fills)
    ensures var observed, point := Observed(config, state, event).value, Mark(filled.book, event);
            && observed.book == filled.book && observed.risk == AfterObserve(config.policy, filled.risk, filled.book, point)
            && observed.tally.curve == (if InEvaluation(config, event) then filled.tally.curve + [point] else filled.tally.curve)
  {
  }

  lemma {:induction false} ObservedKeepsDrawdown(config: Config, state: EngineState, event: MarketEvent)
    requires ValidConfig(config) && ValidEvent(event) && RunInvariant(state, event.symbol)
    requires DrawdownWithin(config, state)
    requires Observed(config, state, event).Ok? && !Observed(config, state, event).value.risk.halted
    ensures DrawdownWithin(config, Observed(config, state, event).value)
  {
    var (fills, remaining) := Match(config.costs, state.broker.pending, event).value;
    var clocked := state.(broker := state.broker.(pending := remaining),
                          tally := state.tally.(lastTimestamp := Some(event.timestamp)));
    MatchFillsAll(config.costs, state.broker.pending, event);
    BookFillsKeeps(config, clocked, fills, event.symbol);
    var filled := BookFills(config, clocked, fills);
    ObservedParts(config, state, event, filled);
    CurveKeepsDrawdown(config, state, filled, Observed(config, state, event).value, event);
  }

  lemma {:induction false} CurveKeepsDrawdown(config: Config, state: EngineState, filled: EngineState, observed: EngineState,
                                              event: MarketEvent)
    requires ValidConfig(config) && DrawdownWithin(config, state)
    requires filled.tally.curve == state.tally.curve && filled.risk.peakEquity == state.risk.peakEquity
    requires observed.risk == AfterObserve(config.policy, filled.risk, filled.book, Mark(filled.book, event))
    requires observed.tally.curve
          == if InEvaluation(config, event) then filled.tally.curve + [Mark(filled.book, event)] else filled.tally.curve
    requires !observed.risk.halted
    ensures DrawdownWithin(config, observed)
  {
    if InEvaluation(config, event) {
      PointKeepsDrawdown(config, filled.risk, filled.book, filled.tally.curve, Mark(filled.book, event));
    }
  }

  lemma {:induction false} TradedKeepsScan(config: Config, observed: EngineState, bar: Bar)
    requires ValidConfig(config) && ValidBar(bar) && Traded(config, observed, bar).Ok?
    requires DrawdownWithin(config, observed)
    ensures DrawdownWithin(config, Traded(config, observed, bar).value)
  {
  }

  // ----- the engine itself -----

  datatype SimulationResult = SimulationResult(tally: Tally, pendingOrders: nat, canceled: seq<OrderId>,
                                               finalBook: Book, riskHalted: bool, haltReason: Option<HaltReason>)

  class SimulationEngine {
    const config: Config
    const portfolio: Portfolio
    const riskManager: RiskManager
    const broker: SimulatedBroker

    ghost predicate Valid()
      reads portfolio, broker
    {
      && ValidConfig(config)
      && portfolio.Valid() && broker.Valid()
      && riskManager.policy == config.policy && broker.costs == config.costs
    }

    ghost function State(tally: Tally): EngineState
      reads portfolio, riskManager, broker
    {
      EngineState(portfolio.View(), riskManager.View(), broker.View(), tally)
    }

    constructor (config: Config)
      requires ValidConfig(config)
      ensures Valid() && this.config == config
      ensures fresh(portfolio) && fresh(riskManager) && fresh(broker)
      ensures State(Tally(None, 0, 0, 0, 0, [], [])) == Initial(config)
    {
      this.config := config;
      portfolio := new Portfolio(config.initialCash);
      riskManager := new RiskManager(config.policy);
      broker := new SimulatedBroker(config.costs);
    }

    /** One whole run over a finite stream, with the end-of-run cancellation. */
    method Run(bars: seq<Bar>) returns (result: Result<SimulationResult, EngineError>)
      requires Valid() && ValidBars(bars) && State(Tally(None, 0, 0, 0, 0, [], [])) == Initial(config)
      modifies portfolio, riskManager, broker
      ensures bars == [] ==> result == Err(NoEvents)
      ensures bars != [] ==>
                match Replay(config, bars)
                case Err(error) => result == Err(error)
                case Ok(state) =>
                  if state.tally.curve == [] then result == Err(NothingEvaluated)
                  else
                    && result.Ok? && result.value.tally == state.tally
                    && result.value.pendingOrders == 0 == |broker.pending|
                    && |result.value.canceled| == |state.broker.pending|
                    && result.value.finalBook == state.book
                    && result.value.riskHalted == state.risk.halted && result.value.haltReason == state.risk.haltReason
    {
      if bars == [] {
        return Err(NoEvents);
      }
      var tally := Tally(None, 0, 0, 0, 0, [], []);
      for i := 0 to |bars|
        invariant Valid() && Replay(config, bars[..i]) == Ok(State(tally))
      {
        assert bars[..i + 1][..i] == bars[..i];
        var next := ProcessBar(bars[i], tally);
        if next.Err? {
          PrefixRuns(config, bars, i + 1);
          return Err(next.error);
        }
        tally := next.value;
      }
      assert bars[..|bars|] == bars;
      if tally.curve == [] {
        return Err(NothingEvaluated);
      }
      var canceled := broker.CancelAll();
      return Ok(SimulationResult(tally, |broker.pending|, canceled, portfolio.View(),
                                 riskManager.halted, riskManager.haltReason));
    }

    method ProcessBar(bar: Bar, tally: Tally) returns (result: Result<Tally, EngineError>)
      requires Valid() && ValidBar(bar)
      modifies portfolio, riskManager, broker
      ensures Valid()
      ensures match Step(config, old(State(tally)), bar)
              case Err(error) => result == Err(error)
              case Ok(state) => result.Ok? && State(result.value) == state
    {
      result := ObserveEvent(bar.event, tally);
      if result.Ok? {
        result := Trade(bar, result.value);
      }
    }

    method ObserveEvent(event: MarketEvent, tally: Tally) returns (result: Result<Tally, EngineError>)
      requires Valid() && ValidEvent(event)
      modifies portfolio, riskManager, broker
      ensures Valid()
      ensures match Observed(config, old(State(tally)), event)
              case Err(error) => result == Err(error)
              case Ok(state) => result.Ok? && State(result.value) == state
    {
      if tally.lastTimestamp.Some? && event.timestamp <= tally.lastTimestamp.value {
        return Err(ClockNotIncreasing);
      }
      var fills := broker.OnMarketEvent(event);
      if fills.Err? {
        return Err(Broker(fills.error));
      }
      var booked := ApplyFills(fills.value, tally.(lastTimestamp := Some(event.timestamp)));
      var point := portfolio.MarkToMarket(event);
      if point.Err? {
        return Err(Unpriced);
      }
      riskManager.Observe(portfolio, point.value);
      return Ok(booked.(curve := if InEvaluation(config, event) then booked.curve + [point.value] else booked.curve));
    }

    method ApplyFills(fills: seq<Fill>, tally: Tally) returns (after: Tally)
      requires Valid() && forall i :: 0 <= i < |fills| ==> ValidFill(fills[i])
      modifies portfolio, riskManager
      ensures Valid()
      ensures State(after) == BookFills(config, old(State(tally)), fills)
    {
      after := tally;
      for i := 0 to |fills|
        invariant Valid()
        invariant State(after) == BookFills(config, old(State(tally)), fills[..i])
      {
        assert fills[..i + 1][..i] == fills[..i];
        var error := portfolio.ApplyFill(fills[i]);
        if error.Some? {
          after := after.(rejected := after.rejected + 1);
          riskManager.halted := true;
          riskManager.haltReason := Some(PortfolioRejectedFill);
        } else {
          riskManager.ObserveFill(fills[i], portfolio);
          after := after.(fills := after.fills + [fills[i]]);
        }
      }
      assert fills[..|fills|] == fills;
    }

    method Trade(bar: Bar, tally: Tally) returns (result: Result<Tally, EngineError>)
      requires Valid() && ValidBar(bar)
      modifies riskManager, broker
      ensures Valid()
      ensures match Traded(config, old(State(tally)), bar)
              case Err(error) => result == Err(error)
              case Ok(state) => result.Ok? && State(result.value) == state
    {
      if !InEvaluation(config, bar.event) {
        return Ok(tally);
      }
      var target := bar.targetFraction;
      if riskManager.halted && portfolio.PositionQuantity(bar.event.symbol) > 0 && target != 0.0 {
        target := 0.0;
      }
      var intent := OrderForTarget(portfolio.View(), bar.event, target);
      if intent.None? {
        return Ok(tally);
      }
      var decision := riskManager.Evaluate(intent.value, portfolio, Mark(portfolio.View(), bar.event));
      var counted := tally.(intents := tally.intents + 1);
      if !decision.allowed {
        return Ok(counted.(denied := counted.denied + 1));
      }
      var submitted := broker.SubmitOrder(intent.value, decision);
      if submitted.Err? {
        return Err(Broker(submitted.error));
      }
      return Ok(counted.(allowed := counted.allowed + 1));
    }
  }
}
