/** The backtest behind every trial: one engine run over a slice, and the metrics that decide selection. */
module Backtest {
  import opened Prelude
  import opened Portfolio
  import opened Risk
  import opened SimulatedBroker
  import opened Engine
  import opened ExecutionBounds
  import opened Reporting
  import opened WalkForward
  import MovingAverage

  /** What the protocol fixes for every trial. The benchmark is the return of holding the asset, if it has adjusted
      closes. */
  datatype Research = Research(limits: RiskLimits, slippageBps: real, feePerOrder: real, feePerShare: real,
                               initialCash: real, drawdownFloor: real, halted: bool, pendingOrders: int,
                               benchmark: seq<MarketEvent> -> Option<real>)

  // ----- one trial -----

  function Scaled(cost: real, multiplier: real): real { cost * multiplier }

  function CostsOf(r: Research, settings: Settings): BrokerCosts {
    BrokerCosts(Scaled(r.slippageBps, settings.costMultiplier), Scaled(r.feePerOrder, settings.costMultiplier),
                Scaled(r.feePerShare, settings.costMultiplier))
  }

  function PolicyOf(r: Research, settings: Settings): RiskPolicy {
    var costs := CostsOf(r, settings);
    RiskPolicy(r.limits, CostModel(costs.slippageBps, settings.bufferBps, costs.feePerOrder, costs.feePerShare))
  }

  /** The evaluation starts at the event of that offset; earlier events only warm the strategy up. */
  function ConfigOf(r: Research, settings: Settings, evaluationStart: int): Config {
    Config(PolicyOf(r, settings), CostsOf(r, settings), r.initialCash, Some(evaluationStart))
  }

  /** What the configuration and the strategy demand of a candidate. The protocol's grid demands less. */
  predicate ValidCandidate(candidate: Candidate) {
    MovingAverage.ValidParameters(candidate.fastWindow, candidate.slowWindow, candidate.investedFraction)
  }

  predicate InGrid(candidate: Candidate) {
    candidate.fastWindow < candidate.slowWindow
  }

  function Closes(events: seq<MarketEvent>): seq<real> {
    seq(|events|, i requires 0 <= i < |events| => events[i].close)
  }

  /** The strategy's target after the events seen so far. */
  function TargetAfter(candidate: Candidate, seen: seq<MarketEvent>): (target: real)
    requires ValidCandidate(candidate)
    ensures 0.0 <= target <= 1.0
  {
    MovingAverage.TargetFraction(candidate.fastWindow, candidate.slowWindow, candidate.investedFraction, Closes(seen))
  }

  /** The strategy sees every event, but its target counts only from the evaluation start on. */
  function BarsOf(candidate: Candidate, events: seq<MarketEvent>, evaluationStart: int): (bars: seq<Bar>)
    requires ValidCandidate(candidate)
    ensures |bars| == |events|
    ensures forall i :: 0 <= i < |events| ==> bars[i].event == events[i] && 0.0 <= bars[i].targetFraction <= 1.0
  {
    seq(|events|, i requires 0 <= i < |events| =>
      Bar(events[i], if events[i].timestamp >= evaluationStart then TargetAfter(candidate, events[..i + 1]) else 0.0))
  }

  ghost predicate ValidFills(fills: seq<Fill>) {
    forall i :: 0 <= i < |fills| ==> ValidFill(fills[i])
  }

  function TotalReturn(curve: seq<EquityPoint>): real
    requires curve != [] && curve[0].equity != 0.0
  {
    curve[|curve| - 1].equity / curve[0].equity - 1.0
  }

  ghost function TotalEquity(curve: seq<EquityPoint>): real {
    if curve == [] then 0.0 else TotalEquity(curve[..|curve| - 1]) + curve[|curve| - 1].equity
  }

  ghost function AverageEquity(curve: seq<EquityPoint>): real
    requires curve != []
  {
    TotalEquity(curve) / |curve| as real
  }

  function GrossTurnover(fills: seq<Fill>): real {
    if fills == [] then 0.0 else GrossTurnover(fills[..|fills| - 1]) + fills[|fills| - 1].GrossNotional()
  }

  /** The seconds of 365.2425 days; instants count seconds here. */
  const YEAR := 31556952.0

  function Elapsed(curve: seq<EquityPoint>): int
    requires curve != []
  {
    curve[|curve| - 1].timestamp - curve[0].timestamp
  }

  /** Turnover per year of average equity: there is none without elapsed time or positive average equity. */
  ghost function AnnualizedTurnover(fills: seq<Fill>, curve: seq<EquityPoint>): Option<real>
    requires curve != []
  {
    if Elapsed(curve) > 0 && AverageEquity(curve) > 0.0
    then Some(GrossTurnover(fills) / AverageEquity(curve) / (Elapsed(curve) as real / YEAR)) else None
  }

  predicate Eligible(r: Research, benchmark: Option<real>, halted: bool, drawdown: real) {
    benchmark.Some? && halted == r.halted && r.pendingOrders == 0 && drawdown >= r.drawdownFloor
  }

  /** The metrics of a finished run; they raise without an equity point, on a first equity of zero, or on a fill
      history that cannot be grouped. Cancelling at the end of a run leaves no order pending. */
  ghost function MetricsOf(r: Research, state: EngineState, evaluated: seq<MarketEvent>): Option<Metrics>
    requires ValidFills(state.tally.fills)
  {
    var curve := state.tally.curve;
    if curve == [] || curve[0].equity == 0.0 || GroupAll(state.tally.fills).Err? || ExitAll(state.tally.fills).Err? then None
    else
      var benchmark := r.benchmark(evaluated);
      var drawdown := ScanAll(Equities(curve)).maximumDrawdown;
      Some(Metrics(Eligible(r, benchmark, state.risk.halted, drawdown),
                   if benchmark.Some? then TotalReturn(curve) - benchmark.value else 0.0, drawdown,
                   AnnualizedTurnover(state.tally.fills, curve)))
  }

  /** One trial: build the configuration and the strategy, run the engine over the slice, and measure the run. */
  ghost function Backtested(r: Research, events: seq<MarketEvent>, offset: int, candidate: Candidate, settings: Settings)
    : Option<Metrics>
  {
    if !(0 <= offset < |events|) || !ValidCandidate(candidate) then None
    else
      var config := ConfigOf(r, settings, events[offset].timestamp);
      var bars := BarsOf(candidate, events, events[offset].timestamp);
      if !ValidConfig(config) || !ValidBars(bars) then None
      else
        match Replay(config, bars)
        case Err(_) => None
        case Ok(state) =>
          FillsAreValid(config, bars);
          MetricsOf(r, state, events[offset..])
  }

  /** The evaluation runs its trials on the engine. */
  ghost predicate RunsEngine(plan: Plan, r: Research) {
    forall events, offset, candidate, settings ::
      plan.runner(events, offset, candidate, settings) == Backtested(r, events, offset, candidate, settings)
  }

  lemma {:induction false} BookedAreValid(config: Config, state: EngineState, fills: seq<Fill>)
    requires Coherent(state) && ValidFills(fills) && ValidFills(state.tally.fills)
    ensures ValidFills(BookFills(config, state, fills).tally.fills)
  {
    if fills != [] { BookedAreValid(config, state, fills[..|fills| - 1]); }
  }

  lemma {:induction false} FillsAreValid(config: Config, bars: seq<Bar>)
    requires ValidConfig(config) && ValidBars(bars) && Replay(config, bars).Ok?
    ensures ValidFills(Replay(config, bars).value.tally.fills)
  {
    if bars != [] {
      var init, bar := bars[..|bars| - 1], bars[|bars| - 1];
      FillsAreValid(config, init);
      var state := Replay(config, init).value;
      var (fills, remaining) := Match(config.costs, state.broker.pending, bar.event).value;
      BookedAreValid(config, state.(broker := state.broker.(pending := remaining),
                                    tally := state.tally.(lastTimestamp := Some(bar.event.timestamp))), fills);
    }
  }

  // ----- the report of a run never raises -----

  function GroupedQuantity(groups: Groups, symbol: string): int {
    if symbol in groups.active then groups.active[symbol].quantity else 0
  }

  /** The fill history can be grouped both ways, and both groupings hold at least the shares the portfolio holds:
      they may hold more, because a sale that was booked and then refused is not in the history. */
  ghost predicate Reportable(state: EngineState, symbol: string) {
    var fills, held := state.tally.fills, Held(state.book.positions, symbol).quantity;
    && ValidFills(fills)
    && GroupAll(fills).Ok? && held <= GroupedQuantity(GroupAll(fills).value, symbol)
    && ExitAll(fills).Ok? && held <= ExitAll(fills).value.held.quantity
  }

  lemma {:induction false} OneMoreFill(fills: seq<Fill>, fill: Fill, held: int)
    requires ValidFills(fills) && ValidFill(fill)
    requires GroupAll(fills).Ok? && ExitAll(fills).Ok?
    requires held <= GroupedQuantity(GroupAll(fills).value, fill.symbol) && held <= ExitAll(fills).value.held.quantity
    requires fill.side.Sell? ==> fill.quantity <= held
    ensures var change := if fill.side.Buy? then fill.quantity else -fill.quantity;
            && GroupAll(fills + [fill]).Ok? && ExitAll(fills + [fill]).Ok?
            && held + change <= GroupedQuantity(GroupAll(fills + [fill]).value, fill.symbol)
            && held + change <= ExitAll(fills + [fill]).value.held.quantity
  {
    assert (fills + [fill])[..|fills|] == fills;
    TripsAlwaysBalance(fills + [fill]);
  }

  lemma {:induction false} RefusedAddsNoShares(book: Book, fill: Fill)
    requires PositionsOk(book) && ValidFill(fill) && Apply(book, fill).1.Some?
    ensures Held(Apply(book, fill).0.positions, fill.symbol).quantity <= Held(book.positions, fill.symbol).quantity
  {
    ApplyConserves(book, fill);
  }

  lemma {:induction false} BookedIsReportable(config: Config, state: EngineState, fill: Fill)
    requires Coherent(state) && ValidFill(fill) && Reportable(state, fill.symbol)
    ensures Reportable(BookFill(config, state, fill), fill.symbol)
  {
    var held := Held(state.book.positions, fill.symbol).quantity;
    if Apply(state.book, fill).1.Some? {
      RefusedAddsNoShares(state.book, fill);
    } else {
      OneMoreFill(state.tally.fills, fill, held);
    }
  }

  lemma {:induction false} AllBookedAreReportable(config: Config, state: EngineState, fills: seq<Fill>, symbol: string)
    requires Coherent(state) && Reportable(state, symbol)
    requires forall i :: 0 <= i < |fills| ==> ValidFill(fills[i]) && fills[i].symbol == symbol
    ensures Reportable(BookFills(config, state, fills), symbol)
  {
    if fills != [] {
      AllBookedAreReportable(config, state, fills[..|fills| - 1], symbol);
      BookedIsReportable(config, BookFills(config, state, fills[..|fills| - 1]), fills[|fills| - 1]);
    }
  }

  lemma {:induction false} ObservedIsReportable(config: Config, state: EngineState, event: MarketEvent)
    requires ValidConfig(config) && ValidEvent(event) && RunInvariant(state, event.symbol)
    requires Reportable(state, event.symbol) && Observed(config, state, event).Ok?
    ensures Reportable(Observed(config, state, event).value, event.symbol)
  {
    MatchFillsAll(config.costs, state.broker.pending, event);
    var (fills, remaining) := Match(config.costs, state.broker.pending, event).value;
    AllBookedAreReportable(config, state.(broker := state.broker.(pending := remaining),
                                          tally := state.tally.(lastTimestamp := Some(event.timestamp))), fills, event.symbol);
  }

  lemma {:induction false} TradedIsReportable(config: Config, observed: EngineState, bar: Bar)
    requires ValidConfig(config) && ValidBar(bar) && Traded(config, observed, bar).Ok? && Reportable(observed, bar.event.symbol)
    ensures Reportable(Traded(config, observed, bar).value, bar.event.symbol)
  {
  }

  /** After every run of one symbol the round trips and the exit diagnostic of its fills can be computed, even when a sale
      was booked and refused. */
  lemma {:induction false} EveryRunIsReportable(config: Config, bars: seq<Bar>, symbol: string)
    requires ValidConfig(config) && ValidBars(bars) && SingleSymbol(bars, symbol) && Replay(config, bars).Ok?
    ensures Reportable(Replay(config, bars).value, symbol)
  {
    if bars != [] {
      var init, bar := bars[..|bars| - 1], bars[|bars| - 1];
      var state := Replay(config, init).value;
      RunKeepsInvariant(config, init, symbol);
      EveryRunIsReportable(config, init, symbol);
      ObservedIsReportable(config, state, bar.event);
      TradedIsReportable(config, Observed(config, state, bar.event).value, bar);
    }
  }

  // ----- the context only warms up -----

  ghost predicate Increasing(events: seq<MarketEvent>) {
    forall i, j :: 0 <= i < j < |events| ==> events[i].timestamp < events[j].timestamp
  }

  function EventsOf(bars: seq<Bar>): (events: seq<MarketEvent>)
    ensures |events| == |bars| && forall i :: 0 <= i < |bars| ==> events[i] == bars[i].event
  {
    seq(|bars|, i requires 0 <= i < |bars| => bars[i].event)
  }

  lemma {:induction false} StepSetsClock(config: Config, state: EngineState, bar: Bar)
    requires ValidConfig(config) && ValidBar(bar) && RunInvariant(state, bar.event.symbol) && Step(config, state, bar).Ok?
    ensures Step(config, state, bar).value.tally.lastTimestamp == Some(bar.event.timestamp)
  {
    ObservedKeeps(config, state, bar.event);
    TradedKeeps(config, Observed(config, state, bar.event).value, bar);
  }

  lemma {:induction false} ClockIsLastEvent(config: Config, bars: seq<Bar>, symbol: string)
    requires ValidConfig(config) && ValidBars(bars) && SingleSymbol(bars, symbol) && Replay(config, bars).Ok?
    ensures Replay(config, bars).value.tally.lastTimestamp
            == if bars == [] then None else Some(bars[|bars| - 1].event.timestamp)
  {
    if bars != [] {
      var init, bar := bars[..|bars| - 1], bars[|bars| - 1];
      RunKeepsInvariant(config, init, symbol);
      StepSetsClock(config, Replay(config, init).value, bar);
    }
  }

  /** Nothing has been bought, queued or measured, and nothing has halted the run. */
  ghost predicate Untouched(config: Config, state: EngineState) {
    && state.book == NewBook(config.initialCash) && state.broker.pending == [] && state.tally.curve == []
    && state.tally.fills == [] && !state.risk.halted && state.risk.peakEquity <= config.initialCash
  }

  /** The evaluation has started from the initial cash, at instant `first`, and has a point for each of its `n` events. */
  ghost predicate Measured(config: Config, state: EngineState, n: nat, first: int) {
    var curve := state.tally.curve;
    && |curve| == n > 0 && curve[0].equity == config.initialCash && curve[0].timestamp == first
    && Some(curve[n - 1].timestamp) == state.tally.lastTimestamp
  }

  lemma {:induction false} CashHaltsNothing(config: Config, risk: RiskState, point: EquityPoint)
    requires ValidConfig(config) && !risk.halted && risk.peakEquity <= config.initialCash == point.equity
    ensures var observed := AfterObserve(config.policy, risk, NewBook(config.initialCash), point);
            !observed.halted && observed.peakEquity <= config.initialCash && observed.seenIntents == risk.seenIntents
  {
    assert (config.initialCash - config.initialCash) / config.initialCash == 0.0;
  }

  lemma {:induction false} NothingMatches(config: Config, state: EngineState, event: MarketEvent)
    requires ValidConfig(config) && ValidEvent(event) && Coherent(state) && Untouched(config, state)
    requires Observed(config, state, event).Ok?
    ensures var observed := Observed(config, state, event).value;
            && observed.book == state.book && observed.broker.pending == [] && observed.tally.fills == []
            && !observed.risk.halted && observed.risk.peakEquity <= config.initialCash
            && observed.tally.curve == (if InEvaluation(config, event) then [Mark(state.book, event)] else [])
            && observed.tally.lastTimestamp == Some(event.timestamp)
            && Mark(state.book, event).equity == config.initialCash
  {
    var clocked := state.(broker := state.broker.(pending := []),
                          tally := state.tally.(lastTimestamp := Some(event.timestamp)));
    assert Match(config.costs, [], event) == Ok(([], []));
    assert BookFills(config, clocked, []) == clocked;
    assert Value(0, event.close) == 0.0;
    CashHaltsNothing(config, state.risk, Mark(state.book, event));
  }

  lemma {:induction false} ContextStep(config: Config, state: EngineState, bar: Bar)
    requires ValidConfig(config) && ValidBar(bar) && Coherent(state) && Untouched(config, state)
    requires Step(config, state, bar).Ok? && !InEvaluation(config, bar.event)
    ensures Untouched(config, Step(config, state, bar).value)
  {
    NothingMatches(config, state, bar.event);
  }

  lemma {:induction false} FirstMeasuredStep(config: Config, state: EngineState, bar: Bar)
    requires ValidConfig(config) && ValidBar(bar) && Coherent(state) && Untouched(config, state)
    requires Step(config, state, bar).Ok? && InEvaluation(config, bar.event)
    ensures var after := Step(config, state, bar).value;
            Measured(config, after, 1, bar.event.timestamp) && after.tally.fills == [] && !after.risk.halted
  {
    NothingMatches(config, state, bar.event);
    var observed := Observed(config, state, bar.event).value;
    TradedKeepsCurve(config, observed, bar);
    TradedHaltsNothing(config, observed, bar);
  }

  lemma {:induction false} TradedHaltsNothing(config: Config, observed: EngineState, bar: Bar)
    requires ValidConfig(config) && ValidBar(bar) && Traded(config, observed, bar).Ok?
    requires observed.book == NewBook(config.initialCash) && !observed.risk.halted
    requires observed.risk.peakEquity <= config.initialCash == Mark(observed.book, bar.event).equity
    ensures !Traded(config, observed, bar).value.risk.halted
  {
    var target := OrderForTarget(observed.book, bar.event, EffectiveTarget(observed, bar));
    if target.Some? {
      CashHaltsNothing(config, observed.risk.(seenIntents := observed.risk.seenIntents + {target.value.id}),
                       Mark(observed.book, bar.event));
    }
  }

  lemma {:induction false} TradedKeepsCurve(config: Config, observed: EngineState, bar: Bar)
    requires ValidConfig(config) && ValidBar(bar) && Traded(config, observed, bar).Ok?
    ensures Traded(config, observed, bar).value.tally.curve == observed.tally.curve
    ensures Traded(config, observed, bar).value.tally.fills == observed.tally.fills
    ensures Traded(config, observed, bar).value.tally.lastTimestamp == observed.tally.lastTimestamp
  {
  }

  lemma {:induction false} MeasuredStep(config: Config, state: EngineState, bar: Bar, n: nat, first: int)
    requires ValidConfig(config) && ValidBar(bar) && RunInvariant(state, bar.event.symbol) && Measured(config, state, n, first)
    requires Step(config, state, bar).Ok? && InEvaluation(config, bar.event)
    ensures Measured(config, Step(config, state, bar).value, n + 1, first)
  {
    var event := bar.event;
    MatchFillsAll(config.costs, state.broker.pending, event);
    var (fills, remaining) := Match(config.costs, state.broker.pending, event).value;
    var clocked := state.(broker := state.broker.(pending := remaining),
                          tally := state.tally.(lastTimestamp := Some(event.timestamp)));
    BookFillsKeeps(config, clocked, fills, event.symbol);
    ObservedParts(config, state, event, BookFills(config, clocked, fills));
    TradedKeepsCurve(config, Observed(config, state, event).value, bar);
    StepSetsClock(config, state, bar);
  }

  /** Where `n` events have led a run whose evaluation starts with event number `offset`, at instant `first`: until then
      nothing is bought or measured; from then on every event has an equity point, the first of them is the initial cash,
      and no fill or halt comes before the second. */
  ghost predicate WarmedUp(config: Config, state: EngineState, n: nat, offset: nat, first: int) {
    && (n <= offset ==> Untouched(config, state))
    && (n == offset + 1 ==> state.tally.fills == [] && !state.risk.halted)
    && (n > offset ==> Measured(config, state, n - offset, first))
  }

  lemma {:induction false} WarmUpStep(config: Config, state: EngineState, bar: Bar, n: nat, offset: nat, first: int)
    requires ValidConfig(config) && ValidBar(bar) && RunInvariant(state, bar.event.symbol) && WarmedUp(config, state, n, offset, first)
    requires Step(config, state, bar).Ok? && (InEvaluation(config, bar.event) <==> n >= offset)
    requires n == offset ==> bar.event.timestamp == first
    ensures WarmedUp(config, Step(config, state, bar).value, n + 1, offset, first)
  {
    if n < offset {
      ContextStep(config, state, bar);
    } else if n == offset {
      FirstMeasuredStep(config, state, bar);
    } else {
      MeasuredStep(config, state, bar, n - offset, first);
    }
  }

  /** The context only warms the strategy up. */
  lemma {:induction false} ContextOnlyWarmsUp(config: Config, bars: seq<Bar>, symbol: string, offset: nat, first: int)
    requires ValidConfig(config) && ValidBars(bars) && SingleSymbol(bars, symbol) && Replay(config, bars).Ok?
    requires forall i :: 0 <= i < |bars| ==> (InEvaluation(config, bars[i].event) <==> i >= offset)
    requires |bars| > offset ==> bars[offset].event.timestamp == first
    ensures WarmedUp(config, Replay(config, bars).value, |bars|, offset, first)
  {
    if bars != [] {
      var init, bar := bars[..|bars| - 1], bars[|bars| - 1];
      RunKeepsInvariant(config, init, symbol);
      ContextOnlyWarmsUp(config, init, symbol, offset, first);
      assert InEvaluation(config, bar.event) <==> |init| >= offset;
      WarmUpStep(config, Replay(config, init).value, bar, |init|, offset, first);
    }
  }

  // ----- a run over sound data never raises -----

  /** Slippage leaves something of the open, once rounded. */
  predicate Fillable(costs: BrokerCosts, event: MarketEvent) {
    Quantize(event.open - Slippage(event.open, costs.slippageBps)) > 0.0
  }

  lemma {:induction false} SlippageNonNegative(open: real, basisPoints: real)
    requires open >= 0.0 && basisPoints >= 0.0
    ensures Slippage(open, basisPoints) >= 0.0
  {
  }

  /** An order is filled at this open on either side if its sale would be. */
  lemma {:induction false} FillableFills(costs: BrokerCosts, order: PendingOrder, event: MarketEvent)
    requires ValidCosts(costs) && ValidOrder(order) && ValidEvent(event) && Fillable(costs, event)
    ensures FillFor(costs, order, event).Ok?
  {
    var low := event.open - Slippage(event.open, costs.slippageBps);
    var high := event.open + Slippage(event.open, costs.slippageBps);
    SlippageNonNegative(event.open, costs.slippageBps);
    QuantizeMonotone(low, high);
    QuantizedPositive(low);
  }

  lemma {:induction false} QuantizedPositive(value: real)
    requires Quantize(value) > 0.0
    ensures value > 0.0
  {
    assert Quantize(0.0) == 0.0;
    if value <= 0.0 { QuantizeMonotone(value, 0.0); }
  }

  lemma {:induction false} FillableMatches(costs: BrokerCosts, pending: seq<PendingOrder>, event: MarketEvent)
    requires ValidCosts(costs) && ValidPending(pending) && ValidEvent(event) && Fillable(costs, event)
    ensures Match(costs, pending, event).Ok?
  {
    if pending != [] {
      FillableMatches(costs, pending[..|pending| - 1], event);
      FillableFills(costs, pending[|pending| - 1], event);
    }
  }

  ghost predicate FillableBars(config: Config, bars: seq<Bar>) {
    forall i :: 0 <= i < |bars| ==> Fillable(config.costs, bars[i].event)
  }

  /** With an increasing clock and opens that slippage does not consume, a run of one symbol never raises. */
  lemma {:induction false} SoundRunNeverRaises(config: Config, bars: seq<Bar>, symbol: string)
    requires ValidConfig(config) && ValidBars(bars) && SingleSymbol(bars, symbol)
    requires Increasing(EventsOf(bars)) && FillableBars(config, bars)
    ensures Replay(config, bars).Ok?
  {
    if bars != [] {
      var init, bar := bars[..|bars| - 1], bars[|bars| - 1];
      SoundPrefix(config, bars);
      SoundRunNeverRaises(config, init, symbol);
      var state := Replay(config, init).value;
      RunKeepsInvariant(config, init, symbol);
      ClockIsLastEvent(config, init, symbol);
      FillableMatches(config.costs, state.broker.pending, bar.event);
      SoundStep(config, state, bar);
    }
  }

  lemma {:induction false} SoundPrefix(config: Config, bars: seq<Bar>)
    requires bars != [] && Increasing(EventsOf(bars)) && FillableBars(config, bars)
    ensures var init := bars[..|bars| - 1];
            && Increasing(EventsOf(init)) && FillableBars(config, init) && Fillable(config.costs, bars[|bars| - 1].event)
            && (init != [] ==> init[|init| - 1].event.timestamp < bars[|bars| - 1].event.timestamp)
  {
    var events, init := EventsOf(bars), EventsOf(bars[..|bars| - 1]);
    forall i, j | 0 <= i < j < |init| ensures init[i].timestamp < init[j].timestamp {
      assert init[i] == events[i] && init[j] == events[j];
    }
    if |bars| > 1 { assert events[|bars| - 2].timestamp < events[|bars| - 1].timestamp; }
  }

  lemma {:induction false} SoundStep(config: Config, state: EngineState, bar: Bar)
    requires ValidConfig(config) && ValidBar(bar) && RunInvariant(state, bar.event.symbol)
    requires state.tally.lastTimestamp.Some? ==> state.tally.lastTimestamp.value < bar.event.timestamp
    requires Match(config.costs, state.broker.pending, bar.event).Ok?
    ensures Step(config, state, bar).Ok?
  {
    if Observed(config, state, bar.event).Ok? {
      ObservedKeeps(config, state, bar.event);
      TradedKeeps(config, Observed(config, state, bar.event).value, bar);
    } else {
      ObservedErrors(config, state, bar.event);
    }
  }

  // ----- the whole evaluation, run on the engine -----

  ghost predicate ValidResearch(r: Research) {
    ValidPolicy(RiskPolicy(r.limits, CostModel(r.slippageBps, 0.0, r.feePerOrder, r.feePerShare))) && r.initialCash > 0.0
  }

  /** Events of one symbol, in order, whose opens survive the slippage of these settings. */
  ghost predicate Sound(r: Research, settings: Settings, events: seq<MarketEvent>, symbol: string) {
    && settings.costMultiplier >= 0.0 && settings.bufferBps >= 0.0 && Increasing(events)
    && forall i :: 0 <= i < |events| ==>
         ValidEvent(events[i]) && events[i].symbol == symbol && Fillable(CostsOf(r, settings), events[i])
  }

  lemma {:induction false} SoundSlice(r: Research, settings: Settings, events: seq<MarketEvent>, symbol: string, a: int, b: int)
    requires Sound(r, settings, events, symbol) && 0 <= a <= b <= |events|
    ensures Sound(r, settings, events[a..b], symbol)
  {
    forall i | 0 <= i < b - a ensures events[a..b][i] == events[a + i] {
    }
  }

  lemma {:induction false} ScaledNonNegative(cost: real, multiplier: real)
    requires cost >= 0.0 && multiplier >= 0.0
    ensures Scaled(cost, multiplier) >= 0.0
  {
  }

  lemma {:induction false} ConfigIsValid(r: Research, settings: Settings, start: int)
    requires ValidResearch(r) && settings.costMultiplier >= 0.0 && settings.bufferBps >= 0.0
    ensures ValidConfig(ConfigOf(r, settings, start))
  {
    ScaledNonNegative(r.slippageBps, settings.costMultiplier);
    ScaledNonNegative(r.feePerOrder, settings.costMultiplier);
    ScaledNonNegative(r.feePerShare, settings.costMultiplier);
  }

  /** What a trial runs is a valid run of one symbol. */
  lemma {:induction false} TrialIsValid(r: Research, settings: Settings, events: seq<MarketEvent>, symbol: string, start: int,
                                        candidate: Candidate)
    requires ValidResearch(r) && Sound(r, settings, events, symbol) && ValidCandidate(candidate)
    ensures var config, bars := ConfigOf(r, settings, start), BarsOf(candidate, events, start);
            && ValidConfig(config) && ValidBars(bars) && SingleSymbol(bars, symbol)
            && Increasing(EventsOf(bars)) && FillableBars(config, bars)
  {
    ConfigIsValid(r, settings, start);
    assert EventsOf(BarsOf(candidate, events, start)) == events;
  }

  lemma {:induction false} EvaluatedFromOffset(r: Research, settings: Settings, events: seq<MarketEvent>, offset: int, candidate: Candidate)
    requires Increasing(events) && 0 <= offset < |events| && ValidCandidate(candidate)
    ensures var start := events[offset].timestamp;
            var config, bars := ConfigOf(r, settings, start), BarsOf(candidate, events, start);
            forall i :: 0 <= i < |bars| ==> (InEvaluation(config, bars[i].event) <==> i >= offset)
  {
    forall i | 0 <= i < |events| ensures events[i].timestamp >= events[offset].timestamp <==> i >= offset {
      assert i < offset ==> events[i].timestamp < events[offset].timestamp;
      assert offset < i ==> events[offset].timestamp < events[i].timestamp;
    }
  }

  ghost predicate PositiveCurve(curve: seq<EquityPoint>) {
    forall i :: 0 <= i < |curve| ==> curve[i].equity > 0.0
  }

  lemma {:induction false} ObservedPointIsPositive(config: Config, state: EngineState, event: MarketEvent)
    requires ValidConfig(config) && ValidEvent(event) && RunInvariant(state, event.symbol) && PositiveCurve(state.tally.curve)
    requires Observed(config, state, event).Ok? && !Observed(config, state, event).value.risk.halted
    ensures PositiveCurve(Observed(config, state, event).value.tally.curve)
  {
    MatchFillsAll(config.costs, state.broker.pending, event);
    var (fills, remaining) := Match(config.costs, state.broker.pending, event).value;
    var clocked := state.(broker := state.broker.(pending := remaining),
                          tally := state.tally.(lastTimestamp := Some(event.timestamp)));
    BookFillsKeeps(config, clocked, fills, event.symbol);
    ObservedParts(config, state, event, BookFills(config, clocked, fills));
  }

  /** A run that never halted only ever had positive equity. */
  lemma {:induction false} UnhaltedCurveIsPositive(config: Config, bars: seq<Bar>, symbol: string)
    requires ValidConfig(config) && ValidBars(bars) && SingleSymbol(bars, symbol)
    requires Replay(config, bars).Ok? && !Replay(config, bars).value.risk.halted
    ensures PositiveCurve(Replay(config, bars).value.tally.curve)
  {
    if bars != [] {
      var init, bar := bars[..|bars| - 1], bars[|bars| - 1];
      var state := Replay(config, init).value;
      RunKeepsInvariant(config, init, symbol);
      ObservedKeeps(config, state, bar.event);
      var observed := Observed(config, state, bar.event).value;
      TradedKeeps(config, observed, bar);
      TradedKeepsCurve(config, observed, bar);
      UnhaltedCurveIsPositive(config, init, symbol);
      ObservedPointIsPositive(config, state, bar.event);
    }
  }

  lemma {:induction false} PositiveTotal(curve: seq<EquityPoint>)
    requires PositiveCurve(curve) && curve != []
    ensures TotalEquity(curve) > 0.0
  {
    if |curve| > 1 { PositiveTotal(curve[..|curve| - 1]); }
  }

  lemma {:induction false} PositiveAverage(curve: seq<EquityPoint>)
    requires PositiveCurve(curve) && curve != []
    ensures AverageEquity(curve) > 0.0
  {
    PositiveTotal(curve);
  }

  /** What is known of the run behind a trial. */
  ghost predicate RunOfTrial(config: Config, state: EngineState, events: seq<MarketEvent>, symbol: string, offset: nat)
    requires offset < |events|
  {
    && config.initialCash > 0.0 && WarmedUp(config, state, |events|, offset, events[offset].timestamp)
    && state.tally.lastTimestamp == Some(events[|events| - 1].timestamp) && Reportable(state, symbol)
    && (!state.risk.halted ==> PositiveCurve(state.tally.curve) && DrawdownWithin(config, state))
  }

  /** The engine run of a trial over sound data. */
  lemma {:induction false} TrialRuns(r: Research, settings: Settings, events: seq<MarketEvent>, symbol: string, offset: int,
                                     candidate: Candidate) returns (state: EngineState)
    requires ValidResearch(r) && Sound(r, settings, events, symbol) && 0 <= offset < |events| && ValidCandidate(candidate)
    ensures var start := events[offset].timestamp;
            var config, bars := ConfigOf(r, settings, start), BarsOf(candidate, events, start);
            ValidConfig(config) && ValidBars(bars) && Replay(config, bars) == Ok(state)
    ensures RunOfTrial(ConfigOf(r, settings, events[offset].timestamp), state, events, symbol, offset)
    ensures Backtested(r, events, offset, candidate, settings) == MetricsOf(r, state, events[offset..])
  {
    var start := events[offset].timestamp;
    var config, bars := ConfigOf(r, settings, start), BarsOf(candidate, events, start);
    TrialIsValid(r, settings, events, symbol, start, candidate);
    SoundRunNeverRaises(config, bars, symbol);
    state := Replay(config, bars).value;
    EvaluatedFromOffset(r, settings, events, offset, candidate);
    ContextOnlyWarmsUp(config, bars, symbol, offset, start);
    ClockIsLastEvent(config, bars, symbol);
    EveryRunIsReportable(config, bars, symbol);
    if !state.risk.halted {
      UnhaltedRunReportsSmallDrawdown(config, bars, symbol);
      UnhaltedCurveIsPositive(config, bars, symbol);
    }
  }

  ghost predicate WithinLimit(r: Research, metrics: Metrics) {
    metrics.eligible ==> metrics.drawdown > -r.limits.maxDrawdownFraction
  }

  /** The metrics of a run behind a trial: they exist, and the turnover is missing exactly when a single event is evaluated
      or the average equity is not positive. An eligible run that was never halted has positive equity throughout. */
  lemma {:induction false} RunMetrics(r: Research, config: Config, state: EngineState, events: seq<MarketEvent>, symbol: string,
                                      offset: nat)
    requires Increasing(events) && offset < |events| && config.policy.limits == r.limits
    requires RunOfTrial(config, state, events, symbol, offset)
    ensures state.tally.curve != [] && MetricsOf(r, state, events[offset..]).Some?
    ensures var metrics := MetricsOf(r, state, events[offset..]).value;
            && (metrics.turnover.None? <==> |events| - offset == 1 || AverageEquity(state.tally.curve) <= 0.0)
            && (metrics.eligible && !r.halted ==> WithinLimit(r, metrics) && AverageEquity(state.tally.curve) > 0.0)
  {
    var curve := state.tally.curve;
    assert Measured(config, state, |events| - offset, events[offset].timestamp);
    assert Elapsed(curve) == events[|events| - 1].timestamp - events[offset].timestamp;
    if offset < |events| - 1 { assert events[offset].timestamp < events[|events| - 1].timestamp; }
    if !state.risk.halted { PositiveAverage(curve); }
  }

  /** Over sound data a trial raises exactly for a candidate that the configuration refuses. */
  lemma {:induction false} TrialRaisesExactly(r: Research, settings: Settings, events: seq<MarketEvent>, symbol: string, offset: int,
                                              candidate: Candidate)
    requires ValidResearch(r) && Sound(r, settings, events, symbol) && 0 <= offset < |events|
    ensures Backtested(r, events, offset, candidate, settings).Some? <==> ValidCandidate(candidate)
  {
    if ValidCandidate(candidate) {
      var state := TrialRuns(r, settings, events, symbol, offset, candidate);
      RunMetrics(r, ConfigOf(r, settings, events[offset].timestamp), state, events, symbol, offset);
    }
  }

  /** The grid only compares the two windows: windows 1 and 2 pass it, and every trial of that candidate raises. */
  lemma {:induction false} GridAdmitsRaisingCandidate(r: Research, settings: Settings, events: seq<MarketEvent>, offset: int, id: int)
    ensures var candidate := Candidate(id, 1, 2, 0.5);
            InGrid(candidate) && !ValidCandidate(candidate) && Backtested(r, events, offset, candidate, settings).None?
  {
  }

  /** A trial over sound data has no turnover exactly when it evaluates a single event, or its average equity is not
      positive. */
  lemma {:induction false} TurnoverMissingExactly(r: Research, settings: Settings, events: seq<MarketEvent>, symbol: string, offset: int,
                                                  candidate: Candidate) returns (state: EngineState)
    requires ValidResearch(r) && Sound(r, settings, events, symbol) && 0 <= offset < |events| && ValidCandidate(candidate)
    ensures var start := events[offset].timestamp;
            var config, bars := ConfigOf(r, settings, start), BarsOf(candidate, events, start);
            ValidConfig(config) && ValidBars(bars) && Replay(config, bars) == Ok(state)
    ensures state.tally.curve != []
    ensures Backtested(r, events, offset, candidate, settings).Some?
    ensures Backtested(r, events, offset, candidate, settings).value.turnover.None? <==>
            |events| - offset == 1 || AverageEquity(state.tally.curve) <= 0.0
  {
    state := TrialRuns(r, settings, events, symbol, offset, candidate);
    RunMetrics(r, ConfigOf(r, settings, events[offset].timestamp), state, events, symbol, offset);
  }

  /** Where selection demands an unhalted run, an eligible trial has a drawdown above the negated limit, and it lacks a
      turnover exactly when it evaluates a single event. */
  ghost predicate EligibleFacts(r: Research, metrics: Metrics, evaluated: int) {
    metrics.eligible ==> WithinLimit(r, metrics) && (metrics.turnover.Some? <==> evaluated > 1)
  }

  lemma {:induction false} EligibleStaysWithinDrawdown(r: Research, settings: Settings, events: seq<MarketEvent>, symbol: string,
                                                       offset: int, candidate: Candidate)
    requires ValidResearch(r) && Sound(r, settings, events, symbol) && 0 <= offset < |events| && !r.halted
    ensures var metrics := Backtested(r, events, offset, candidate, settings);
            && (metrics.Some? <==> ValidCandidate(candidate))
            && (metrics.Some? ==> EligibleFacts(r, metrics.value, |events| - offset))
  {
    if ValidCandidate(candidate) {
      var state := TrialRuns(r, settings, events, symbol, offset, candidate);
      RunMetrics(r, ConfigOf(r, settings, events[offset].timestamp), state, events, symbol, offset);
    }
  }

  /** A trial that evaluates a single event has not traded: where selection demands an unhalted run, no pending order, a
      known benchmark and a floor that is not positive, it is eligible. */
  lemma {:induction false} SingleEventIsEligible(r: Research, settings: Settings, events: seq<MarketEvent>, symbol: string,
                                                 offset: int, candidate: Candidate)
    requires ValidResearch(r) && Sound(r, settings, events, symbol) && 0 <= offset == |events| - 1 && ValidCandidate(candidate)
    requires !r.halted && r.pendingOrders == 0 && r.drawdownFloor <= 0.0 && r.benchmark(events[offset..]).Some?
    ensures var metrics := Backtested(r, events, offset, candidate, settings);
            metrics.Some? && metrics.value.eligible && metrics.value.turnover.None?
  {
    var state := TrialRuns(r, settings, events, symbol, offset, candidate);
    RunMetrics(r, ConfigOf(r, settings, events[offset].timestamp), state, events, symbol, offset);
    var equities := Equities(state.tally.curve);
    assert |equities| == 1 && equities[0] > 0.0;
    ScanAtMostZero(equities);
    SinglePointScan(equities);
  }

  lemma {:induction false} SinglePointScan(equities: seq<real>)
    requires |equities| == 1 && equities[0] > 0.0
    ensures ScanAll(equities).maximumDrawdown == 0.0
  {
  }

  // ----- the folds of the evaluation, run on the engine -----

  /** The data is sound under every setting the plan uses. */
  ghost predicate SoundPlan(r: Research, plan: Plan, symbol: string) {
    forall settings :: plan.Uses(settings) ==> Sound(r, settings, plan.events, symbol)
  }

  ghost predicate AllValid(candidates: seq<Candidate>) {
    forall c :: c in candidates ==> ValidCandidate(c)
  }

  lemma {:induction false} BacktestsNeverRaise(r: Research, plan: Plan, symbol: string)
    requires ValidResearch(r) && RunsEngine(plan, r) && SoundPlan(r, plan, symbol) && AllValid(plan.candidates)
    ensures plan.BacktestsRun()
  {
    forall a, b, offset, candidate, settings |
      0 <= a < b <= |plan.events| && 0 < offset < b - a && candidate in plan.candidates && plan.Uses(settings)
      ensures plan.runner(plan.events[a..b], offset, candidate, settings).Some?
    {
      SoundSlice(r, settings, plan.events, symbol, a, b);
      TrialRaisesExactly(r, settings, plan.events[a..b], symbol, offset, candidate);
    }
  }

  lemma {:induction false} InvalidCandidateRaises(r: Research, plan: Plan, start: int, c: Candidate)
    requires RunsEngine(plan, r) && c in plan.candidates && !ValidCandidate(c)
    ensures !plan.Validates(start)
  {
    var i :| 0 <= i < |plan.candidates| && plan.candidates[i] == c;
    assert ValidationSlice(plan.events, plan.windows, plan.base, plan.runner, start, plan.candidates[i]).Err?;
  }

  lemma {:induction false} FoldFits(plan: Plan, k: nat)
    requires ValidWindows(plan.windows)
    requires k < FoldCount(PreHoldoutEnd(plan.events, plan.windows), FoldSpan(plan.windows), plan.windows.step)
    ensures plan.Fits(plan.FoldStart(k))
  {
    FoldFitsExactly(PreHoldoutEnd(plan.events, plan.windows), FoldSpan(plan.windows), plan.windows.step, k);
    StepsMonotone(0, k, plan.windows.step);
  }

  /** A fold of the real evaluation over sound data raises exactly when a candidate is not valid, an eligible candidate
      has no turnover, or a candidate is eligible and a robustness offset would start before the data. */
  lemma {:induction false} FoldRaisesExactly(r: Research, plan: Plan, symbol: string, k: nat)
    requires ValidResearch(r) && RunsEngine(plan, r) && SoundPlan(r, plan, symbol) && ValidWindows(plan.windows)
    requires k < FoldCount(PreHoldoutEnd(plan.events, plan.windows), FoldSpan(plan.windows), plan.windows.step)
    ensures var start := plan.FoldStart(k);
            && plan.Fits(start)
            && (plan.Validates(start) <==> AllValid(plan.candidates))
            && (plan.FoldRuns(start) <==>
                  && AllValid(plan.candidates)
                  && (forall c :: plan.EligibleAt(start, c) ==> plan.ValidationRun(start, c).value.turnover.Some?)
                  && ((exists c :: plan.EligibleAt(start, c)) ==> plan.OffsetsStartInData(start)))
  {
    FoldFits(plan, k);
    if AllValid(plan.candidates) {
      BacktestsNeverRaise(r, plan, symbol);
      FoldRunsExactly(plan, plan.FoldStart(k));
    } else {
      var c :| c in plan.candidates && !ValidCandidate(c);
      InvalidCandidateRaises(r, plan, plan.FoldStart(k), c);
    }
  }

  /** What is known of every eligible run over a slice of the data. */
  ghost predicate SlicesStayWithin(r: Research, plan: Plan) {
    forall a, b, offset, candidate :: 0 <= a < b <= |plan.events| && 0 <= offset < b - a ==>
      Within(r, plan.runner(plan.events[a..b], offset, candidate, plan.base), b - a - offset)
  }

  ghost predicate Within(r: Research, metrics: Option<Metrics>, evaluated: int) {
    metrics.Some? ==> EligibleFacts(r, metrics.value, evaluated)
  }

  lemma {:induction false} EverySliceStaysWithin(r: Research, plan: Plan, symbol: string)
    requires ValidResearch(r) && !r.halted && RunsEngine(plan, r) && Sound(r, plan.base, plan.events, symbol)
    ensures SlicesStayWithin(r, plan)
  {
    forall a, b, offset, candidate | 0 <= a < b <= |plan.events| && 0 <= offset < b - a
      ensures Within(r, plan.runner(plan.events[a..b], offset, candidate, plan.base), b - a - offset)
    {
      SoundSlice(r, plan.base, plan.events, symbol, a, b);
      EligibleStaysWithinDrawdown(r, plan.base, plan.events[a..b], symbol, offset, candidate);
    }
  }

  lemma {:induction false} EligibleTurnoverExactly(r: Research, plan: Plan, start: int, c: Candidate)
    requires SlicesStayWithin(r, plan) && plan.Fits(start) && plan.EligibleAt(start, c)
    ensures plan.ValidationRun(start, c).value.turnover.Some? <==> plan.windows.validation > 1
  {
    var end := start + plan.windows.train + plan.windows.validation;
    assert Within(r, plan.runner(plan.events[start..end], plan.windows.train, c, plan.base), end - start - plan.windows.train);
  }

  /** Where selection demands unhalted runs, the missing turnover is a matter of the windows alone. */
  lemma {:induction false} UnhaltedFoldRaisesExactly(r: Research, plan: Plan, symbol: string, k: nat)
    requires ValidResearch(r) && RunsEngine(plan, r) && SoundPlan(r, plan, symbol) && ValidWindows(plan.windows) && !r.halted
    requires k < FoldCount(PreHoldoutEnd(plan.events, plan.windows), FoldSpan(plan.windows), plan.windows.step)
    ensures var start := plan.FoldStart(k);
            && plan.Fits(start)
            && (plan.FoldRuns(start) <==>
                  && AllValid(plan.candidates)
                  && ((exists c :: plan.EligibleAt(start, c)) ==>
                        plan.windows.validation > 1 && plan.OffsetsStartInData(start)))
  {
    var start := plan.FoldStart(k);
    FoldRaisesExactly(r, plan, symbol, k);
    assert plan.Uses(plan.base);
    EverySliceStaysWithin(r, plan, symbol);
    forall c | plan.EligibleAt(start, c)
      ensures plan.ValidationRun(start, c).value.turnover.Some? <==> plan.windows.validation > 1
    {
      EligibleTurnoverExactly(r, plan, start, c);
    }
  }

  /** With a validation window of one bar every fold over sound data raises, whatever the candidates. */
  lemma {:induction false} OneValidationBarRaises(r: Research, plan: Plan, symbol: string, k: nat)
    requires ValidResearch(r) && RunsEngine(plan, r) && SoundPlan(r, plan, symbol) && ValidWindows(plan.windows)
    requires k < FoldCount(PreHoldoutEnd(plan.events, plan.windows), FoldSpan(plan.windows), plan.windows.step)
    requires plan.windows.validation == 1 && plan.candidates != [] && OrdinarySelection(r)
    ensures !plan.FoldRuns(plan.FoldStart(k))
  {
    var start, c := plan.FoldStart(k), plan.candidates[0];
    UnhaltedFoldRaisesExactly(r, plan, symbol, k);
    if AllValid(plan.candidates) {
      assert plan.Uses(plan.base);
      EverySingleEventIsEligible(r, plan, symbol);
      SingleBarIsEligible(plan, start, c);
    }
  }

  /** Selection demands an unhalted run and no pending order, and leaves a flat run eligible. */
  ghost predicate OrdinarySelection(r: Research) {
    !r.halted && r.pendingOrders == 0 && r.drawdownFloor <= 0.0 && forall evaluated :: r.benchmark(evaluated).Some?
  }

  ghost predicate SingleEventsEligible(plan: Plan) {
    forall a, b, offset, candidate :: 0 <= a < b <= |plan.events| && 0 <= offset == b - a - 1 && ValidCandidate(candidate) ==>
      EligibleWithoutTurnover(plan.runner(plan.events[a..b], offset, candidate, plan.base))
  }

  ghost predicate EligibleWithoutTurnover(metrics: Option<Metrics>) {
    metrics.Some? && metrics.value.eligible && metrics.value.turnover.None?
  }

  lemma {:induction false} EverySingleEventIsEligible(r: Research, plan: Plan, symbol: string)
    requires ValidResearch(r) && OrdinarySelection(r) && RunsEngine(plan, r) && Sound(r, plan.base, plan.events, symbol)
    ensures SingleEventsEligible(plan)
  {
    forall a, b, offset, candidate | 0 <= a < b <= |plan.events| && 0 <= offset == b - a - 1 && ValidCandidate(candidate)
      ensures EligibleWithoutTurnover(plan.runner(plan.events[a..b], offset, candidate, plan.base))
    {
      SoundSlice(r, plan.base, plan.events, symbol, a, b);
      SingleEventIsEligible(r, plan.base, plan.events[a..b], symbol, offset, candidate);
    }
  }

  lemma {:induction false} SingleBarIsEligible(plan: Plan, start: int, c: Candidate)
    requires SingleEventsEligible(plan) && plan.Fits(start)
    requires plan.windows.validation == 1 && c in plan.candidates && ValidCandidate(c)
    ensures plan.EligibleAt(start, c)
  {
    var end := start + plan.windows.train + plan.windows.validation;
    assert EligibleWithoutTurnover(plan.runner(plan.events[start..end], plan.windows.train, c, plan.base));
  }

  lemma {:induction false} ValidationStaysWithin(r: Research, plan: Plan, start: int, candidate: Candidate)
    requires SlicesStayWithin(r, plan)
    requires ValidationSlice(plan.events, plan.windows, plan.base, plan.runner, start, candidate).Ok?
    ensures WithinLimit(r, ValidationSlice(plan.events, plan.windows, plan.base, plan.runner, start, candidate).value.metrics)
  {
    var w := plan.windows;
    var end := start + w.train + w.validation;
    assert Within(r, plan.runner(plan.events[start..end], start + w.train - start, candidate, plan.base), end - start - w.train);
  }

  /** Every candidate that a fold selects stayed within the drawdown limit on its validation window. */
  lemma {:induction false} SelectedStaysWithinDrawdown(r: Research, plan: Plan, symbol: string, start: int)
    requires ValidResearch(r) && !r.halted && RunsEngine(plan, r) && Sound(r, plan.base, plan.events, symbol)
    requires plan.Selects(start) && plan.Selection(start).Some?
    ensures exists i :: 0 <= i < |plan.candidates| && plan.candidates[i] == plan.Selection(start).value
                        && plan.Validations(start)[i].metrics.drawdown > -r.limits.maxDrawdownFraction
  {
    EverySliceStaysWithin(r, plan, symbol);
    SelectedStaysWithin(r, plan, start);
  }

  lemma {:induction false} SelectedStaysWithin(r: Research, plan: Plan, start: int)
    requires SlicesStayWithin(r, plan) && plan.Selects(start) && plan.Selection(start).Some?
    ensures exists i :: 0 <= i < |plan.candidates| && plan.candidates[i] == plan.Selection(start).value
                        && plan.Validations(start)[i].metrics.drawdown > -r.limits.maxDrawdownFraction
  {
    var trials := plan.Validations(start);
    BestOfComparable(trials);
    var i :| 0 <= i < |trials| && trials[i] == Select(trials).value;
    ValidationStaysWithin(r, plan, start, plan.candidates[i]);
    assert ValidationSlice(plan.events, plan.windows, plan.base, plan.runner, start, plan.candidates[i]) == Ok(trials[i]);
  }
}
