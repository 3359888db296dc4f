/** The walk-forward evaluation of one asset: folds, selection on validation only, and the locked holdout. */
module WalkForward {
  import opened Prelude
  import opened Portfolio

  datatype Windows = Windows(train: int, validation: int, test: int, step: int, holdout: int)

  predicate ValidWindows(w: Windows) {
    w.train > 0 && w.validation > 0 && w.test > 0 && w.step > 0 && w.holdout > 0
  }

  /** The frozen candidate; identifiers are compared as integers in place of strings. */
  datatype Candidate = Candidate(id: int, fastWindow: int, slowWindow: int, investedFraction: real)

  datatype Settings = Settings(costMultiplier: real, bufferBps: real)

  /** The annualized turnover is missing when the evaluation has no elapsed time or no positive average equity. */
  datatype Metrics = Metrics(eligible: bool, excess: real, drawdown: real, turnover: Option<real>)

  /** A deterministic engine run over one slice: the events, the offset where evaluation starts, the candidate
      and the execution settings decide the metrics, or that the run raises. */
  type Runner = (seq<MarketEvent>, int, Candidate, Settings) -> Option<Metrics>

  datatype Stage = Validation | Test | Robustness

  datatype Trial = Trial(stage: Stage, candidate: Candidate, settings: Settings,
                         contextStart: int, evaluationStart: int, evaluationEnd: int, metrics: Metrics)

  datatype Fold = Fold(number: nat, start: int, selected: Option<Candidate>)

  datatype EvaluationError = InvalidSlice | RunFailed | TurnoverMissing

  // ----- slices and folds -----

  predicate SliceOk(length: int, contextStart: int, evaluationStart: int, evaluationEnd: int) {
    0 <= contextStart < evaluationStart < evaluationEnd <= length
  }

  function RunSlice(events: seq<MarketEvent>, runner: Runner, stage: Stage, candidate: Candidate, settings: Settings,
                    contextStart: int, evaluationStart: int, evaluationEnd: int): Result<Trial, EvaluationError> {
    if !SliceOk(|events|, contextStart, evaluationStart, evaluationEnd) then Err(InvalidSlice)
    else
      match runner(events[contextStart..evaluationEnd], evaluationStart - contextStart, candidate, settings)
      case None => Err(RunFailed)
      case Some(metrics) => Ok(Trial(stage, candidate, settings, contextStart, evaluationStart, evaluationEnd, metrics))
  }

  function PreHoldoutEnd(events: seq<MarketEvent>, w: Windows): int {
    |events| - w.holdout
  }

  function FoldSpan(w: Windows): int {
    w.train + w.validation + w.test
  }

  /** max(0, floor((N - holdout - train - validation - test) / step) + 1) */
  function FoldCount(available: int, span: int, step: int): nat
    requires step > 0
  {
    if available < span then 0 else (available - span) / step + 1
  }

  /** The loop guard holds for exactly the first `FoldCount` fold numbers. */
  lemma {:induction false} FoldFitsExactly(available: int, span: int, step: int, k: nat)
    requires step > 0
    ensures Steps(k, step) + span <= available <==> k < FoldCount(available, span, step)
  {
    StepsMonotone(0, k, step);
    if available >= span {
      var whole := (available - span) / step;
      WholeSteps(available - span, step);
      if k <= whole {
        StepsMonotone(k, whole, step);
      } else {
        StepsMonotone(whole + 1, k, step);
      }
    }
  }

  // ----- selection -----

  /** The order of the selection key: higher excess, then shallower drawdown, then lower turnover, then the
      smaller identifier. The key converts the turnover to a number. */
  predicate Better(a: Trial, b: Trial)
    requires a.metrics.turnover.Some? && b.metrics.turnover.Some?
  {
    || a.metrics.excess > b.metrics.excess
    || (a.metrics.excess == b.metrics.excess &&
        (|| AbsReal(a.metrics.drawdown) < AbsReal(b.metrics.drawdown)
         || (AbsReal(a.metrics.drawdown) == AbsReal(b.metrics.drawdown) &&
             (|| a.metrics.turnover.value < b.metrics.turnover.value
              || (a.metrics.turnover == b.metrics.turnover && a.candidate.id < b.candidate.id)))))
  }

  /** The selection key of every eligible trial can be computed. */
  predicate Comparable(trials: seq<Trial>) {
    forall i :: 0 <= i < |trials| && trials[i].metrics.eligible ==> trials[i].metrics.turnover.Some?
  }

  /** The first minimal eligible trial, as `min` over a key returns it. */
  function Select(trials: seq<Trial>): (best: Option<Trial>)
    requires Comparable(trials)
    ensures best.Some? ==> best.value.metrics.eligible && best.value.metrics.turnover.Some?
  {
    if trials == [] then None
    else
      var last := trials[|trials| - 1];
      match Select(trials[..|trials| - 1])
      case None => if last.metrics.eligible then Some(last) else None
      case Some(best) => if last.metrics.eligible && Better(last, best) then Some(last) else Some(best)
  }

  /** Selection, which raises when the key of an eligible trial has no turnover to convert. */
  function Choose(trials: seq<Trial>): Result<Option<Trial>, EvaluationError> {
    if Comparable(trials) then Ok(Select(trials)) else Err(TurnoverMissing)
  }

  ghost predicate IsBest(best: Trial, trials: seq<Trial>) {
    && best in trials && best.metrics.eligible && best.metrics.turnover.Some?
    && (forall i :: 0 <= i < |trials| && trials[i].metrics.eligible ==>
          trials[i].metrics.turnover.Some? && !Better(trials[i], best))
  }

  ghost predicate AnyEligible(trials: seq<Trial>) {
    exists i :: 0 <= i < |trials| && trials[i].metrics.eligible
  }

  /** Selection raises exactly when an eligible trial has no turnover; otherwise it succeeds exactly when some trial is
      eligible, and no eligible trial beats its result. */
  lemma {:induction false} SelectIsBest(trials: seq<Trial>)
    ensures Choose(trials).Err? <==>
            exists i :: 0 <= i < |trials| && trials[i].metrics.eligible && trials[i].metrics.turnover.None?
    ensures Choose(trials).Ok? ==>
              && (Choose(trials).value.Some? <==> AnyEligible(trials))
              && (Choose(trials).value.Some? ==> IsBest(Choose(trials).value.value, trials))
  {
    if Comparable(trials) { BestOfComparable(trials); }
  }

  lemma {:induction false} BestOfComparable(trials: seq<Trial>)
    requires Comparable(trials)
    ensures Select(trials).Some? <==> AnyEligible(trials)
    ensures Select(trials).Some? ==> IsBest(Select(trials).value, trials)
  {
    if trials != [] {
      var init := trials[..|trials| - 1];
      var last := trials[|trials| - 1];
      BestOfComparable(init);
      if last.metrics.eligible { assert trials[|trials| - 1].metrics.eligible; }
      if Select(init).Some? {
        var k :| 0 <= k < |init| && init[k] == Select(init).value;
        assert trials[k].metrics.eligible;
        forall i | 0 <= i < |trials| && trials[i].metrics.eligible ensures !Better(trials[i], Select(trials).value) {
          if i < |init| { assert init[i] == trials[i]; }
        }
      } else {
        forall i | 0 <= i < |init| ensures !trials[i].metrics.eligible {
          assert init[i] == trials[i];
        }
      }
    }
  }

  /** With distinct identifiers the best trial is unique, so the order of the candidates cannot matter. */
  lemma {:induction false} SelectionIgnoresOrder(a: seq<Trial>, b: seq<Trial>)
    requires forall t :: t in a <==> t in b
    requires forall s, t :: s in a && t in a && s.candidate.id == t.candidate.id ==> s == t
    ensures Choose(a) == Choose(b)
  {
    if Comparable(a) { SameTrialsCompare(a, b); }
    if Comparable(b) { SameTrialsCompare(b, a); }
    if Comparable(a) {
      BestOfComparable(a);
      BestOfComparable(b);
      if Select(a).Some? {
        BestElsewhere(Select(a).value, a, b);
      }
      if Select(b).Some? {
        BestElsewhere(Select(b).value, b, a);
      }
    }
  }

  lemma {:induction false} SameTrialsCompare(a: seq<Trial>, b: seq<Trial>)
    requires Comparable(a) && forall t :: t in b ==> t in a
    ensures Comparable(b)
  {
    forall i | 0 <= i < |b| && b[i].metrics.eligible ensures b[i].metrics.turnover.Some? {
      assert b[i] in a;
      var k :| 0 <= k < |a| && a[k] == b[i];
    }
  }

  /** What is best in one sequence is what selection returns from any other sequence of the same trials. */
  lemma {:induction false} BestElsewhere(best: Trial, a: seq<Trial>, b: seq<Trial>)
    requires IsBest(best, a) && Comparable(b)
    requires forall t :: t in a <==> t in b
    requires forall s, t :: s in a && t in a && s.candidate.id == t.candidate.id ==> s == t
    ensures Select(b) == Some(best)
  {
    BestOfComparable(b);
    assert best in b;
    var k :| 0 <= k < |b| && b[k] == best;
    assert b[k].metrics.eligible;
    var other := Select(b).value;
    assert other in a;
    var m :| 0 <= m < |a| && a[m] == other;
    assert !Better(a[m], best) && !Better(b[k], other);
  }

  /** The validation run of one candidate in the fold that starts at `start`. */
  function ValidationSlice(events: seq<MarketEvent>, w: Windows, base: Settings, runner: Runner, start: int,
                           candidate: Candidate): Result<Trial, EvaluationError> {
    RunSlice(events, runner, Validation, candidate, base, start, start + w.train, start + w.train + w.validation)
  }

  predicate ValidationsRun(events: seq<MarketEvent>, w: Windows, candidates: seq<Candidate>, base: Settings, runner: Runner,
                           start: int) {
    forall i :: 0 <= i < |candidates| ==> ValidationSlice(events, w, base, runner, start, candidates[i]).Ok?
  }

  /** The validation trials of the fold that starts at `start`. */
  function ValidationTrials(events: seq<MarketEvent>, w: Windows, candidates: seq<Candidate>, base: Settings,
                            runner: Runner, start: int): (trials: seq<Trial>)
    requires ValidationsRun(events, w, candidates, base, runner, start)
    ensures |trials| == |candidates|
    ensures forall i :: 0 <= i < |trials| ==>
              trials[i].stage == Validation && trials[i].candidate == candidates[i] && trials[i].settings == base
  {
    seq(|candidates|, i requires 0 <= i < |candidates| => ValidationSlice(events, w, base, runner, start, candidates[i]).value)
  }

  /** A trial that read nothing of the locked holdout. */
  ghost predicate InsidePreHoldout(events: seq<MarketEvent>, w: Windows, runner: Runner, trial: Trial) {
    && 0 <= trial.contextStart < trial.evaluationStart < trial.evaluationEnd <= PreHoldoutEnd(events, w) <= |events|
    && Some(trial.metrics) == runner(events[..PreHoldoutEnd(events, w)][trial.contextStart..trial.evaluationEnd],
                                     trial.evaluationStart - trial.contextStart, trial.candidate, trial.settings)
  }

  /** A slice that ends before the holdout reads nothing of it. */
  lemma {:induction false} SliceInside(events: seq<MarketEvent>, w: Windows, runner: Runner, stage: Stage, candidate: Candidate,
                                       settings: Settings, contextStart: int, evaluationStart: int, evaluationEnd: int)
    requires evaluationEnd <= PreHoldoutEnd(events, w) <= |events|
    requires RunSlice(events, runner, stage, candidate, settings, contextStart, evaluationStart, evaluationEnd).Ok?
    ensures InsidePreHoldout(events, w, runner,
                             RunSlice(events, runner, stage, candidate, settings, contextStart, evaluationStart, evaluationEnd).value)
  {
    assert events[..PreHoldoutEnd(events, w)][contextStart..evaluationEnd] == events[contextStart..evaluationEnd];
  }

  /** What the fold that starts at `start` selects, or the error that its selection raises. */
  function Selected(events: seq<MarketEvent>, w: Windows, candidates: seq<Candidate>, base: Settings,
                    runner: Runner, start: int): Result<Option<Candidate>, EvaluationError>
    requires ValidationsRun(events, w, candidates, base, runner, start)
  {
    match Choose(ValidationTrials(events, w, candidates, base, runner, start))
    case Err(error) => Err(error)
    case Ok(None) => Ok(None)
    case Ok(Some(best)) => Ok(Some(best.candidate))
  }

  /** Selection sees only events before the fold's test window: nothing after it can change a validation run, make one
      or the selection raise, or change what is selected. */
  lemma {:induction false} SelectionIsCausal(a: seq<MarketEvent>, b: seq<MarketEvent>, w: Windows, candidates: seq<Candidate>,
                                             base: Settings, runner: Runner, start: int)
    requires ValidWindows(w) && 0 <= start
    requires start + FoldSpan(w) <= PreHoldoutEnd(a, w) && start + FoldSpan(w) <= PreHoldoutEnd(b, w)
    requires var testStart := start + w.train + w.validation; a[..testStart] == b[..testStart]
    ensures ValidationsRun(a, w, candidates, base, runner, start) <==> ValidationsRun(b, w, candidates, base, runner, start)
    ensures ValidationsRun(a, w, candidates, base, runner, start) ==>
              Selected(a, w, candidates, base, runner, start) == Selected(b, w, candidates, base, runner, start)
  {
    var testStart := start + w.train + w.validation;
    assert a[start..testStart] == a[..testStart][start..testStart];
    assert b[start..testStart] == b[..testStart][start..testStart];
    forall candidate
      ensures ValidationSlice(a, w, base, runner, start, candidate) == ValidationSlice(b, w, base, runner, start, candidate)
    {
    }
    if ValidationsRun(a, w, candidates, base, runner, start) {
      assert ValidationTrials(a, w, candidates, base, runner, start) == ValidationTrials(b, w, candidates, base, runner, start);
    }
  }

  /** Permuting the candidates does not change whether the fold raises, or what is selected. */
  lemma {:induction false} SelectedIgnoresCandidateOrder(events: seq<MarketEvent>, w: Windows, a: seq<Candidate>, b: seq<Candidate>,
                                                         base: Settings, runner: Runner, start: int)
    requires forall c :: c in a <==> c in b
    requires forall c, d :: c in a && d in a && c.id == d.id ==> c == d
    ensures ValidationsRun(events, w, a, base, runner, start) <==> ValidationsRun(events, w, b, base, runner, start)
    ensures ValidationsRun(events, w, a, base, runner, start) ==>
              Selected(events, w, a, base, runner, start) == Selected(events, w, b, base, runner, start)
  {
    SameCandidatesRun(events, w, a, b, base, runner, start);
    SameCandidatesRun(events, w, b, a, base, runner, start);
    if ValidationsRun(events, w, a, base, runner, start) {
      SameTrials(events, w, a, b, base, runner, start);
      SameTrials(events, w, b, a, base, runner, start);
      SelectionIgnoresOrder(ValidationTrials(events, w, a, base, runner, start), ValidationTrials(events, w, b, base, runner, start));
    }
  }

  lemma {:induction false} SameCandidatesRun(events: seq<MarketEvent>, w: Windows, a: seq<Candidate>, b: seq<Candidate>,
                                             base: Settings, runner: Runner, start: int)
    requires forall c :: c in b ==> c in a
    ensures ValidationsRun(events, w, a, base, runner, start) ==> ValidationsRun(events, w, b, base, runner, start)
  {
    if ValidationsRun(events, w, a, base, runner, start) {
      forall i | 0 <= i < |b| ensures ValidationSlice(events, w, base, runner, start, b[i]).Ok? {
        assert b[i] in a;
        var k :| 0 <= k < |a| && a[k] == b[i];
      }
    }
  }

  lemma {:induction false} SameTrials(events: seq<MarketEvent>, w: Windows, a: seq<Candidate>, b: seq<Candidate>,
                                      base: Settings, runner: Runner, start: int)
    requires ValidationsRun(events, w, a, base, runner, start) && ValidationsRun(events, w, b, base, runner, start)
    requires forall c :: c in a ==> c in b
    ensures forall t :: t in ValidationTrials(events, w, a, base, runner, start) ==>
                        t in ValidationTrials(events, w, b, base, runner, start)
  {
    var x := ValidationTrials(events, w, a, base, runner, start);
    var y := ValidationTrials(events, w, b, base, runner, start);
    forall t | t in x ensures t in y {
      var i :| 0 <= i < |x| && x[i] == t;
      assert a[i] in b;
      var k :| 0 <= k < |b| && b[k] == a[i];
      assert y[k] == t;
    }
  }

  // ----- the trials a selected candidate is put through -----

  /** Everything fixed for one asset. */
  datatype Plan = Plan(events: seq<MarketEvent>, windows: Windows, candidates: seq<Candidate>, base: Settings,
                       costMultipliers: seq<real>, buffers: seq<real>, offsets: seq<int>, runner: Runner)
  {
    predicate Fits(start: int) {
      ValidWindows(windows) && 0 <= start && start + FoldSpan(windows) <= PreHoldoutEnd(events, windows)
    }

    /** One trial of the test window, moved by `offset` bars. */
    function Slice(stage: Stage, candidate: Candidate, settings: Settings, start: int, offset: int): Result<Trial, EvaluationError> {
      var testStart := start + windows.train + windows.validation;
      RunSlice(events, runner, stage, candidate, settings,
               start + offset, testStart + offset, testStart + windows.test + offset)
    }

    function CostSlice(candidate: Candidate, start: int, i: nat): Result<Trial, EvaluationError>
      requires i < |costMultipliers|
    {
      Slice(Test, candidate, Settings(costMultipliers[i], base.bufferBps), start, 0)
    }

    function CostTrials(candidate: Candidate, start: int, n: nat): seq<Trial>
      requires n <= |costMultipliers| && forall i: nat :: i < n ==> CostSlice(candidate, start, i).Ok?
    {
      if n == 0 then [] else CostTrials(candidate, start, n - 1) + [CostSlice(candidate, start, n - 1).value]
    }

    function BufferSlice(candidate: Candidate, start: int, i: nat): Result<Trial, EvaluationError>
      requires i < |buffers|
    {
      Slice(Robustness, candidate, Settings(1.0, buffers[i]), start, 0)
    }

    predicate BufferRuns(candidate: Candidate, start: int, i: nat)
      requires i < |buffers|
    {
      buffers[i] != base.bufferBps ==> BufferSlice(candidate, start, i).Ok?
    }

    function BufferTrials(candidate: Candidate, start: int, n: nat): seq<Trial>
      requires n <= |buffers| && forall i: nat :: i < n ==> BufferRuns(candidate, start, i)
    {
      if n == 0 then []
      else
        var before := BufferTrials(candidate, start, n - 1);
        assert BufferRuns(candidate, start, n - 1);
        if buffers[n - 1] == base.bufferBps then before else before + [BufferSlice(candidate, start, n - 1).value]
    }

    predicate OffsetUsed(start: int, offset: int) {
      offset != 0 && start + FoldSpan(windows) + offset <= PreHoldoutEnd(events, windows)
    }

    function OffsetSlice(candidate: Candidate, start: int, i: nat): Result<Trial, EvaluationError>
      requires i < |offsets|
    {
      Slice(Robustness, candidate, Settings(1.0, base.bufferBps), start, offsets[i])
    }

    predicate OffsetRuns(candidate: Candidate, start: int, i: nat)
      requires i < |offsets|
    {
      OffsetUsed(start, offsets[i]) ==> OffsetSlice(candidate, start, i).Ok?
    }

    function OffsetTrials(candidate: Candidate, start: int, n: nat): seq<Trial>
      requires n <= |offsets| && forall i: nat :: i < n ==> OffsetRuns(candidate, start, i)
    {
      if n == 0 then []
      else
        var before := OffsetTrials(candidate, start, n - 1);
        assert OffsetRuns(candidate, start, n - 1);
        if !OffsetUsed(start, offsets[n - 1]) then before else before + [OffsetSlice(candidate, start, n - 1).value]
    }

    /** No trial of a selected candidate raises. */
    predicate SelectedRuns(candidate: Candidate, start: int) {
      && (forall i: nat :: i < |costMultipliers| ==> CostSlice(candidate, start, i).Ok?)
      && (forall i: nat :: i < |buffers| ==> BufferRuns(candidate, start, i))
      && (forall i: nat :: i < |offsets| ==> OffsetRuns(candidate, start, i))
    }

    predicate OffsetsStartInData(start: int) {
      forall i :: 0 <= i < |offsets| ==> start + offsets[i] >= 0
    }

    function SelectedTrials(candidate: Candidate, start: int): seq<Trial>
      requires SelectedRuns(candidate, start)
    {
      CostTrials(candidate, start, |costMultipliers|) + BufferTrials(candidate, start, |buffers|)
      + OffsetTrials(candidate, start, |offsets|)
    }

    predicate Validates(start: int) {
      ValidationsRun(events, windows, candidates, base, runner, start)
    }

    /** The validation run of one candidate. */
    function ValidationRun(start: int, candidate: Candidate): Option<Metrics>
      requires Fits(start)
    {
      runner(events[start..start + windows.train + windows.validation], windows.train, candidate, base)
    }

    ghost predicate EligibleAt(start: int, candidate: Candidate)
      requires Fits(start)
    {
      candidate in candidates && ValidationRun(start, candidate).Some? && ValidationRun(start, candidate).value.eligible
    }

    /** Every validation runs, and the trials can be compared. */
    predicate Selects(start: int) {
      Validates(start) && Selected(events, windows, candidates, base, runner, start).Ok?
    }

    function Selection(start: int): Option<Candidate>
      requires Selects(start)
    {
      Selected(events, windows, candidates, base, runner, start).value
    }

    function Validations(start: int): seq<Trial>
      requires Validates(start)
    {
      ValidationTrials(events, windows, candidates, base, runner, start)
    }

    /** All trials of the first `n` folds, in the order they are run. */
    function TrialsUpTo(n: nat): seq<Trial>
      requires forall k: nat :: k < n ==> FoldRuns(FoldStart(k))
    {
      if n == 0 then [] else TrialsUpTo(n - 1) + FoldTrials(FoldStart(n - 1))
    }

    /** The fold does not raise: neither a validation, nor the selection, nor a trial of what is selected. */
    predicate FoldRuns(start: int) {
      Selects(start) && (Selection(start).Some? ==> SelectedRuns(Selection(start).value, start))
    }

    /** The validation trials of every candidate, then the test trials of the selected one. */
    function FoldTrials(start: int): seq<Trial>
      requires FoldRuns(start)
    {
      Validations(start) + (if Selection(start).None? then [] else SelectedTrials(Selection(start).value, start))
    }

    function FoldStart(k: nat): int {
      Steps(k, windows.step)
    }

    /** The settings that some trial may be run with. */
    predicate Uses(settings: Settings) {
      || settings == base || settings == Settings(1.0, base.bufferBps)
      || (exists i :: 0 <= i < |costMultipliers| && settings == Settings(costMultipliers[i], base.bufferBps))
      || (exists i :: 0 <= i < |buffers| && settings == Settings(1.0, buffers[i]))
    }

    /** The backtest raises on no slice of the data. */
    ghost predicate BacktestsRun() {
      forall a, b, offset, candidate, settings ::
        0 <= a < b <= |events| && 0 < offset < b - a && candidate in candidates && Uses(settings) ==>
          runner(events[a..b], offset, candidate, settings).Some?
    }

    ghost predicate ReadsNoHoldout(trials: seq<Trial>) {
      forall i :: 0 <= i < |trials| ==> InsidePreHoldout(events, windows, runner, trials[i])
    }
  }

  // ----- the loop -----

  ghost predicate FoldsOk(folds: seq<Fold>, plan: Plan) {
    forall k: nat :: k < |folds| ==>
      plan.FoldRuns(plan.FoldStart(k)) && folds[k] == Fold(k, plan.FoldStart(k), plan.Selection(plan.FoldStart(k)))
  }

  /** With a backtest that never raises, a fold raises exactly when an eligible candidate has no turnover, or when some
      candidate is eligible and a robustness offset starts before the data. */
  lemma {:induction false} FoldRunsExactly(plan: Plan, start: int)
    requires plan.Fits(start) && plan.BacktestsRun()
    ensures plan.Validates(start)
    ensures plan.FoldRuns(start) <==>
              && (forall c :: plan.EligibleAt(start, c) ==> plan.ValidationRun(start, c).value.turnover.Some?)
              && ((exists c :: plan.EligibleAt(start, c)) ==> plan.OffsetsStartInData(start))
  {
    ValidationsAreRuns(plan, start);
    EligibleInTrials(plan, start);
    ComparableInTrials(plan, start);
    if plan.Selects(start) {
      BestOfComparable(plan.Validations(start));
      if plan.Selection(start).Some? {
        SelectedIsCandidate(plan, start);
        SelectedRunsExactly(plan, plan.Selection(start).value, start);
      }
    }
  }

  lemma {:induction false} ValidationsAreRuns(plan: Plan, start: int)
    requires plan.Fits(start) && plan.BacktestsRun()
    ensures plan.Validates(start)
    ensures TrialsAreRuns(plan, start)
  {
    assert plan.Uses(plan.base);
    forall i | 0 <= i < |plan.candidates|
      ensures ValidationSlice(plan.events, plan.windows, plan.base, plan.runner, start, plan.candidates[i]).Ok?
      ensures plan.ValidationRun(start, plan.candidates[i])
           == Some(ValidationSlice(plan.events, plan.windows, plan.base, plan.runner, start, plan.candidates[i]).value.metrics)
    {
      assert start + plan.windows.train - start == plan.windows.train;
    }
  }

  /** The validation trials carry the metrics of their candidates' runs. */
  ghost predicate TrialsAreRuns(plan: Plan, start: int)
    requires plan.Fits(start) && plan.Validates(start)
  {
    forall i :: 0 <= i < |plan.candidates| ==>
      plan.ValidationRun(start, plan.candidates[i]) == Some(plan.Validations(start)[i].metrics)
  }

  lemma {:induction false} EligibleInTrials(plan: Plan, start: int)
    requires plan.Fits(start) && plan.Validates(start) && TrialsAreRuns(plan, start)
    ensures AnyEligible(plan.Validations(start)) <==> exists c :: plan.EligibleAt(start, c)
  {
    var trials := plan.Validations(start);
    if i :| 0 <= i < |trials| && trials[i].metrics.eligible {
      assert plan.EligibleAt(start, plan.candidates[i]);
    }
    if c :| plan.EligibleAt(start, c) {
      var i :| 0 <= i < |plan.candidates| && plan.candidates[i] == c;
      assert trials[i].metrics.eligible;
    }
  }

  lemma {:induction false} ComparableInTrials(plan: Plan, start: int)
    requires plan.Fits(start) && plan.Validates(start) && TrialsAreRuns(plan, start)
    ensures Comparable(plan.Validations(start)) <==>
            forall c :: plan.EligibleAt(start, c) ==> plan.ValidationRun(start, c).value.turnover.Some?
  {
    var trials := plan.Validations(start);
    if Comparable(trials) {
      forall c | plan.EligibleAt(start, c) ensures plan.ValidationRun(start, c).value.turnover.Some? {
        var i :| 0 <= i < |plan.candidates| && plan.candidates[i] == c;
        assert trials[i].metrics.eligible;
      }
    }
    if i :| 0 <= i < |trials| && trials[i].metrics.eligible && trials[i].metrics.turnover.None? {
      assert plan.EligibleAt(start, plan.candidates[i]);
    }
  }

  lemma {:induction false} SelectedIsCandidate(plan: Plan, start: int)
    requires plan.Selects(start) && plan.Selection(start).Some?
    ensures plan.Selection(start).value in plan.candidates
  {
    BestOfComparable(plan.Validations(start));
  }

  lemma {:induction false} SelectedRunsExactly(plan: Plan, candidate: Candidate, start: int)
    requires plan.Fits(start) && plan.BacktestsRun() && candidate in plan.candidates
    ensures plan.SelectedRuns(candidate, start) <==> plan.OffsetsStartInData(start)
  {
    forall i: nat | i < |plan.offsets|
      ensures plan.OffsetRuns(candidate, start, i) <==> start + plan.offsets[i] >= 0
    {
    }
  }

  /** All trials of one asset. It raises exactly when some trial or selection of one of the `FoldCount` folds does; otherwise
      it returns exactly those folds with their trials, none of which reads the locked holdout. */
  method EvaluateAsset(plan: Plan) returns (result: Result<(seq<Fold>, seq<Trial>), EvaluationError>)
    requires ValidWindows(plan.windows)
    ensures var count := FoldCount(PreHoldoutEnd(plan.events, plan.windows), FoldSpan(plan.windows), plan.windows.step);
            && (result.Ok? <==> forall k: nat :: k < count ==> plan.FoldRuns(plan.FoldStart(k)))
            && (result.Ok? ==> |result.value.0| == count && Evaluated(plan, result.value.0, result.value.1))
  {
    var w := plan.windows;
    var preHoldoutEnd := PreHoldoutEnd(plan.events, w);
    ghost var count := FoldCount(preHoldoutEnd, FoldSpan(w), w.step);
    var folds: seq<Fold> := [];
    var trials: seq<Trial> := [];
    var foldNumber, foldStart := 0, 0;
    FoldFitsExactly(preHoldoutEnd, FoldSpan(w), w.step, 0);
    while foldStart + w.train + w.validation + w.test <= preHoldoutEnd
      invariant foldNumber == |folds| && foldStart == plan.FoldStart(foldNumber) >= 0
      invariant foldNumber <= count
      invariant foldStart + FoldSpan(w) <= preHoldoutEnd <==> foldNumber < count
      invariant Evaluated(plan, folds, trials)
      decreases preHoldoutEnd - foldStart
    {
      var fold := RunFold(plan, foldNumber, foldStart);
      if fold.Err? {
        return Err(fold.error);
      }
      EvaluatedGrows(plan, folds, trials, fold.value.0, fold.value.1);
      folds, trials := folds + [fold.value.0], trials + fold.value.1;
      FoldFitsExactly(preHoldoutEnd, FoldSpan(w), w.step, foldNumber + 1);
      foldStart := foldStart + w.step;
      foldNumber := foldNumber + 1;
    }
    return Ok((folds, trials));
  }

  /** Exactly these folds were run and produced exactly these trials, none of which read the locked holdout. */
  ghost predicate Evaluated(plan: Plan, folds: seq<Fold>, trials: seq<Trial>) {
    FoldsOk(folds, plan) && trials == plan.TrialsUpTo(|folds|) && plan.ReadsNoHoldout(trials)
  }

  lemma {:induction false} EvaluatedGrows(plan: Plan, folds: seq<Fold>, trials: seq<Trial>, fold: Fold, more: seq<Trial>)
    requires Evaluated(plan, folds, trials)
    requires var start := plan.FoldStart(|folds|);
             && plan.FoldRuns(start) && fold == Fold(|folds|, start, plan.Selection(start))
             && more == plan.FoldTrials(start) && plan.ReadsNoHoldout(more)
    ensures Evaluated(plan, folds + [fold], trials + more)
  {
    assert FoldsOk(folds + [fold], plan);
  }

  /** One pass of the loop: validate every candidate, select, then test the selected one. */
  method RunFold(plan: Plan, number: nat, start: int) returns (result: Result<(Fold, seq<Trial>), EvaluationError>)
    requires plan.Fits(start)
    ensures result.Ok? <==> plan.FoldRuns(start)
    ensures result.Ok? ==>
              && result.value.0 == Fold(number, start, plan.Selection(start))
              && result.value.1 == plan.FoldTrials(start)
              && plan.ReadsNoHoldout(result.value.1)
  {
    var trials := Validate(plan, start);
    if trials.Err? {
      return Err(trials.error);
    }
    var best := Choose(trials.value);
    if best.Err? {
      return Err(best.error);
    }
    if best.value.None? {
      return Ok((Fold(number, start, None), trials.value));
    }
    var more := TestSelected(plan, best.value.value.candidate, start);
    if more.Err? {
      return Err(more.error);
    }
    return Ok((Fold(number, start, Some(best.value.value.candidate)), trials.value + more.value));
  }

  /** The validation run of every candidate; the first that raises ends the evaluation. */
  method Validate(plan: Plan, start: int) returns (result: Result<seq<Trial>, EvaluationError>)
    requires plan.Fits(start)
    ensures result.Ok? <==> plan.Validates(start)
    ensures result.Ok? ==> result.value == plan.Validations(start) && plan.ReadsNoHoldout(result.value)
  {
    var w := plan.windows;
    var trials: seq<Trial> := [];
    for i := 0 to |plan.candidates|
      invariant |trials| == i && plan.ReadsNoHoldout(trials)
      invariant forall k :: 0 <= k < i ==>
                  ValidationSlice(plan.events, w, plan.base, plan.runner, start, plan.candidates[k]) == Ok(trials[k])
    {
      var trial := ValidationSlice(plan.events, w, plan.base, plan.runner, start, plan.candidates[i]);
      if trial.Err? {
        return Err(trial.error);
      }
      SliceInside(plan.events, w, plan.runner, Validation, plan.candidates[i], plan.base, start, start + w.train,
                  start + w.train + w.validation);
      trials := trials + [trial.value];
    }
    assert plan.Validates(start) && trials == plan.Validations(start);
    return Ok(trials);
  }

  /** The test, buffer and start-offset trials of a selected candidate; the first that raises ends the evaluation. */
  method TestSelected(plan: Plan, candidate: Candidate, start: int) returns (result: Result<seq<Trial>, EvaluationError>)
    requires plan.Fits(start)
    ensures result.Ok? <==> plan.SelectedRuns(candidate, start)
    ensures result.Ok? ==> result.value == plan.SelectedTrials(candidate, start) && plan.ReadsNoHoldout(result.value)
  {
    var costs := TestCosts(plan, candidate, start);
    if costs.Err? { return Err(costs.error); }
    var bufferTrials := TestBuffers(plan, candidate, start);
    if bufferTrials.Err? { return Err(bufferTrials.error); }
    var offsetTrials := TestOffsets(plan, candidate, start);
    if offsetTrials.Err? { return Err(offsetTrials.error); }
    return Ok(costs.value + bufferTrials.value + offsetTrials.value);
  }

  method TestCosts(plan: Plan, candidate: Candidate, start: int) returns (result: Result<seq<Trial>, EvaluationError>)
    requires plan.Fits(start)
    ensures result.Ok? <==> forall i: nat :: i < |plan.costMultipliers| ==> plan.CostSlice(candidate, start, i).Ok?
    ensures result.Ok? ==>
              result.value == plan.CostTrials(candidate, start, |plan.costMultipliers|) && plan.ReadsNoHoldout(result.value)
  {
    var trials: seq<Trial> := [];
    for i := 0 to |plan.costMultipliers|
      invariant forall k: nat :: k < i ==> plan.CostSlice(candidate, start, k).Ok?
      invariant trials == plan.CostTrials(candidate, start, i) && plan.ReadsNoHoldout(trials)
    {
      var trial := plan.CostSlice(candidate, start, i);
      if trial.Err? {
        return Err(trial.error);
      }
      TestSliceInside(plan, Test, candidate, Settings(plan.costMultipliers[i], plan.base.bufferBps), start, 0);
      trials := trials + [trial.value];
    }
    return Ok(trials);
  }

  method TestBuffers(plan: Plan, candidate: Candidate, start: int) returns (result: Result<seq<Trial>, EvaluationError>)
    requires plan.Fits(start)
    ensures result.Ok? <==> forall i: nat :: i < |plan.buffers| ==> plan.BufferRuns(candidate, start, i)
    ensures result.Ok? ==>
              result.value == plan.BufferTrials(candidate, start, |plan.buffers|) && plan.ReadsNoHoldout(result.value)
  {
    var trials: seq<Trial> := [];
    for i := 0 to |plan.buffers|
      invariant forall k: nat :: k < i ==> plan.BufferRuns(candidate, start, k)
      invariant trials == plan.BufferTrials(candidate, start, i) && plan.ReadsNoHoldout(trials)
    {
      if plan.buffers[i] != plan.base.bufferBps {
        var trial := plan.BufferSlice(candidate, start, i);
        if trial.Err? {
          assert !plan.BufferRuns(candidate, start, i);
          return Err(trial.error);
        }
        TestSliceInside(plan, Robustness, candidate, Settings(1.0, plan.buffers[i]), start, 0);
        trials := trials + [trial.value];
      }
    }
    return Ok(trials);
  }

  method TestOffsets(plan: Plan, candidate: Candidate, start: int) returns (result: Result<seq<Trial>, EvaluationError>)
    requires plan.Fits(start)
    ensures result.Ok? <==> forall i: nat :: i < |plan.offsets| ==> plan.OffsetRuns(candidate, start, i)
    ensures result.Ok? ==>
              result.value == plan.OffsetTrials(candidate, start, |plan.offsets|) && plan.ReadsNoHoldout(result.value)
  {
    var trials: seq<Trial> := [];
    for i := 0 to |plan.offsets|
      invariant forall k: nat :: k < i ==> plan.OffsetRuns(candidate, start, k)
      invariant trials == plan.OffsetTrials(candidate, start, i) && plan.ReadsNoHoldout(trials)
    {
      if plan.OffsetUsed(start, plan.offsets[i]) {
        var trial := plan.OffsetSlice(candidate, start, i);
        if trial.Err? {
          assert !plan.OffsetRuns(candidate, start, i);
          return Err(trial.error);
        }
        TestSliceInside(plan, Robustness, candidate, Settings(1.0, plan.base.bufferBps), start, plan.offsets[i]);
        trials := trials + [trial.value];
      }
    }
    return Ok(trials);
  }

  lemma {:induction false} TestSliceInside(plan: Plan, stage: Stage, candidate: Candidate, settings: Settings, start: int, offset: int)
    requires plan.Fits(start) && (offset == 0 || plan.OffsetUsed(start, offset))
    requires plan.Slice(stage, candidate, settings, start, offset).Ok?
    ensures InsidePreHoldout(plan.events, plan.windows, plan.runner, plan.Slice(stage, candidate, settings, start, offset).value)
  {
    var testStart := start + plan.windows.train + plan.windows.validation;
    SliceInside(plan.events, plan.windows, plan.runner, stage, candidate, settings, start + offset, testStart + offset,
                testStart + plan.windows.test + offset);
  }
}
