/** Datatypes and arithmetic shared by every part of the model. */
module Prelude {

  datatype Option<+T> = None | Some(value: T)

  /** The source's exceptions: `Err` is a raised error, `Ok` a normal return. */
  datatype Result<+T, +E> = Ok(value: T) | Err(error: E)

  function MaxReal(a: real, b: real): real { if a >= b then a else b }

  function MinReal(a: real, b: real): real { if a <= b then a else b }

  function MinInt(a: int, b: int): int { if a <= b then a else b }

  function AbsReal(a: real): real { if a >= 0.0 then a else -a }

  /** `k` whole steps of one length. */
  function Steps(k: nat, step: int): int {
    if k == 0 then 0 else Steps(k - 1, step) + step
  }

  lemma {:induction false} StepsMonotone(a: nat, b: nat, step: int)
    requires a <= b && step > 0
    ensures Steps(a, step) <= Steps(b, step)
  {
    if a < b { StepsMonotone(a, b - 1, step); }
  }

  lemma {:induction false} StepsAreMultiples(k: nat, step: int)
    ensures Steps(k, step) == k * step
  {
    if k > 0 { StepsAreMultiples(k - 1, step); }
  }

  /** Division counts the whole steps that fit. */
  lemma {:induction false} WholeSteps(room: nat, step: int)
    requires step > 0
    ensures Steps(room / step, step) <= room < Steps(room / step + 1, step)
  {
    StepsAreMultiples(room / step, step);
  }

  /** No value occurs twice in the sequence. */
  ghost predicate Distinct<T>(s: seq<T>) {
    forall i, j :: 0 <= i < j < |s| ==> s[i] != s[j]
  }

  /** The number of instants of `ts` in the closed interval [lo, hi]. */
  function CountIn(ts: seq<int>, lo: int, hi: int): nat {
    if ts == [] then 0
    else CountIn(ts[..|ts| - 1], lo, hi) + (if lo <= ts[|ts| - 1] <= hi then 1 else 0)
  }

  ghost predicate Sorted(ts: seq<int>) {
    forall i, j :: 0 <= i < j < |ts| ==> ts[i] <= ts[j]
  }

  lemma {:induction false} CountInAppend(ts: seq<int>, t: int, lo: int, hi: int)
    ensures CountIn(ts + [t], lo, hi) == CountIn(ts, lo, hi) + (if lo <= t <= hi then 1 else 0)
  {
    assert (ts + [t])[..|ts|] == ts;
  }

  lemma {:induction false} CountInConcat(a: seq<int>, b: seq<int>, lo: int, hi: int)
    ensures CountIn(a + b, lo, hi) == CountIn(a, lo, hi) + CountIn(b, lo, hi)
  {
    if b == [] {
      assert a + b == a;
    } else {
      var init := b[..|b| - 1];
      assert a + b == (a + init) + [b[|b| - 1]];
      CountInAppend(a + init, b[|b| - 1], lo, hi);
      CountInConcat(a, init, lo, hi);
    }
  }

  /** An interval that holds none of the instants counts nothing. */
  lemma {:induction false} CountInNone(ts: seq<int>, lo: int, hi: int)
    requires forall i :: 0 <= i < |ts| ==> ts[i] < lo || hi < ts[i]
    ensures CountIn(ts, lo, hi) == 0
  {
    if ts != [] { CountInNone(ts[..|ts| - 1], lo, hi); }
  }

  /** Counting is monotone: `wide` holds every instant of the sequence that `narrow` holds. */
  lemma {:induction false} CountInSubset(ts: seq<int>, lo: int, hi: int, lo': int, hi': int)
    requires forall i :: 0 <= i < |ts| && lo <= ts[i] <= hi ==> lo' <= ts[i] <= hi'
    ensures CountIn(ts, lo, hi) <= CountIn(ts, lo', hi')
  {
    if ts != [] { CountInSubset(ts[..|ts| - 1], lo, hi, lo', hi'); }
  }

  lemma {:induction false} CountInAll(ts: seq<int>, lo: int, hi: int)
    requires forall i :: 0 <= i < |ts| ==> lo <= ts[i] <= hi
    ensures CountIn(ts, lo, hi) == |ts|
  {
    if ts != [] { CountInAll(ts[..|ts| - 1], lo, hi); }
  }

  /**
   * The step of every rolling-rate proof: when the closed window of length `span` that ends at the
   * newest instant `t` has room, appending `t` keeps every closed window of that length within the bound.
   */
  lemma {:induction false} WindowKeepsBound(ts: seq<int>, t: int, span: int, bound: nat, lo: int)
    requires span >= 0 && forall i :: 0 <= i < |ts| ==> ts[i] <= t
    requires CountIn(ts, t - span, t) < bound
    requires CountIn(ts, lo, lo + span) <= bound
    ensures CountIn(ts + [t], lo, lo + span) <= bound
  {
    CountInAppend(ts, t, lo, lo + span);
    if lo <= t <= lo + span {
      CountInSubset(ts, lo, lo + span, t - span, t);
    }
  }
}
