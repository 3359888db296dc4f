/** The long-or-cash moving-average strategy: it keeps the last closes in a bounded queue. */
module MovingAverage {
  import opened Prelude

  /** What the constructor demands. */
  predicate ValidParameters(fastWindow: int, slowWindow: int, investedFraction: real) {
    2 <= fastWindow < slowWindow && 0.0 < investedFraction <= 1.0
  }

  function Last(closes: seq<real>, count: nat): (last: seq<real>)
    ensures |last| == if |closes| <= count then |closes| else count
  {
    if |closes| <= count then closes else closes[|closes| - count..]
  }

  function Total(values: seq<real>): real {
    if values == [] then 0.0 else Total(values[..|values| - 1]) + values[|values| - 1]
  }

  function Average(closes: seq<real>, window: int): real
    requires window > 0
  {
    Total(Last(closes, window)) / window as real
  }

  /** The target fraction after all closes seen so far: cash until both averages are defined, then invested exactly while
      the fast average is above the slow one. */
  function TargetFraction(fastWindow: int, slowWindow: int, investedFraction: real, closes: seq<real>): (target: real)
    requires ValidParameters(fastWindow, slowWindow, investedFraction)
    ensures 0.0 <= target <= 1.0
  {
    if |closes| >= slowWindow && Average(closes, fastWindow) > Average(closes, slowWindow) then investedFraction else 0.0
  }

  lemma {:induction false} LastOfLast(closes: seq<real>, few: nat, many: nat)
    requires few <= many
    ensures Last(Last(closes, many), few) == Last(closes, few)
  {
  }

  /** Only the closes of the slow window matter, so a queue of that length decides as the whole history would. */
  lemma {:induction false} WindowDecides(fastWindow: int, slowWindow: int, investedFraction: real, closes: seq<real>)
    requires ValidParameters(fastWindow, slowWindow, investedFraction)
    ensures TargetFraction(fastWindow, slowWindow, investedFraction, Last(closes, slowWindow))
         == TargetFraction(fastWindow, slowWindow, investedFraction, closes)
  {
    LastOfLast(closes, fastWindow, slowWindow);
    LastOfLast(closes, slowWindow, slowWindow);
  }

  lemma {:induction false} QueueKeepsLast(closes: seq<real>, close: real, count: nat)
    requires count > 0
    ensures Last(closes + [close], count) == Last(Last(closes, count) + [close], count)
  {
  }

  lemma {:induction false} TotalAppend(values: seq<real>, value: real)
    ensures Total(values + [value]) == Total(values) + value
  {
    assert (values + [value])[..|values|] == values;
  }

  class MovingAverageCrossover {
    const fastWindow: int
    const slowWindow: int
    const investedFraction: real
    var closes: seq<real>
    ghost var seen: seq<real>

    ghost predicate Valid()
      reads this
    {
      ValidParameters(fastWindow, slowWindow, investedFraction) && closes == Last(seen, slowWindow)
    }

    constructor (fastWindow: int, slowWindow: int, investedFraction: real)
      requires ValidParameters(fastWindow, slowWindow, investedFraction)
      ensures Valid() && seen == []
      ensures this.fastWindow == fastWindow && this.slowWindow == slowWindow && this.investedFraction == investedFraction
    {
      this.fastWindow, this.slowWindow, this.investedFraction := fastWindow, slowWindow, investedFraction;
      closes, seen := [], [];
    }

    /** One event: the queue drops its oldest close when it is full, and the averages are taken over the queue. */
    method OnMarketEvent(close: real) returns (target: real)
      requires Valid()
      modifies this
      ensures Valid() && seen == old(seen) + [close]
      ensures target == TargetFraction(fastWindow, slowWindow, investedFraction, seen)
    {
      QueueKeepsLast(seen, close, slowWindow);
      closes, seen := Last(closes + [close], slowWindow), seen + [close];
      WindowDecides(fastWindow, slowWindow, investedFraction, seen);
      target := Crossing();
    }

    /** The target fraction for the closes in the queue. */
    method Crossing() returns (target: real)
      requires ValidParameters(fastWindow, slowWindow, investedFraction) && |closes| <= slowWindow
      ensures target == TargetFraction(fastWindow, slowWindow, investedFraction, closes)
    {
      if |closes| < slowWindow {
        return 0.0;
      }
      var fastSum := Sum(|closes| - fastWindow);
      var slowSum := Sum(0);
      assert closes[0..] == closes;
      var fastAverage, slowAverage := fastSum / fastWindow as real, slowSum / slowWindow as real;
      assert fastAverage == Average(closes, fastWindow) && slowAverage == Average(closes, slowWindow);
      return if fastAverage > slowAverage then investedFraction else 0.0;
    }

    method Sum(from: nat) returns (sum: real)
      requires from <= |closes|
      ensures sum == Total(closes[from..])
    {
      sum := 0.0;
      for i := from to |closes|
        invariant sum == Total(closes[from..i])
      {
        TotalAppend(closes[from..i], closes[i]);
        assert closes[from..i] + [closes[i]] == closes[from..i + 1];
        sum := sum + closes[i];
      }
      assert closes[from..|closes|] == closes[from..];
    }
  }
}
