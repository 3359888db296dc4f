/** The local request budget: a pruned deque of instants that stands for the whole request history. */
module RateLimits {
  import opened Prelude

  datatype BudgetError = ClockMovedBackwards | BudgetExhausted

  /** How many accepted requests the half-open window (at - window, at] holds. */
  function InWindow(history: seq<int>, window: int, at: int): nat {
    CountIn(history, at - window + 1, at)
  }

  /** The decision a budget that forgot nothing would take. */
  function Admit(history: seq<int>, limit: int, window: int, at: int): Option<BudgetError> {
    if history != [] && at < history[|history| - 1] then Some(ClockMovedBackwards)
    else if InWindow(history, window, at) >= limit then Some(BudgetExhausted)
    else None
  }

  /** Every request accepted over a whole sequence of calls. */
  function Accepted(calls: seq<int>, limit: int, window: int): seq<int> {
    if calls == [] then []
    else
      var history := Accepted(calls[..|calls| - 1], limit, window);
      var at := calls[|calls| - 1];
      if Admit(history, limit, window, at).None? then history + [at] else history
  }

  /** Accepted instants never go backwards. */
  lemma {:induction false} AcceptedInOrder(calls: seq<int>, limit: int, window: int)
    ensures Sorted(Accepted(calls, limit, window))
  {
    if calls != [] { AcceptedInOrder(calls[..|calls| - 1], limit, window); }
  }

  /** The rate promise, for every call sequence and every instant, not only the instants of calls. */
  lemma {:induction false} RateBound(calls: seq<int>, limit: int, window: int, at: int)
    requires limit >= 0 && window > 0
    ensures InWindow(Accepted(calls, limit, window), window, at) <= limit
  {
    if calls != [] {
      var init := calls[..|calls| - 1];
      RateBound(init, limit, window, at);
      AdmitKeepsBound(Accepted(init, limit, window), limit, window, calls[|calls| - 1], at) by {
        AcceptedInOrder(init, limit, window);
      }
    }
  }

  lemma {:induction false} AdmitKeepsBound(history: seq<int>, limit: int, window: int, t: int, at: int)
    requires limit >= 0 && window > 0 && Sorted(history) && InWindow(history, window, at) <= limit
    ensures Admit(history, limit, window, t).None? ==> InWindow(history + [t], window, at) <= limit
  {
    if Admit(history, limit, window, t).None? {
      WindowKeepsBound(history, t, window - 1, limit, at - window + 1);
    }
  }

  /** What a deque may have dropped from the history `dropped + kept`: only instants that no window ending
      at the newest accept, or later, can see. */
  ghost predicate Expired(dropped: seq<int>, kept: seq<int>, window: int) {
    dropped != [] ==> kept != [] && forall i :: 0 <= i < |dropped| ==> dropped[i] <= kept[|kept| - 1] - window
  }

  /** At or after the newest accept, the deque and the full history count the same. Asked about an earlier
      instant the deque can only under-report, and does so exactly when a dropped instant lies in the window. */
  lemma {:induction false} KeptAgainstHistory(dropped: seq<int>, kept: seq<int>, window: int, at: int)
    requires window > 0 && Expired(dropped, kept, window)
    ensures InWindow(kept, window, at) <= InWindow(dropped + kept, window, at)
    ensures InWindow(kept, window, at) == InWindow(dropped + kept, window, at) <==>
            forall i :: 0 <= i < |dropped| ==> !(at - window < dropped[i] <= at)
    ensures kept != [] && kept[|kept| - 1] <= at ==>
              InWindow(kept, window, at) == InWindow(dropped + kept, window, at)
  {
    CountInConcat(dropped, kept, at - window + 1, at);
    CountZeroMeansNone(dropped, at - window + 1, at);
  }

  lemma {:induction false} CountZeroMeansNone(ts: seq<int>, lo: int, hi: int)
    ensures CountIn(ts, lo, hi) == 0 <==> forall i :: 0 <= i < |ts| ==> !(lo <= ts[i] <= hi)
  {
    if ts != [] {
      var init := ts[..|ts| - 1];
      CountZeroMeansNone(init, lo, hi);
      if CountIn(ts, lo, hi) == 0 {
        forall i | 0 <= i < |ts| ensures !(lo <= ts[i] <= hi) {
          if i < |init| { assert init[i] == ts[i]; }
        }
      }
    }
  }

  /** With the expired head gone, what the deque holds is exactly the content of the window. */
  lemma {:induction false} KeptIsWindow(dropped: seq<int>, kept: seq<int>, window: int, at: int)
    requires Sorted(kept) && (kept != [] ==> at - window < kept[0] && kept[|kept| - 1] <= at)
    requires forall i :: 0 <= i < |dropped| ==> dropped[i] <= at - window
    ensures InWindow(dropped + kept, window, at) == |kept|
  {
    CountInConcat(dropped, kept, at - window + 1, at);
    CountInNone(dropped, at - window + 1, at);
    CountInAll(kept, at - window + 1, at);
  }

  /** The decision over the full history, in terms of what the deque still shows. */
  lemma {:induction false} VerdictFromKept(dropped: seq<int>, kept: seq<int>, limit: int, window: int, at: int)
    requires window > 0 && Expired(dropped, kept, window)
    ensures Admit(dropped + kept, limit, window, at) ==
            if kept != [] && at < kept[|kept| - 1] then Some(ClockMovedBackwards)
            else if InWindow(dropped + kept, window, at) >= limit then Some(BudgetExhausted)
            else None
  {
    var history := dropped + kept;
    assert kept != [] ==> history[|history| - 1] == kept[|kept| - 1];
  }

  /** Appending to the deque appends to the history, and the new instant is counted by its own window. */
  lemma {:induction false} RecordAccept(dropped: seq<int>, kept: seq<int>, window: int, at: int)
    requires window > 0 && InWindow(dropped + kept, window, at) == |kept|
    ensures dropped + (kept + [at]) == dropped + kept + [at]
    ensures InWindow(dropped + (kept + [at]), window, at) == |kept| + 1
  {
    assert dropped + (kept + [at]) == dropped + kept + [at];
    CountInAppend(dropped + kept, at, at - window + 1, at);
  }

  class SlidingWindowRequestBudget {
    static const HARD_MAX_REQUESTS_PER_MINUTE := 180
    static const MICROSECONDS_PER_MINUTE := 60_000_000

    const maxRequests: int
    const window: int
    var timestamps: seq<int>
    /** The accepted instants the deque no longer holds, oldest first. */
    ghost var dropped: seq<int>

    /** Every instant ever accepted. */
    ghost function History(): seq<int>
      reads this
    {
      dropped + timestamps
    }

    ghost predicate Valid()
      reads this
    {
      && 1 <= maxRequests <= HARD_MAX_REQUESTS_PER_MINUTE
      && 0 < window <= MICROSECONDS_PER_MINUTE
      && Sorted(timestamps)
      && Expired(dropped, timestamps, window)
      && |timestamps| <= maxRequests
    }

    constructor (maxRequests: int, window: int)
      requires 1 <= maxRequests <= HARD_MAX_REQUESTS_PER_MINUTE
      requires 0 < window <= MICROSECONDS_PER_MINUTE
      ensures Valid() && this.maxRequests == maxRequests && this.window == window
      ensures timestamps == [] && History() == []
    {
      this.maxRequests := maxRequests;
      this.window := window;
      timestamps := [];
      dropped := [];
    }

    /** Decides exactly as a budget over the full history would; a denied call changes nothing at all. */
    method Acquire(timestamp: int) returns (result: Result<int, BudgetError>)
      requires Valid()
      modifies this
      ensures Valid()
      ensures match Admit(old(History()), maxRequests, window, timestamp)
              case None =>
                && History() == old(History()) + [timestamp]
                && result == Ok(maxRequests - InWindow(History(), window, timestamp))
              case Some(reason) =>
                && timestamps == old(timestamps) && dropped == old(dropped)
                && result == Err(reason)
    {
      VerdictFromKept(dropped, timestamps, maxRequests, window, timestamp);
      if timestamps != [] && timestamp < timestamps[|timestamps| - 1] {
        return Err(ClockMovedBackwards);
      }
      DropExpired(timestamp);
      if |timestamps| >= maxRequests {
        return Err(BudgetExhausted);
      }
      Retain(timestamp);
      return Ok(maxRequests - |timestamps|);
    }

    /** Appends one accepted instant to a deque whose expired head is gone. */
    method Retain(timestamp: int)
      requires 1 <= maxRequests <= HARD_MAX_REQUESTS_PER_MINUTE && 0 < window <= MICROSECONDS_PER_MINUTE
      requires Sorted(timestamps) && (timestamps != [] ==> timestamps[|timestamps| - 1] <= timestamp)
      requires |timestamps| == InWindow(History(), window, timestamp) < maxRequests
      requires forall i :: 0 <= i < |dropped| ==> dropped[i] <= timestamp - window
      modifies this`timestamps
      ensures Valid()
      ensures History() == old(History()) + [timestamp]
      ensures |timestamps| == InWindow(History(), window, timestamp)
    {
      RecordAccept(dropped, timestamps, window, timestamp);
      timestamps := timestamps + [timestamp];
    }

    /** Pops the expired head. What stays is exactly the content of the window, so nothing was popped from a
        full deque that stays full. */
    method DropExpired(timestamp: int)
      requires Valid()
      requires timestamps != [] ==> timestamps[|timestamps| - 1] <= timestamp
      modifies this
      ensures History() == old(History()) && Sorted(timestamps)
      ensures timestamps != [] ==> timestamps[|timestamps| - 1] <= timestamp
      ensures |timestamps| == InWindow(History(), window, timestamp)
      ensures |timestamps| < |old(timestamps)| || (timestamps == old(timestamps) && dropped == old(dropped))
      ensures forall i :: 0 <= i < |dropped| ==> dropped[i] <= timestamp - window
    {
      var cutoff := timestamp - window;
      while timestamps != [] && timestamps[0] <= cutoff
        invariant History() == old(History()) && Sorted(timestamps)
        invariant |timestamps| < |old(timestamps)| || (timestamps == old(timestamps) && dropped == old(dropped))
        invariant timestamps != [] ==> timestamps[|timestamps| - 1] <= timestamp
        invariant forall i :: 0 <= i < |dropped| ==> dropped[i] <= cutoff
        decreases |timestamps|
      {
        assert dropped + timestamps == dropped + [timestamps[0]] + timestamps[1..];
        dropped := dropped + [timestamps[0]];
        timestamps := timestamps[1..];
      }
      KeptIsWindow(dropped, timestamps, window, timestamp);
    }

    /** Reads only; agrees with the full history at or after the last accept. */
    function ObservedCount(timestamp: int): (count: nat)
      requires Valid()
      reads this
      ensures count <= InWindow(History(), window, timestamp)
      ensures (timestamps != [] ==> timestamps[|timestamps| - 1] <= timestamp) ==>
                count == InWindow(History(), window, timestamp)
    {
      KeptAgainstHistory(dropped, timestamps, window, timestamp);
      InWindow(timestamps, window, timestamp)
    }
  }
}
