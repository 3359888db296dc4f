/** Reconciliation of the journal against what the broker answers during one call. */
module Reconciliation {
  import opened Prelude
  import opened Portfolio
  import opened Sums
  import opened Brokerage
  import opened BrokerJournal
  import MarketControls

  datatype Lookup = Found(order: OrderSnapshot) | NotFound | Failed

  /** Every answer the broker gives during one reconciliation. Lookups by broker id and page reads carry the number
      of the read, because the broker may answer differently later. */
  datatype BrokerView = BrokerView(account: Option<AccountSnapshot>, positions: seq<PositionSnapshot>,
                                   openOrders: seq<OrderSnapshot>, byClient: ClientId -> Lookup,
                                   byId: (nat, BrokerId) -> Lookup, streams: nat -> seq<FillActivity>)

  datatype IssueCode =
    | UnresolvedSubmission | ForeignOpenOrder | UnexplainedOwnedOrder | UnknownOrderStatus | ActivityOrderMissing
    | UnexplainedOwnedFill | DuplicateBrokerPosition | PositionMismatch | AccountNotPermitted

  datatype Issue = Issue(code: IssueCode, subject: string)

  datatype Report = Report(timestamp: int, ready: bool, accountPermits: bool, newExecutions: nat, resolved: nat,
                           unresolved: int, checkpoint: Option<ActivityId>, expected: map<string, real>,
                           observed: map<string, real>, issues: seq<Issue>)

  datatype ReconcileError =
    | BrokerFailed | AccountChanged | PaginationStalled | PaginationExceeded | JournalFailed(error: JournalError)

  // ----- paging -----

  /** Where a page starts: at the beginning, or after the activity its token names. */
  function StartOf(stream: seq<FillActivity>, token: Option<ActivityId>): Option<nat> {
    if token.None? then Some(0) else PositionAfter(stream, token.value, |stream|)
  }

  /** The position after the last activity of that id among the first `n`. */
  function PositionAfter(stream: seq<FillActivity>, id: ActivityId, n: nat): Option<nat>
    requires n <= |stream|
  {
    if n == 0 then None else if stream[n - 1].activityId == id then Some(n) else PositionAfter(stream, id, n - 1)
  }

  lemma {:induction false} PositionFollows(stream: seq<FillActivity>, id: ActivityId, n: nat)
    requires n <= |stream|
    ensures match PositionAfter(stream, id, n)
            case None => forall i :: 0 <= i < n ==> stream[i].activityId != id
            case Some(k) => 0 < k <= n && stream[k - 1].activityId == id
  {
    if n > 0 && stream[n - 1].activityId != id { PositionFollows(stream, id, n - 1); }
  }

  lemma {:induction false} StartFollowsToken(stream: seq<FillActivity>, token: ActivityId)
    ensures match StartOf(stream, Some(token))
            case None => forall i :: 0 <= i < |stream| ==> stream[i].activityId != token
            case Some(n) => 0 < n <= |stream| && stream[n - 1].activityId == token
  {
    PositionFollows(stream, token, |stream|);
  }

  ghost predicate ActivityIdsDistinct(stream: seq<FillActivity>) {
    forall i, j :: 0 <= i < j < |stream| ==> stream[i].activityId != stream[j].activityId
  }

  lemma {:induction false} StartIsUnique(stream: seq<FillActivity>, n: nat)
    requires ActivityIdsDistinct(stream) && 0 < n <= |stream|
    ensures StartOf(stream, Some(stream[n - 1].activityId)) == Some(n)
  {
    StartFollowsToken(stream, stream[n - 1].activityId);
  }

  /** One page: up to `size` activities, and a next token exactly when the page is full. */
  function Page(stream: seq<FillActivity>, token: Option<ActivityId>, size: nat): Option<ActivityPage>
    requires size > 0
    ensures StartOf(stream, token).Some? <==> Page(stream, token, size).Some?
  {
    match StartOf(stream, token)
    case None => None
    case Some(start) =>
      var stop := if start + size <= |stream| then start + size else |stream|;
      var activities := if start <= stop then stream[start..stop] else [];
      Some(ActivityPage(activities, if |activities| == size then Some(activities[|activities| - 1].activityId) else None))
  }

  /** The broker only ever appends activities, each with an id of its own. */
  ghost predicate Appends(streams: nat -> seq<FillActivity>) {
    && (forall k: nat :: ActivityIdsDistinct(streams(k)))
    && (forall j: nat, k: nat :: j <= k ==> streams(j) <= streams(k))
  }

  /** The `k`-th page is the first that is not full. */
  ghost predicate Finishes(streams: nat -> seq<FillActivity>, start: nat, size: nat, k: nat) {
    |streams(k)| < start + Steps(k + 1, size)
  }

  method ReadAllFillPages(checkpoint: Option<ActivityId>, streams: nat -> seq<FillActivity>, size: nat, maximumPages: nat,
                          ghost start: nat)
    returns (result: Result<(seq<FillActivity>, Option<ActivityId>), ReconcileError>, ghost pages: nat)
    requires size > 0 && Appends(streams) && StartOf(streams(0), checkpoint) == Some(start)
    ensures result.Err? ==> result.error == PaginationExceeded
    ensures result.Ok? <==> exists k: nat :: k < maximumPages && Finishes(streams, start, size, k)
    ensures result.Ok? ==>
              && pages < maximumPages && start <= |streams(pages)|
              && result.value.0 == streams(pages)[start..]
              && result.value.1 == LastToken(result.value.0, checkpoint)
  {
    pages := 0;
    var token, newest := checkpoint, checkpoint;
    var observed: set<ActivityId> := {};
    var activities: seq<FillActivity> := [];
    StartInside(streams(0), checkpoint);
    for page := 0 to maximumPages
      invariant pages == page && |activities| == Steps(page, size)
      invariant HaveRead(streams(page), start, activities, token, newest, checkpoint, observed)
      invariant forall k: nat :: k < page ==> !Finishes(streams, start, size, k)
    {
      var next, stalled;
      ghost var before := |activities|;
      activities, newest, next, stalled := ReadPage(streams(page), token, size, activities, newest, observed, start, checkpoint);
      assert Finishes(streams, start, size, page) <==> |streams(page)| < start + before + size;
      if next.None? {
        return Ok((activities, newest)), page;
      }
      if stalled {
        return Err(PaginationStalled), pages;
      }
      observed := observed + {next.value};
      token := next;
      pages := page + 1;
      ReadSurvivesGrowth(streams(page), streams(page + 1), start, activities, token, newest, checkpoint, observed);
    }
    return Err(PaginationExceeded), pages;
  }

  /** One page, and whether its token fails to advance. */
  method ReadPage(stream: seq<FillActivity>, token: Option<ActivityId>, size: nat, sofar: seq<FillActivity>,
                  before: Option<ActivityId>, observed: set<ActivityId>, ghost start: nat, ghost checkpoint: Option<ActivityId>)
    returns (activities: seq<FillActivity>, newest: Option<ActivityId>, next: Option<ActivityId>, stalled: bool)
    requires size > 0 && ActivityIdsDistinct(stream) && HaveRead(stream, start, sofar, token, before, checkpoint, observed)
    ensures !stalled
    ensures next.None? ==>
              && |stream| < start + |sofar| + size && start <= |stream|
              && activities == stream[start..] && newest == LastToken(activities, checkpoint)
    ensures next.Some? ==>
              && start + |sofar| + size <= |stream| && |activities| == |sofar| + size
              && HaveRead(stream, start, activities, next, newest, checkpoint, observed + {next.value})
  {
    var read := Page(stream, token, size).value;
    PageContinues(stream, start, sofar, token, before, checkpoint, observed, size, read);
    activities := sofar + read.activities;
    newest := before;
    if |read.activities| > 0 {
      newest := Some(read.activities[|read.activities| - 1].activityId);
    }
    next := read.nextToken;
    stalled := next.Some? && (next.value in observed || next == token);
  }

  /** The state of the paging loop, against the stream as it is at the next read. */
  ghost predicate HaveRead(stream: seq<FillActivity>, start: nat, activities: seq<FillActivity>, token: Option<ActivityId>,
                           newest: Option<ActivityId>, checkpoint: Option<ActivityId>, observed: set<ActivityId>) {
    var position := start + |activities|;
    && position <= |stream| && activities == stream[start..position]
    && StartOf(stream, token) == Some(position) && newest == LastToken(activities, checkpoint)
    && NamedBefore(observed, stream, position)
  }

  /** Every observed token names one of the first `position` activities. */
  ghost predicate NamedBefore(observed: set<ActivityId>, stream: seq<FillActivity>, position: nat) {
    position <= |stream| && forall t :: t in observed ==> exists i :: 0 <= i < position && stream[i].activityId == t
  }

  /** The page read next continues where the last one ended; only a full one leads on, to a token never seen before. */
  lemma {:induction false} PageContinues(stream: seq<FillActivity>, start: nat, activities: seq<FillActivity>, token: Option<ActivityId>,
                      newest: Option<ActivityId>, checkpoint: Option<ActivityId>, observed: set<ActivityId>,
                      size: nat, read: ActivityPage)
    requires size > 0 && ActivityIdsDistinct(stream)
    requires HaveRead(stream, start, activities, token, newest, checkpoint, observed)
    requires Page(stream, token, size) == Some(read)
    ensures read.nextToken.None? ==>
              |stream| < start + |activities| + size && activities + read.activities == stream[start..]
    ensures read.nextToken.Some? ==>
              && |read.activities| == size && read.nextToken.value !in observed && read.nextToken != token
              && HaveRead(stream, start, activities + read.activities, read.nextToken, read.nextToken, checkpoint,
                          observed + {read.nextToken.value})
  {
    var position := start + |activities|;
    PageIsSlice(stream, token, size, position, read);
    SlicesJoin(stream, start, position, position + |read.activities|);
    if read.nextToken.Some? {
      FullPageLeadsOn(stream, start, activities, token, newest, checkpoint, observed, size, read);
    }
  }

  lemma {:induction false} PageIsSlice(stream: seq<FillActivity>, token: Option<ActivityId>, size: nat, position: nat, read: ActivityPage)
    requires size > 0 && StartOf(stream, token) == Some(position) && position <= |stream|
    requires Page(stream, token, size) == Some(read)
    ensures var stop := position + |read.activities|; stop <= |stream| && read.activities == stream[position..stop]
    ensures read.nextToken.None? ==> position + |read.activities| == |stream| < position + size
    ensures read.nextToken.Some? ==>
              && |read.activities| == size && position + size <= |stream|
              && read.nextToken.value == stream[position + size - 1].activityId
  {
  }

  lemma {:induction false} SlicesJoin(stream: seq<FillActivity>, start: nat, middle: nat, stop: nat)
    requires start <= middle <= stop <= |stream|
    ensures stream[start..middle] + stream[middle..stop] == stream[start..stop]
    ensures stop == |stream| ==> stream[start..stop] == stream[start..]
  {
  }

  lemma {:induction false} FullPageLeadsOn(stream: seq<FillActivity>, start: nat, activities: seq<FillActivity>, token: Option<ActivityId>,
                        newest: Option<ActivityId>, checkpoint: Option<ActivityId>, observed: set<ActivityId>,
                        size: nat, read: ActivityPage)
    requires size > 0 && ActivityIdsDistinct(stream)
    requires HaveRead(stream, start, activities, token, newest, checkpoint, observed)
    requires Page(stream, token, size) == Some(read) && read.nextToken.Some?
    ensures read.nextToken.value !in observed && read.nextToken != token
    ensures HaveRead(stream, start, activities + read.activities, read.nextToken, read.nextToken, checkpoint,
                     observed + {read.nextToken.value})
  {
    var position := start + |activities|;
    PageIsSlice(stream, token, size, position, read);
    SlicesJoin(stream, start, position, position + size);
    NextTokenIsNew(stream, position, size, observed, token);
    StartIsUnique(stream, position + size);
    ObservedGrows(stream, position, size, observed);
    var after := activities + read.activities;
    assert |after| == |activities| + size && after == stream[start..start + |after|];
    assert after[|after| - 1] == stream[position + size - 1];
    assert read.nextToken == LastToken(after, checkpoint);
    assert StartOf(stream, read.nextToken) == Some(start + |after|);
  }

  lemma {:induction false} ObservedGrows(stream: seq<FillActivity>, position: nat, size: nat, observed: set<ActivityId>)
    requires size > 0 && position + size <= |stream|
    requires NamedBefore(observed, stream, position)
    ensures NamedBefore(observed + {stream[position + size - 1].activityId}, stream, position + size)
  {
    var wider := observed + {stream[position + size - 1].activityId};
    forall t | t in wider ensures exists i :: 0 <= i < position + size && stream[i].activityId == t {
      if t == stream[position + size - 1].activityId { assert stream[position + size - 1].activityId == t; }
    }
  }

  lemma {:induction false} ReadSurvivesGrowth(stream: seq<FillActivity>, longer: seq<FillActivity>, start: nat, activities: seq<FillActivity>,
                           token: Option<ActivityId>, newest: Option<ActivityId>, checkpoint: Option<ActivityId>,
                           observed: set<ActivityId>)
    requires stream <= longer && ActivityIdsDistinct(longer) && token.Some?
    requires HaveRead(stream, start, activities, token, newest, checkpoint, observed)
    ensures HaveRead(longer, start, activities, token, newest, checkpoint, observed)
  {
    var position := start + |activities|;
    StartFollowsToken(stream, token.value);
    TokenStaysValid(stream, longer, position);
    assert activities == longer[start..position];
    forall t | t in observed ensures exists i :: 0 <= i < position && longer[i].activityId == t {
      var i :| 0 <= i < position && stream[i].activityId == t;
      assert longer[i].activityId == t;
    }
  }

  function LastToken(activities: seq<FillActivity>, checkpoint: Option<ActivityId>): Option<ActivityId> {
    if activities == [] then checkpoint else Some(activities[|activities| - 1].activityId)
  }

  lemma {:induction false} StartInside(stream: seq<FillActivity>, token: Option<ActivityId>)
    ensures StartOf(stream, token).Some? ==> StartOf(stream, token).value <= |stream|
  {
    if token.Some? { StartFollowsToken(stream, token.value); }
  }

  lemma {:induction false} NextTokenIsNew(stream: seq<FillActivity>, position: nat, size: nat, observed: set<ActivityId>, token: Option<ActivityId>)
    requires ActivityIdsDistinct(stream) && size > 0 && position + size <= |stream|
    requires StartOf(stream, token) == Some(position)
    requires NamedBefore(observed, stream, position)
    ensures stream[position + size - 1].activityId !in observed
    ensures Some(stream[position + size - 1].activityId) != token
  {
    if token.Some? { StartFollowsToken(stream, token.value); }
  }

  lemma {:induction false} TokenStaysValid(stream: seq<FillActivity>, longer: seq<FillActivity>, n: nat)
    requires stream <= longer && ActivityIdsDistinct(longer) && 0 < n <= |stream|
    ensures StartOf(longer, Some(stream[n - 1].activityId)) == Some(n)
    ensures longer[..n] == stream[..n]
  {
    assert longer[n - 1] == stream[n - 1];
    StartIsUnique(longer, n);
  }

  /** While nothing new arrives, paging succeeds exactly when the limit allows one page more than the full ones. */
  lemma {:induction false} FrozenStreamNeedsExactly(streams: nat -> seq<FillActivity>, start: nat, size: nat, maximumPages: nat)
    requires size > 0 && start <= |streams(0)| && forall k: nat :: streams(k) == streams(0)
    ensures (exists k: nat :: k < maximumPages && Finishes(streams, start, size, k)) <==>
            (|streams(0)| - start) / size + 1 <= maximumPages
  {
    var remaining := |streams(0)| - start;
    var full := remaining / size;
    WholeSteps(remaining, size);
    if full + 1 <= maximumPages {
      assert Finishes(streams, start, size, full);
    }
    forall k: nat | k < maximumPages && Finishes(streams, start, size, k) ensures full <= k {
      if k < full { StepsMonotone(k + 1, full, size); }
    }
  }

  // ----- positions -----

  /** What one stored fill adds to the position in `symbol`. */
  function Signed(fill: FillActivity, prefix: string, symbol: string): real {
    if fill.clientId.None? || !Owned(fill.clientId.value, prefix) || fill.symbol != symbol then 0.0
    else if fill.side == Buy then fill.quantity else -fill.quantity
  }

  /** The position in `symbol` that a fill table accounts for. */
  ghost function OwnedPosition(fills: map<string, FillActivity>, prefix: string, symbol: string): real {
    Sum(map id | id in fills :: Signed(fills[id], prefix, symbol))
  }

  lemma {:induction false} OwnedPositionAdds(fills: map<string, FillActivity>, id: string, fill: FillActivity, prefix: string, symbol: string)
    requires id !in fills
    ensures OwnedPosition(fills[id := fill], prefix, symbol) == OwnedPosition(fills, prefix, symbol) + Signed(fill, prefix, symbol)
  {
    var parts := map k | k in fills :: Signed(fills[k], prefix, symbol);
    var after := fills[id := fill];
    SumUpdate(parts, id, Signed(fill, prefix, symbol));
    assert (map k | k in after :: Signed(after[k], prefix, symbol)) == parts[id := Signed(fill, prefix, symbol)];
  }

  predicate OwnedFill(fill: FillActivity, prefix: string) {
    fill.clientId.Some? && Owned(fill.clientId.value, prefix)
  }

  ghost predicate OwnedFillsKnown(fills: map<string, FillActivity>, prefix: string, known: set<ClientId>) {
    forall id :: id in fills && OwnedFill(fills[id], prefix) ==> fills[id].clientId.value in known
  }

  ghost predicate Projects(quantities: map<string, real>, fills: map<string, FillActivity>, prefix: string) {
    forall s :: At(quantities, s) == OwnedPosition(fills, prefix, s)
  }

  function Plus(quantities: map<string, real>, symbol: string, quantity: real): map<string, real> {
    quantities[symbol := (if symbol in quantities then quantities[symbol] else 0.0) + quantity]
  }

  function NonZero(quantities: map<string, real>): (kept: map<string, real>)
    ensures forall s :: s in kept ==> kept[s] != 0.0
    ensures forall s :: At(kept, s) == At(quantities, s)
  {
    map s | s in quantities && quantities[s] != 0.0 :: quantities[s]
  }

  function AddFill(quantities: map<string, real>, fill: FillActivity, prefix: string): map<string, real> {
    if !OwnedFill(fill, prefix) then quantities
    else Plus(quantities, fill.symbol, if fill.side == Buy then fill.quantity else -fill.quantity)
  }

  lemma {:induction false} ProjectsOneMore(quantities: map<string, real>, fills: map<string, FillActivity>, id: string, fill: FillActivity,
                        prefix: string)
    requires id !in fills && Projects(quantities, fills, prefix)
    ensures Projects(AddFill(quantities, fill, prefix), fills[id := fill], prefix)
  {
    forall s ensures At(AddFill(quantities, fill, prefix), s) == OwnedPosition(fills[id := fill], prefix, s) {
      OwnedPositionAdds(fills, id, fill, prefix, s);
      assert At(quantities, s) == OwnedPosition(fills, prefix, s);
    }
  }

  lemma {:induction false} ProjectsNothing(prefix: string)
    ensures Projects(map[], map[], prefix)
  {
    forall s ensures OwnedPosition(map[], prefix, s) == 0.0 {
      ZeroPosition(map[], prefix, s);
    }
  }

  lemma {:induction false} ZeroPosition(fills: map<string, FillActivity>, prefix: string, symbol: string)
    requires forall id :: id in fills ==> Signed(fills[id], prefix, symbol) == 0.0
    ensures OwnedPosition(fills, prefix, symbol) == 0.0
  {
    SumAllZero(map id | id in fills :: Signed(fills[id], prefix, symbol));
  }

  /** The signed sum of the owned fills, per symbol, taken in any order. */
  method ProjectOwnedPositions(fills: map<string, FillActivity>, prefix: string, known: set<ClientId>)
    returns (expected: map<string, real>, issues: seq<Issue>)
    ensures Projects(expected, fills, prefix)
    ensures forall s :: s in expected ==> expected[s] != 0.0
    ensures issues == [] <==> OwnedFillsKnown(fills, prefix, known)
  {
    var quantities: map<string, real> := map[];
    issues := [];
    var remaining := fills.Keys;
    ghost var taken: map<string, FillActivity> := map[];
    ProjectsNothing(prefix);
    while remaining != {}
      invariant remaining <= fills.Keys && taken.Keys == fills.Keys - remaining
      invariant forall id :: id in taken ==> taken[id] == fills[id]
      invariant Projects(quantities, taken, prefix)
      invariant issues == [] <==> OwnedFillsKnown(taken, prefix, known)
      decreases |remaining|
    {
      var id :| id in remaining;
      var fill := fills[id];
      ProjectsOneMore(quantities, taken, id, fill, prefix);
      KnownAdds(taken, id, fill, prefix, known);
      taken := taken[id := fill];
      remaining := remaining - {id};
      if OwnedFill(fill, prefix) && fill.clientId.value !in known {
        issues := issues + [Issue(UnexplainedOwnedFill, id)];
      }
      quantities := AddFill(quantities, fill, prefix);
    }
    assert taken == fills;
    expected := NonZero(quantities);
    forall s ensures At(expected, s) == OwnedPosition(fills, prefix, s) {
      assert At(quantities, s) == OwnedPosition(fills, prefix, s);
    }
  }

  lemma {:induction false} KnownAdds(fills: map<string, FillActivity>, id: string, fill: FillActivity, prefix: string, known: set<ClientId>)
    requires id !in fills
    ensures OwnedFillsKnown(fills[id := fill], prefix, known) <==>
            OwnedFillsKnown(fills, prefix, known) && (OwnedFill(fill, prefix) ==> fill.clientId.value in known)
  {
    var after := fills[id := fill];
    if OwnedFillsKnown(after, prefix, known) {
      assert after[id] == fill;
      forall k | k in fills && OwnedFill(fills[k], prefix) ensures fills[k].clientId.value in known {
        assert after[k] == fills[k];
      }
    }
  }

  ghost predicate SymbolsDistinct(positions: seq<PositionSnapshot>) {
    forall i, j :: 0 <= i < j < |positions| ==> positions[i].symbol != positions[j].symbol
  }

  /** The broker's own totals, and which symbols it mentions. */
  ghost predicate Totals(totals: map<string, real>, positions: seq<PositionSnapshot>) {
    && (forall s :: At(totals, s) == MarketControls.SymbolQuantity(positions, s))
    && (forall s :: s in totals <==> exists k :: 0 <= k < |positions| && positions[k].symbol == s)
  }

  lemma {:induction false} TotalsOneMore(totals: map<string, real>, positions: seq<PositionSnapshot>, position: PositionSnapshot)
    requires Totals(totals, positions)
    ensures Totals(Plus(totals, position.symbol, position.quantity), positions + [position])
  {
    var after := positions + [position];
    var next := Plus(totals, position.symbol, position.quantity);
    assert after[..|positions|] == positions;
    forall s ensures s in next <==> exists k :: 0 <= k < |after| && after[k].symbol == s {
      if k :| 0 <= k < |positions| && positions[k].symbol == s { assert after[k].symbol == s; }
      if s == position.symbol { assert after[|positions|].symbol == s; }
    }
  }

  method PositionMap(positions: seq<PositionSnapshot>) returns (observed: map<string, real>, issues: seq<Issue>)
    ensures forall s :: At(observed, s) == MarketControls.SymbolQuantity(positions, s)
    ensures forall s :: s in observed ==> observed[s] != 0.0
    ensures issues == [] <==> SymbolsDistinct(positions)
  {
    var totals: map<string, real> := map[];
    issues := [];
    for i := 0 to |positions|
      invariant Totals(totals, positions[..i])
      invariant issues == [] <==> SymbolsDistinct(positions[..i])
    {
      var position := positions[i];
      if position.symbol in totals {
        issues := issues + [Issue(DuplicateBrokerPosition, position.symbol)];
      }
      OneMoreSymbol(positions[..i], position);
      TotalsOneMore(totals, positions[..i], position);
      assert positions[..i + 1] == positions[..i] + [position];
      totals := Plus(totals, position.symbol, position.quantity);
    }
    assert positions[..|positions|] == positions;
    observed := NonZero(totals);
    NonZeroKeepsTotals(totals, positions);
  }

  lemma {:induction false} NonZeroKeepsTotals(totals: map<string, real>, positions: seq<PositionSnapshot>)
    requires Totals(totals, positions)
    ensures forall s :: At(NonZero(totals), s) == MarketControls.SymbolQuantity(positions, s)
  {
    forall s ensures At(NonZero(totals), s) == MarketControls.SymbolQuantity(positions, s) {
      assert At(totals, s) == MarketControls.SymbolQuantity(positions, s);
    }
  }

  lemma {:induction false} OneMoreSymbol(positions: seq<PositionSnapshot>, position: PositionSnapshot)
    ensures SymbolsDistinct(positions + [position]) <==>
            SymbolsDistinct(positions) && forall k :: 0 <= k < |positions| ==> positions[k].symbol != position.symbol
  {
    var after := positions + [position];
    if SymbolsDistinct(after) {
      forall i, j | 0 <= i < j < |positions| ensures positions[i].symbol != positions[j].symbol {
        assert after[i].symbol != after[j].symbol;
      }
      forall k | 0 <= k < |positions| ensures positions[k].symbol != position.symbol {
        assert after[k].symbol != after[|positions|].symbol;
      }
    }
  }

  method ComparePositions(expected: map<string, real>, observed: map<string, real>) returns (issues: seq<Issue>)
    ensures issues == [] <==> forall s :: At(expected, s) == At(observed, s)
  {
    issues := [];
    var remaining := expected.Keys + observed.Keys;
    ghost var symbols := remaining;
    while remaining != {}
      invariant remaining <= symbols
      invariant issues == [] <==> forall s :: s in symbols - remaining ==> At(expected, s) == At(observed, s)
      decreases |remaining|
    {
      var symbol :| symbol in remaining;
      var wanted := if symbol in expected then expected[symbol] else 0.0;
      var held := if symbol in observed then observed[symbol] else 0.0;
      assert symbols - (remaining - {symbol}) == (symbols - remaining) + {symbol};
      if wanted != held {
        issues := issues + [Issue(PositionMismatch, symbol)];
      }
      remaining := remaining - {symbol};
    }
    assert forall s :: s !in symbols ==> At(expected, s) == 0.0 == At(observed, s);
  }

  /** A broker that reports one symbol twice makes the commit fail, so the issue for it is never reported. */
  lemma {:induction false} StoredSymbolsAreDistinct(table: map<string, PositionSnapshot>, positions: seq<PositionSnapshot>)
    ensures StorePositions(table, positions).Ok? <==>
            SymbolsDistinct(positions) && forall i :: 0 <= i < |positions| ==> positions[i].symbol !in table
    decreases |positions|
  {
    if positions != [] {
      var first, rest := positions[0], positions[1..];
      StoredSymbolsAreDistinct(table[first.symbol := first], rest);
      assert positions == [first] + rest;
      if first.symbol !in table {
        if StorePositions(table, positions).Ok? {
          forall i, j | 0 <= i < j < |positions| ensures positions[i].symbol != positions[j].symbol {
            if i == 0 { assert positions[j] == rest[j - 1]; } else { assert rest[i - 1].symbol != rest[j - 1].symbol; }
          }
          forall i | 0 <= i < |positions| ensures positions[i].symbol !in table {
            if i > 0 { assert positions[i] == rest[i - 1]; }
          }
        }
        if SymbolsDistinct(positions) && forall i :: 0 <= i < |positions| ==> positions[i].symbol !in table {
          forall i | 0 <= i < |rest| ensures rest[i].symbol !in table[first.symbol := first] {
            assert rest[i] == positions[i + 1];
          }
          forall i, j | 0 <= i < j < |rest| ensures rest[i].symbol != rest[j].symbol {
            assert rest[i] == positions[i + 1] && rest[j] == positions[j + 1];
          }
        }
      }
    }
  }

  // ----- orders -----

  /** The order cache is a dictionary in insertion order: a known broker id keeps its place. */
  function PutOrder(cache: seq<OrderSnapshot>, order: OrderSnapshot): (after: seq<OrderSnapshot>)
    ensures order in after
    ensures forall o :: o in after ==> o == order || o in cache
    decreases |cache|
  {
    if cache == [] then [order]
    else if cache[0].brokerId == order.brokerId then [order] + cache[1..]
    else [cache[0]] + PutOrder(cache[1..], order)
  }

  function FindOrder(cache: seq<OrderSnapshot>, broker: BrokerId): (found: Option<OrderSnapshot>)
    ensures found.Some? ==> found.value in cache && found.value.brokerId == broker
  {
    if cache == [] then None
    else if cache[0].brokerId == broker then Some(cache[0])
    else FindOrder(cache[1..], broker)
  }

  method CacheOpenOrders(orders: seq<OrderSnapshot>) returns (cache: seq<OrderSnapshot>)
    ensures forall o :: o in cache ==> o in orders
  {
    cache := [];
    for i := 0 to |orders|
      invariant forall o :: o in cache ==> o in orders
    {
      cache := PutOrder(cache, orders[i]);
    }
  }

  ghost predicate FoundFor(rows: seq<Submission>, view: BrokerView, resolutions: seq<Resolution>) {
    && (forall i :: 0 <= i < |rows| ==>
          !view.byClient(rows[i].order.clientId).Failed?
          && (view.byClient(rows[i].order.clientId).Found? ==>
                Resolution(rows[i].order.clientId, view.byClient(rows[i].order.clientId).order.brokerId) in resolutions))
    && (forall r :: r in resolutions ==> Backed(rows, view, r))
  }

  /** A resolution stems from one of the rows and from the broker's answer about it. */
  ghost predicate Backed(rows: seq<Submission>, view: BrokerView, r: Resolution) {
    && (exists i :: 0 <= i < |rows| && rows[i].order.clientId == r.client)
    && view.byClient(r.client).Found? && view.byClient(r.client).order.brokerId == r.broker
  }

  /** A resolution for every row the broker knows, in the order of the rows. */
  function ResolutionsOf(rows: seq<Submission>, view: BrokerView): seq<Resolution> {
    if rows == [] then []
    else
      var client := rows[|rows| - 1].order.clientId;
      ResolutionsOf(rows[..|rows| - 1], view)
      + (if view.byClient(client).Found? then [Resolution(client, view.byClient(client).order.brokerId)] else [])
  }

  ghost predicate AllFound(rows: seq<Submission>, view: BrokerView) {
    forall i :: 0 <= i < |rows| ==> view.byClient(rows[i].order.clientId).Found?
  }

  lemma {:induction false} FoundOneMore(rows: seq<Submission>, i: nat, view: BrokerView, resolutions: seq<Resolution>)
    requires i < |rows| && FoundFor(rows[..i], view, resolutions) && resolutions == ResolutionsOf(rows[..i], view)
    ensures ResolutionsOf(rows[..i + 1], view) ==
            if view.byClient(rows[i].order.clientId).Found?
            then resolutions + [Resolution(rows[i].order.clientId, view.byClient(rows[i].order.clientId).order.brokerId)]
            else resolutions
    ensures var client := rows[i].order.clientId;
            match view.byClient(client)
            case Failed => true
            case NotFound => FoundFor(rows[..i + 1], view, resolutions) && !AllFound(rows[..i + 1], view)
            case Found(order) =>
              && FoundFor(rows[..i + 1], view, resolutions + [Resolution(client, order.brokerId)])
              && (AllFound(rows[..i + 1], view) <==> AllFound(rows[..i], view))
  {
    assert rows[..i + 1] == rows[..i] + [rows[i]];
    FoundAppended(rows[..i], rows[i], view, resolutions);
  }

  lemma {:induction false} FoundAppended(rows: seq<Submission>, row: Submission, view: BrokerView, resolutions: seq<Resolution>)
    requires FoundFor(rows, view, resolutions) && resolutions == ResolutionsOf(rows, view)
    ensures ResolutionsOf(rows + [row], view) ==
            if view.byClient(row.order.clientId).Found?
            then resolutions + [Resolution(row.order.clientId, view.byClient(row.order.clientId).order.brokerId)]
            else resolutions
    ensures AllFound(rows + [row], view) <==> AllFound(rows, view) && view.byClient(row.order.clientId).Found?
    ensures !view.byClient(row.order.clientId).Failed? ==> FoundFor(rows + [row], view, ResolutionsOf(rows + [row], view))
  {
    var after := rows + [row];
    assert after[..|rows|] == rows;
    assert after[|rows|] == row && forall k :: 0 <= k < |rows| ==> after[k] == rows[k];
    forall r | Backed(rows, view, r) ensures Backed(after, view, r) {
      var k :| 0 <= k < |rows| && rows[k].order.clientId == r.client;
      assert after[k].order.clientId == r.client;
    }
  }

  /** The broker is asked about every unresolved submission by its own client id. */
  method LookUpUnresolved(rows: seq<Submission>, view: BrokerView, cached: seq<OrderSnapshot>)
    returns (failed: bool, resolutions: seq<Resolution>, cache: seq<OrderSnapshot>, issues: seq<Issue>)
    ensures !failed ==> FoundFor(rows, view, resolutions) && resolutions == ResolutionsOf(rows, view)
    ensures !failed ==> (issues == [] <==> AllFound(rows, view))
    ensures !failed ==> |resolutions| + |issues| == |rows|
    ensures forall o :: o in cache ==> o in cached || exists c :: view.byClient(c) == Found(o)
  {
    failed, resolutions, cache, issues := false, [], cached, [];
    for i := 0 to |rows|
      invariant FoundFor(rows[..i], view, resolutions) && resolutions == ResolutionsOf(rows[..i], view)
      invariant issues == [] <==> AllFound(rows[..i], view)
      invariant |resolutions| + |issues| == i
      invariant forall o :: o in cache ==> o in cached || exists c :: view.byClient(c) == Found(o)
    {
      var client := rows[i].order.clientId;
      ghost var before := resolutions;
      match view.byClient(client) {
        case Failed =>
          failed := true;
          return;
        case NotFound =>
          issues := issues + [Issue(UnresolvedSubmission, client)];
        case Found(order) =>
          resolutions := resolutions + [Resolution(client, order.brokerId)];
          cache := PutOrder(cache, order);
      }
      FoundOneMore(rows, i, view, before);
    }
    assert rows[..|rows|] == rows;
  }

  predicate Explained(order: OrderSnapshot, prefix: string, known: set<ClientId>) {
    Owned(order.clientId, prefix) && order.clientId in known && order.status != Unknown
  }

  method CheckOpenOrders(orders: seq<OrderSnapshot>, prefix: string, known: set<ClientId>) returns (issues: seq<Issue>)
    ensures issues == [] <==> forall i :: 0 <= i < |orders| ==> Explained(orders[i], prefix, known)
  {
    issues := [];
    for i := 0 to |orders|
      invariant issues == [] <==> forall k :: 0 <= k < i ==> Explained(orders[k], prefix, known)
    {
      var order := orders[i];
      if !Owned(order.clientId, prefix) {
        issues := issues + [Issue(IssueCode.ForeignOpenOrder, order.brokerId)];
      } else if order.clientId !in known {
        issues := issues + [Issue(UnexplainedOwnedOrder, order.brokerId)];
      }
      if order.status == Unknown {
        issues := issues + [Issue(UnknownOrderStatus, order.brokerId)];
      }
    }
  }

  /** The broker names the same client for a broker id wherever it mentions it. */
  ghost predicate Truthful(view: BrokerView, owners: map<BrokerId, ClientId>) {
    && (forall o :: o in view.openOrders ==> Names(o, owners))
    && (forall c :: view.byClient(c).Found? ==> Names(view.byClient(c).order, owners))
    && (forall k, b :: view.byId(k, b).Found? ==> view.byId(k, b).order.brokerId == b && Names(view.byId(k, b).order, owners))
  }

  ghost predicate Names(order: OrderSnapshot, owners: map<BrokerId, ClientId>) {
    order.brokerId in owners && owners[order.brokerId] == order.clientId
  }

  /** A normalized activity is the broker's own, with an owner added only where there was none. */
  ghost predicate Normalizes(activity: FillActivity, normalized: FillActivity) {
    Ownerless(normalized) == Ownerless(activity) && (activity.clientId.Some? ==> normalized == activity)
  }

  method NormalizeActivities(activities: seq<FillActivity>, view: BrokerView, cached: seq<OrderSnapshot>,
                             ghost owners: map<BrokerId, ClientId>)
    returns (failed: bool, normalized: seq<FillActivity>, cache: seq<OrderSnapshot>, issues: seq<Issue>)
    ensures !failed ==> |normalized| == |activities|
    ensures !failed ==> forall i :: 0 <= i < |activities| ==> Normalizes(activities[i], normalized[i])
    ensures !failed ==> (issues == [] <==> forall i :: 0 <= i < |activities| ==> normalized[i].clientId.Some?)
    ensures !failed && Truthful(view, owners) && (forall o :: o in cached ==> Names(o, owners)) ==>
              forall i :: 0 <= i < |activities| && activities[i].clientId.None? && normalized[i].clientId.Some? ==>
                activities[i].brokerId in owners && normalized[i].clientId.value == owners[activities[i].brokerId]
  {
    failed, normalized, cache, issues := false, [], cached, [];
    ghost var truthful := Truthful(view, owners) && forall o :: o in cached ==> Names(o, owners);
    for i := 0 to |activities|
      invariant |normalized| == i
      invariant truthful ==> forall o :: o in cache ==> Names(o, owners)
      invariant forall k :: 0 <= k < i ==> Normalizes(activities[k], normalized[k])
      invariant issues == [] <==> forall k :: 0 <= k < i ==> normalized[k].clientId.Some?
      invariant truthful ==>
                  forall k :: 0 <= k < i && activities[k].clientId.None? && normalized[k].clientId.Some? ==>
                    activities[k].brokerId in owners && normalized[k].clientId.value == owners[activities[k].brokerId]
    {
      var activity := activities[i];
      if activity.clientId.None? {
        var found := FindOrder(cache, activity.brokerId);
        if found.None? {
          match view.byId(i, activity.brokerId) {
            case Failed =>
              failed := true;
              return;
            case NotFound =>
              issues := issues + [Issue(ActivityOrderMissing, activity.executionId)];
            case Found(order) =>
              cache := PutOrder(cache, order);
              activity := activity.(clientId := Some(order.clientId));
          }
        } else {
          activity := activity.(clientId := Some(found.value.clientId));
        }
      }
      normalized := normalized + [activity];
    }
  }

  // ----- exactly-once ingestion -----

  /** The stored fills are exactly the first `n` activities of the stream, up to their owners. */
  ghost predicate StoredPrefix(fills: map<string, FillActivity>, stream: seq<FillActivity>, n: nat) {
    && n <= |stream|
    && (forall i :: 0 <= i < n ==> stream[i].executionId in fills && Ownerless(fills[stream[i].executionId]) == Ownerless(stream[i]))
    && (forall id :: id in fills ==> exists i :: 0 <= i < n && stream[i].executionId == id)
  }

  ghost predicate ExecutionsDistinct(stream: seq<FillActivity>) {
    forall i, j :: 0 <= i < j < |stream| ==> stream[i].executionId != stream[j].executionId
  }

  /** The checkpoint names the last activity that is stored, and nothing else is stored. */
  ghost predicate Ingested(journal: Journal, stream: seq<FillActivity>) {
    StartOf(stream, journal.checkpoint).Some? && StoredPrefix(journal.fills, stream, StartOf(stream, journal.checkpoint).value)
  }

  /** Everything from position `start` on, normalized. */
  ghost predicate NormalizesRest(stream: seq<FillActivity>, start: nat, fills: seq<FillActivity>) {
    start + |fills| == |stream| && forall i :: 0 <= i < |fills| ==> Normalizes(stream[start + i], fills[i])
  }

  lemma {:induction false} RestAfterFirst(stream: seq<FillActivity>, start: nat, fills: seq<FillActivity>)
    requires NormalizesRest(stream, start, fills) && fills != []
    ensures Normalizes(stream[start], fills[0]) && NormalizesRest(stream, start + 1, fills[1..])
  {
    var rest := fills[1..];
    assert Normalizes(stream[start + 0], fills[0]);
    forall i | 0 <= i < |rest| ensures Normalizes(stream[start + 1 + i], rest[i]) {
      assert Normalizes(stream[start + (i + 1)], fills[i + 1]);
    }
  }

  lemma {:induction false} NormalizedSlice(stream: seq<FillActivity>, start: nat, fills: seq<FillActivity>)
    requires start <= |stream| && |fills| == |stream| - start
    requires forall i :: 0 <= i < |fills| ==> Normalizes(stream[start..][i], fills[i])
    ensures NormalizesRest(stream, start, fills)
  {
    forall i | 0 <= i < |fills| ensures Normalizes(stream[start + i], fills[i]) {
      assert Normalizes(stream[start..][i], fills[i]);
    }
  }

  /** New activities never conflict with stored ones, and extend the stored prefix one by one. */
  lemma {:induction false} StoringExtendsPrefix(fills: map<string, FillActivity>, stream: seq<FillActivity>, n: nat,
                                                normalized: seq<FillActivity>)
    requires StoredPrefix(fills, stream, n) && ActivityIdsDistinct(stream) && ExecutionsDistinct(stream)
    requires NormalizesRest(stream, n, normalized)
    ensures StoreFills(fills, normalized).Ok?
    ensures StoredPrefix(StoreFills(fills, normalized).value, stream, |stream|)
    decreases |normalized|
  {
    if normalized != [] {
      var fill, rest := normalized[0], normalized[1..];
      StoringOneExtends(fills, stream, n, fill);
      RestAfterFirst(stream, n, normalized);
      StoringExtendsPrefix(fills[fill.executionId := fill], stream, n + 1, rest);
    }
  }

  lemma {:induction false} StoringOneExtends(fills: map<string, FillActivity>, stream: seq<FillActivity>, n: nat, fill: FillActivity)
    requires StoredPrefix(fills, stream, n) && ActivityIdsDistinct(stream) && ExecutionsDistinct(stream)
    requires n < |stream| && Normalizes(stream[n], fill)
    ensures StoreFill(fills, fill) == Ok(fills[fill.executionId := fill])
    ensures StoredPrefix(fills[fill.executionId := fill], stream, n + 1)
  {
    NothingStoredConflicts(fills, stream, n, fill);
    var after := fills[fill.executionId := fill];
    forall i | 0 <= i < n + 1
      ensures stream[i].executionId in after && Ownerless(after[stream[i].executionId]) == Ownerless(stream[i])
    {
      if i < n { assert stream[i].executionId != stream[n].executionId; }
    }
    forall id | id in after ensures exists i :: 0 <= i < n + 1 && stream[i].executionId == id {
      if id != fill.executionId {
        var i :| 0 <= i < n && stream[i].executionId == id;
        assert stream[i].executionId == id;
      }
    }
  }

  lemma {:induction false} NothingStoredConflicts(fills: map<string, FillActivity>, stream: seq<FillActivity>, n: nat, fill: FillActivity)
    requires StoredPrefix(fills, stream, n) && ActivityIdsDistinct(stream) && ExecutionsDistinct(stream)
    requires n < |stream| && Normalizes(stream[n], fill)
    ensures fill.executionId == stream[n].executionId && fill.activityId == stream[n].activityId
    ensures fill.executionId !in fills && !ActivityUsed(fills, fill.activityId)
  {
    assert Ownerless(fill).executionId == Ownerless(stream[n]).executionId;
    assert Ownerless(fill).activityId == Ownerless(stream[n]).activityId;
    forall i | 0 <= i < n ensures stream[i].executionId != fill.executionId {
      assert stream[i].executionId != stream[n].executionId;
    }
    forall id | id in fills ensures fills[id].activityId != fill.activityId {
      var i :| 0 <= i < n && stream[i].executionId == id;
      assert Ownerless(fills[id]).activityId == Ownerless(stream[i]).activityId;
    }
  }

  /** What is stored stays a prefix while the broker appends. */
  lemma {:induction false} IngestedSurvivesGrowth(journal: Journal, stream: seq<FillActivity>, longer: seq<FillActivity>)
    requires Ingested(journal, stream) && stream <= longer && ActivityIdsDistinct(longer)
    ensures Ingested(journal, longer)
    ensures StartOf(longer, journal.checkpoint) == StartOf(stream, journal.checkpoint)
  {
    if journal.checkpoint.Some? {
      var n := StartOf(stream, journal.checkpoint).value;
      StartFollowsToken(stream, journal.checkpoint.value);
      TokenStaysValid(stream, longer, n);
    }
    forall i | 0 <= i < |stream| ensures stream[i] == longer[i] { }
  }

  /** A commit of everything read after the checkpoint leaves exactly the stream as it was at the last read. */
  lemma {:induction false} CommitIngests(journal: Journal, stream: seq<FillActivity>, fills: seq<FillActivity>, checkpoint: Option<ActivityId>)
    requires Ingested(journal, stream) && ActivityIdsDistinct(stream) && ExecutionsDistinct(stream)
    requires var start := StartOf(stream, journal.checkpoint).value;
             && NormalizesRest(stream, start, fills) && checkpoint == LastToken(stream[start..], journal.checkpoint)
    ensures StoreFills(journal.fills, fills).Ok?
    ensures StoredPrefix(StoreFills(journal.fills, fills).value, stream, |stream|)
    ensures StartOf(stream, checkpoint) == Some(|stream|)
  {
    var start := StartOf(stream, journal.checkpoint).value;
    StoringExtendsPrefix(journal.fills, stream, start, fills);
    assert start + |fills| == |stream|;
    LastTokenEndsStream(stream, start, journal.checkpoint);
  }

  lemma {:induction false} LastTokenEndsStream(stream: seq<FillActivity>, start: nat, checkpoint: Option<ActivityId>)
    requires ActivityIdsDistinct(stream) && start <= |stream| && StartOf(stream, checkpoint) == Some(start)
    ensures StartOf(stream, LastToken(stream[start..], checkpoint)) == Some(|stream|)
  {
    if start < |stream| {
      assert stream[start..][|stream| - start - 1] == stream[|stream| - 1];
      StartIsUnique(stream, |stream|);
    }
  }

  /** A reconciliation that commits leaves the stored fills equal to the whole stream at its last read. */
  lemma {:induction false} ReconcileCatchesUp(journal: Journal, view: BrokerView, timestamp: int, gathered: Gathered, pages: nat)
    requires JournalOk(journal) && Appends(view.streams) && ReadsFaithful(journal, view, timestamp, gathered, pages)
    requires ExecutionsDistinct(view.streams(pages)) && Ingested(journal, view.streams(0))
    ensures StoreFills(journal.fills, gathered.commit.fills).Ok?
    ensures ApplyCommit(journal, gathered.commit).Ok? ==>
              var after := ApplyCommit(journal, gathered.commit).value;
              && Ingested(after, view.streams(pages))
              && StoredPrefix(after.fills, view.streams(pages), |view.streams(pages)|)
  {
    var stream := view.streams(pages);
    assert view.streams(0) <= stream;
    IngestedSurvivesGrowth(journal, view.streams(0), stream);
    CommitIngests(journal, stream, gathered.commit.fills, gathered.commit.checkpoint);
    if ApplyCommit(journal, gathered.commit).Ok? {
      CheckpointIsKept(journal, gathered.commit, stream[StartOf(stream, journal.checkpoint).value..]);
    }
  }

  lemma {:induction false} CheckpointIsKept(journal: Journal, commit: Commit, activities: seq<FillActivity>)
    requires commit.checkpoint == LastToken(activities, journal.checkpoint) && ApplyCommit(journal, commit).Ok?
    ensures ApplyCommit(journal, commit).value.checkpoint == commit.checkpoint
    ensures ApplyCommit(journal, commit).value.fills == StoreFills(journal.fills, commit.fills).value
  {
  }

  // ----- the reconciler -----

  lemma {:induction false} UnresolvedRowsAreAll(journal: Journal, n: nat)
    requires JournalOk(journal) && n <= |journal.clients|
    ensures forall k :: 0 <= k < n && Unresolved(journal.entries[journal.clients[k]]) ==>
              journal.entries[journal.clients[k]] in UnresolvedUpTo(journal, n)
    ensures forall row :: row in UnresolvedUpTo(journal, n) ==>
              row.order.clientId in journal.entries && journal.entries[row.order.clientId] == row && Unresolved(row)
  {
    if n > 0 { UnresolvedRowsAreAll(journal, n - 1); }
  }

  ghost predicate NothingUnresolved(journal: Journal) {
    forall c :: c in journal.entries ==> !Unresolved(journal.entries[c])
  }

  /** Every client that a reconciliation names is reconciled afterwards. */
  lemma {:induction false} NamedIsReconciled(entries: map<ClientId, Submission>, resolutions: seq<Resolution>, timestamp: int,
                                             client: ClientId)
    requires Resolve(entries, resolutions, timestamp).Ok? && client in entries
    requires entries[client].state == Reconciled || exists i :: 0 <= i < |resolutions| && resolutions[i].client == client
    ensures client in Resolve(entries, resolutions, timestamp).value
    ensures Resolve(entries, resolutions, timestamp).value[client].state == Reconciled
    decreases |resolutions|
  {
    if resolutions != [] {
      var rest := resolutions[1..];
      var next := ResolveOne(entries, resolutions[0], timestamp).value;
      if next[client].state != Reconciled {
        var i :| 0 <= i < |resolutions| && resolutions[i].client == client;
        assert rest[i - 1].client == client;
      }
      NamedIsReconciled(next, rest, timestamp, client);
    }
  }

  /** When the broker knows every unresolved submission, the commit leaves none. */
  lemma {:induction false} AllFoundSettlesAll(journal: Journal, rows: seq<Submission>, view: BrokerView, commit: Commit)
    requires JournalOk(journal) && rows == UnresolvedUpTo(journal, |journal.clients|)
    requires FoundFor(rows, view, commit.resolutions) && AllFound(rows, view) && ApplyCommit(journal, commit).Ok?
    ensures NothingUnresolved(ApplyCommit(journal, commit).value)
  {
    var after := ApplyCommit(journal, commit).value;
    UnresolvedRowsAreAll(journal, |journal.clients|);
    ResolveOnlySettles(journal.entries, commit.resolutions, commit.timestamp);
    forall c | c in after.entries ensures !Unresolved(after.entries[c]) {
      if Unresolved(journal.entries[c]) {
        assert c in journal.clients;
        var k :| 0 <= k < |journal.clients| && journal.clients[k] == c;
        var i :| 0 <= i < |rows| && rows[i] == journal.entries[c];
        assert Resolution(c, view.byClient(c).order.brokerId) in commit.resolutions;
        NamedIsReconciled(journal.entries, commit.resolutions, commit.timestamp, c);
      }
    }
  }

  /** What the reads of one reconciliation came to, before any projection. */
  datatype Gathered = Gathered(account: AccountSnapshot, rows: seq<Submission>, commit: Commit, issues: seq<Issue>)

  /** Reads found nothing to object to. */
  ghost predicate ReadsClean(journal: Journal, view: BrokerView, prefix: string, gathered: Gathered) {
    && AllFound(gathered.rows, view)
    && (forall i :: 0 <= i < |view.openOrders| ==> Explained(view.openOrders[i], prefix, journal.entries.Keys))
    && (forall i :: 0 <= i < |gathered.commit.fills| ==> gathered.commit.fills[i].clientId.Some?)
  }

  /** What was read comes from the journal, the lookups, and the stream after the checkpoint. */
  ghost predicate ReadsFaithful(journal: Journal, view: BrokerView, timestamp: int, gathered: Gathered, pages: nat)
    requires JournalOk(journal)
  {
    var commit := gathered.commit;
    && gathered.rows == UnresolvedUpTo(journal, |journal.clients|)
    && FoundFor(gathered.rows, view, commit.resolutions) && commit.resolutions == ResolutionsOf(gathered.rows, view)
    && commit.positions == view.positions && commit.timestamp == timestamp
    && StartOf(view.streams(0), journal.checkpoint).Some?
    && var stream, start := view.streams(pages), StartOf(view.streams(0), journal.checkpoint).value;
       start <= |stream| && NormalizesRest(stream, start, commit.fills)
       && commit.checkpoint == LastToken(stream[start..], journal.checkpoint)
  }

  /** A report is ready exactly when this holds of the reads and of the fills as committed. */
  ghost predicate ReadyWhen(before: Journal, after: Journal, view: BrokerView, prefix: string, gathered: Gathered) {
    && ReadsClean(before, view, prefix, gathered)
    && OwnedFillsKnown(after.fills, prefix, before.entries.Keys)
    && (forall s :: OwnedPosition(after.fills, prefix, s) == MarketControls.SymbolQuantity(view.positions, s))
    && gathered.account.PermitsNewExposure()
  }

  /** Activities whose execution was not stored before; one that two pages repeat is counted twice. */
  function NewExecutions(activities: seq<FillActivity>, stored: map<string, FillActivity>): nat {
    if activities == [] then 0
    else (if activities[0].executionId in stored then 0 else 1) + NewExecutions(activities[1..], stored)
  }

  class PaperReconciler {
    const journal: SQLiteBrokerJournal
    const prefix: string
    const accountHash: string
    const pageSize: nat
    const maximumPages: nat

    predicate Configured() { 1 <= pageSize <= 100 && maximumPages > 0 }

    constructor (journal: SQLiteBrokerJournal, prefix: string, accountHash: string, pageSize: nat, maximumPages: nat)
      requires 1 <= pageSize <= 100 && maximumPages > 0
      ensures Configured() && this.journal == journal && this.prefix == prefix && this.accountHash == accountHash
      ensures this.pageSize == pageSize && this.maximumPages == maximumPages
    {
      this.journal, this.prefix, this.accountHash := journal, prefix, accountHash;
      this.pageSize, this.maximumPages := pageSize, maximumPages;
    }

    /** One reconciliation. It either raises and leaves the journal alone, or commits everything it read and
        returns a report about exactly what it committed. */
    method Reconcile(view: BrokerView, timestamp: int)
      returns (result: Result<Report, ReconcileError>, ghost gathered: Option<Gathered>, ghost pages: nat)
      requires Configured() && journal.Valid() && Appends(view.streams)
      modifies journal
      ensures journal.Valid()
      ensures result.Err? ==> journal.tables == old(journal.tables)
      ensures result.Ok? ==>
                && gathered.Some? && ApplyCommit(old(journal.tables), gathered.value.commit) == Ok(journal.tables)
                && ReadsFaithful(old(journal.tables), view, timestamp, gathered.value, pages)
                && Projects(result.value.expected, journal.tables.fills, prefix)
                && (forall s :: At(result.value.observed, s) == MarketControls.SymbolQuantity(view.positions, s))
                && (result.value.ready <==> ReadyWhen(old(journal.tables), journal.tables, view, prefix, gathered.value))
                && (result.value.ready <==> result.value.issues == [])
                && (result.value.ready ==> NothingUnresolved(journal.tables) && result.value.unresolved == 0)
                && (result.value.accountPermits <==> gathered.value.account.PermitsNewExposure())
    {
      gathered := None;
      var inputs;
      inputs, pages := Gather(view, timestamp);
      if inputs.Err? {
        return Err(inputs.error), None, pages;
      }
      gathered := Some(inputs.value);
      var account, commit := inputs.value.account, inputs.value.commit;
      var known := journal.tables.entries.Keys + (set r | r in commit.resolutions :: r.client);
      KnownCoversResolved(journal.tables, inputs.value.rows, view, commit.resolutions);
      var report := Assess(inputs.value, view, known, timestamp);
      ghost var before := journal.tables;
      var error := journal.ApplyReconciliation(commit);
      if error.Some? {
        return Err(JournalFailed(error.value)), gathered, pages;
      }
      ApplyKeepsOk(before, commit);
      StoredSymbolsAreDistinct(map[], commit.positions);
      if report.ready {
        AllFoundSettlesAll(before, inputs.value.rows, view, commit);
      }
      return Ok(report), gathered, pages;
    }

    /** Every projection and comparison, from the in-memory merge of the stored fills and the activities read. */
    method Assess(inputs: Gathered, view: BrokerView, known: set<ClientId>, timestamp: int) returns (report: Report)
      requires |inputs.commit.resolutions| <= |inputs.rows|
      requires AllFound(inputs.rows, view) ==> |inputs.commit.resolutions| == |inputs.rows|
      requires inputs.issues == [] <==> ReadsClean(journal.tables, view, prefix, inputs)
      ensures var merged := Merged(journal.tables.fills, inputs.commit.fills);
              && Projects(report.expected, merged, prefix)
              && (forall s :: At(report.observed, s) == MarketControls.SymbolQuantity(view.positions, s))
              && (report.ready <==> report.issues == [])
              && (report.ready <==>
                    && ReadsClean(journal.tables, view, prefix, inputs) && OwnedFillsKnown(merged, prefix, known)
                    && SymbolsDistinct(view.positions) && inputs.account.PermitsNewExposure()
                    && (forall s :: OwnedPosition(merged, prefix, s) == MarketControls.SymbolQuantity(view.positions, s)))
              && (report.ready ==> report.unresolved == 0)
              && (report.accountPermits <==> inputs.account.PermitsNewExposure())
    {
      var merged := Merged(journal.tables.fills, inputs.commit.fills);
      var expected, fillIssues := ProjectOwnedPositions(merged, prefix, known);
      var observed, positionIssues := PositionMap(view.positions);
      var mismatches := ComparePositions(expected, observed);
      assert mismatches == [] <==> forall s :: OwnedPosition(merged, prefix, s) == MarketControls.SymbolQuantity(view.positions, s) by {
        SamePositions(expected, observed, merged, prefix, view.positions);
      }
      var issues := inputs.issues + fillIssues + positionIssues + mismatches;
      if !inputs.account.PermitsNewExposure() {
        issues := issues + [Issue(IssueCode.AccountNotPermitted, inputs.account.accountHash)];
      }
      var added := NewExecutions(inputs.commit.fills, journal.tables.fills);
      report := Report(timestamp, issues == [], inputs.account.PermitsNewExposure(), added, |inputs.commit.resolutions|,
                       |inputs.rows| - |inputs.commit.resolutions|, inputs.commit.checkpoint, expected, observed, issues);
    }

    /** Every broker and journal read, in order. */
    method Gather(view: BrokerView, timestamp: int) returns (result: Result<Gathered, ReconcileError>, ghost pages: nat)
      requires Configured() && journal.Valid() && Appends(view.streams)
      ensures result.Ok? ==>
                && ReadsFaithful(journal.tables, view, timestamp, result.value, pages)
                && (result.value.issues == [] <==> ReadsClean(journal.tables, view, prefix, result.value))
                && |result.value.commit.resolutions| <= |result.value.rows|
                && (AllFound(result.value.rows, view) ==> |result.value.commit.resolutions| == |result.value.rows|)
    {
      pages := 0;
      if view.account.None? {
        return Err(BrokerFailed), pages;
      }
      if view.account.value.accountHash != accountHash {
        return Err(AccountChanged), pages;
      }
      var rows := journal.UnresolvedSubmissions();
      if rows.Err? {
        return Err(JournalFailed(rows.error)), pages;
      }
      var openCache := CacheOpenOrders(view.openOrders);
      var failed, resolutions, cache, lookupIssues := LookUpUnresolved(rows.value, view, openCache);
      if failed {
        return Err(BrokerFailed), pages;
      }
      KnownCoversResolved(journal.tables, rows.value, view, resolutions);
      var known := journal.tables.entries.Keys + (set r | r in resolutions :: r.client);
      var orderIssues := CheckOpenOrders(view.openOrders, prefix, known);
      var fills;
      fills, pages := GatherFills(view, cache);
      if fills.Err? {
        return Err(fills.error), pages;
      }
      var commit := Commit(fills.value.orders, view.positions, fills.value.normalized, resolutions, fills.value.checkpoint, timestamp);
      NoIssues(lookupIssues, orderIssues, fills.value.issues);
      return Ok(Gathered(view.account.value, rows.value, commit, lookupIssues + orderIssues + fills.value.issues)), pages;
    }

    /** The fill pages, with owners added from the order cache or by lookup. */
    method GatherFills(view: BrokerView, cached: seq<OrderSnapshot>)
      returns (result: Result<GatheredFills, ReconcileError>, ghost pages: nat)
      requires Configured() && Appends(view.streams)
      ensures result.Ok? ==>
                && StartOf(view.streams(0), journal.tables.checkpoint).Some?
                && var stream, start := view.streams(pages), StartOf(view.streams(0), journal.tables.checkpoint).value;
                   start <= |stream| && NormalizesRest(stream, start, result.value.normalized)
                   && result.value.checkpoint == LastToken(stream[start..], journal.tables.checkpoint)
      ensures result.Ok? ==>
                (result.value.issues == [] <==>
                 forall i :: 0 <= i < |result.value.normalized| ==> result.value.normalized[i].clientId.Some?)
    {
      pages := 0;
      var checkpoint := journal.tables.checkpoint;
      if StartOf(view.streams(0), checkpoint).None? {
        return Err(BrokerFailed), pages;
      }
      ghost var start := StartOf(view.streams(0), checkpoint).value;
      var read;
      read, pages := ReadAllFillPages(checkpoint, view.streams, pageSize, maximumPages, start);
      if read.Err? {
        return Err(read.error), pages;
      }
      var failed, normalized, orders, issues := NormalizeActivities(read.value.0, view, cached, map[]);
      if failed {
        return Err(BrokerFailed), pages;
      }
      NormalizedSlice(view.streams(pages), start, normalized);
      return Ok(GatheredFills(normalized, orders, read.value.1, issues)), pages;
    }
  }

  datatype GatheredFills = GatheredFills(normalized: seq<FillActivity>, orders: seq<OrderSnapshot>,
                                         checkpoint: Option<ActivityId>, issues: seq<Issue>)

  lemma {:induction false} NoIssues(a: seq<Issue>, b: seq<Issue>, c: seq<Issue>)
    ensures a + b + c == [] <==> a == [] && b == [] && c == []
  {
    assert |a + b + c| == |a| + |b| + |c|;
  }

  /** A reconciliation resolves only clients the journal knows. */
  lemma {:induction false} KnownCoversResolved(journal: Journal, rows: seq<Submission>, view: BrokerView, resolutions: seq<Resolution>)
    requires JournalOk(journal) && rows == UnresolvedUpTo(journal, |journal.clients|) && FoundFor(rows, view, resolutions)
    ensures journal.entries.Keys + (set r | r in resolutions :: r.client) == journal.entries.Keys
  {
    UnresolvedRowsAreAll(journal, |journal.clients|);
    forall r | r in resolutions ensures r.client in journal.entries {
      assert Backed(rows, view, r);
      var i :| 0 <= i < |rows| && rows[i].order.clientId == r.client;
      assert rows[i] in rows;
    }
  }

  lemma {:induction false} SamePositions(expected: map<string, real>, observed: map<string, real>, fills: map<string, FillActivity>,
                      prefix: string, positions: seq<PositionSnapshot>)
    requires Projects(expected, fills, prefix)
    requires forall s :: At(observed, s) == MarketControls.SymbolQuantity(positions, s)
    ensures (forall s :: At(expected, s) == At(observed, s)) <==>
            forall s :: OwnedPosition(fills, prefix, s) == MarketControls.SymbolQuantity(positions, s)
  {
    if forall s :: At(expected, s) == At(observed, s) {
      forall s ensures OwnedPosition(fills, prefix, s) == MarketControls.SymbolQuantity(positions, s) {
        assert At(expected, s) == At(observed, s);
      }
    } else {
      var s :| At(expected, s) != At(observed, s);
      assert OwnedPosition(fills, prefix, s) != MarketControls.SymbolQuantity(positions, s);
    }
  }
}
