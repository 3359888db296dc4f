/** The report's own accounting: flat-to-flat round trips, the legacy exit diagnostic and the drawdown scan. */
module Reporting {
  import opened Prelude
  import opened Sums
  import opened Portfolio

  datatype Accumulator = Accumulator(openedAt: int, quantity: int, entryQuantity: int, exitQuantity: int,
                                     entryNotional: real, exitNotional: real, fees: real,
                                     entryFillCount: int, exitFillCount: int)

  datatype RoundTripTrade = RoundTripTrade(symbol: string, openedAt: int, closedAt: int,
                                           entryFillCount: int, exitFillCount: int,
                                           entryQuantity: int, exitQuantity: int,
                                           grossPnl: real, fees: real, netPnl: real)

  datatype Groups = Groups(active: map<string, Accumulator>, completed: seq<RoundTripTrade>)

  datatype HistoryError = StartsWithSell | ImpossibleSellQuantity | MismatchedQuantities

  function Opened(timestamp: int): Accumulator {
    Accumulator(timestamp, 0, 0, 0, 0.0, 0.0, 0.0, 0, 0)
  }

  function Entered(a: Accumulator, fill: Fill): Accumulator {
    a.(fees := a.fees + fill.fee,
       quantity := a.quantity + fill.quantity, entryQuantity := a.entryQuantity + fill.quantity,
       entryNotional := a.entryNotional + fill.GrossNotional(), entryFillCount := a.entryFillCount + 1)
  }

  function Exited(a: Accumulator, fill: Fill): Accumulator {
    a.(fees := a.fees + fill.fee,
       quantity := a.quantity - fill.quantity, exitQuantity := a.exitQuantity + fill.quantity,
       exitNotional := a.exitNotional + fill.GrossNotional(), exitFillCount := a.exitFillCount + 1)
  }

  function Closed(a: Accumulator, fill: Fill): RoundTripTrade {
    var gross := a.exitNotional - a.entryNotional;
    RoundTripTrade(fill.symbol, a.openedAt, fill.timestamp, a.entryFillCount, a.exitFillCount,
                   a.entryQuantity, a.exitQuantity, gross, a.fees, gross - a.fees)
  }

  function GroupFill(groups: Groups, fill: Fill): Result<Groups, HistoryError> {
    if fill.symbol !in groups.active && fill.side.Sell? then Err(StartsWithSell)
    else
      var a := if fill.symbol in groups.active then groups.active[fill.symbol] else Opened(fill.timestamp);
      if fill.side.Buy? then
        Ok(groups.(active := groups.active[fill.symbol := Entered(a, fill)]))
      else if fill.quantity > a.quantity then Err(ImpossibleSellQuantity)
      else
        var after := Exited(a, fill);
        if after.quantity != 0 then Ok(groups.(active := groups.active[fill.symbol := after]))
        else if after.entryQuantity != after.exitQuantity then Err(MismatchedQuantities)
        else Ok(Groups(groups.active - {fill.symbol}, groups.completed + [Closed(after, fill)]))
  }

  function GroupAll(fills: seq<Fill>): Result<Groups, HistoryError> {
    if fills == [] then Ok(Groups(map[], []))
    else
      match GroupAll(fills[..|fills| - 1])
      case Err(error) => Err(error)
      case Ok(groups) => GroupFill(groups, fills[|fills| - 1])
  }

  /** The report's loop over the whole fill history. */
  method RoundTripTrades(fills: seq<Fill>)
    returns (result: Result<(seq<RoundTripTrade>, nat), HistoryError>)
    ensures match GroupAll(fills)
            case Ok(groups) => result == Ok((groups.completed, |groups.active|))
            case Err(error) => result == Err(error)
  {
    var active: map<string, Accumulator> := map[];
    var completed: seq<RoundTripTrade> := [];
    for i := 0 to |fills|
      invariant GroupAll(fills[..i]) == Ok(Groups(active, completed))
    {
      var fill := fills[i];
      assert fills[..i + 1][..i] == fills[..i];
      ghost var step := GroupFill(Groups(active, completed), fill);
      assert GroupAll(fills[..i + 1]) == step;
      if fill.symbol !in active {
        if fill.side.Sell? {
          PrefixError(fills, i + 1);
          return Err(StartsWithSell);
        }
      }
      var a := if fill.symbol in active then active[fill.symbol] else Opened(fill.timestamp);
      a := a.(fees := a.fees + fill.fee);
      if fill.side.Buy? {
        a := a.(quantity := a.quantity + fill.quantity, entryQuantity := a.entryQuantity + fill.quantity);
        a := a.(entryNotional := a.entryNotional + fill.GrossNotional(), entryFillCount := a.entryFillCount + 1);
        active := active[fill.symbol := a];
      } else {
        if fill.quantity > a.quantity {
          PrefixError(fills, i + 1);
          return Err(ImpossibleSellQuantity);
        }
        a := a.(quantity := a.quantity - fill.quantity, exitQuantity := a.exitQuantity + fill.quantity);
        a := a.(exitNotional := a.exitNotional + fill.GrossNotional(), exitFillCount := a.exitFillCount + 1);
        if a.quantity != 0 {
          active := active[fill.symbol := a];
        } else {
          if a.entryQuantity != a.exitQuantity {
            PrefixError(fills, i + 1);
            return Err(MismatchedQuantities);
          }
          completed := completed + [Closed(a, fill)];
          active := active - {fill.symbol};
        }
      }
    }
    assert fills[..|fills|] == fills;
    return Ok((completed, |active|));
  }

  /** Once grouping raised, the whole history raises the same error. */
  lemma {:induction false} PrefixError(fills: seq<Fill>, n: nat)
    requires n <= |fills| && GroupAll(fills[..n]).Err?
    ensures GroupAll(fills) == GroupAll(fills[..n])
  {
    if n == |fills| {
      assert fills[..n] == fills;
    } else {
      assert fills[..|fills| - 1][..n] == fills[..n];
      PrefixError(fills[..|fills| - 1], n);
    }
  }

  /** What is open is what entered and has not left, so a trip that closes always balances: the third error of the
      source is never raised, on any history. */
  lemma {:induction false} TripsAlwaysBalance(fills: seq<Fill>)
    ensures GroupAll(fills).Ok? ==>
              forall symbol :: symbol in GroupAll(fills).value.active ==>
                var a := GroupAll(fills).value.active[symbol]; a.quantity == a.entryQuantity - a.exitQuantity
    ensures GroupAll(fills) != Err(MismatchedQuantities)
  {
    if fills != [] { TripsAlwaysBalance(fills[..|fills| - 1]); }
  }

  // ----- agreement of the two accounts -----

  ghost function TotalGross(trades: seq<RoundTripTrade>): real {
    if trades == [] then 0.0 else TotalGross(trades[..|trades| - 1]) + trades[|trades| - 1].grossPnl
  }

  ghost function TotalFees(trades: seq<RoundTripTrade>): real {
    if trades == [] then 0.0 else TotalFees(trades[..|trades| - 1]) + trades[|trades| - 1].fees
  }

  ghost function TotalNet(trades: seq<RoundTripTrade>): real {
    if trades == [] then 0.0 else TotalNet(trades[..|trades| - 1]) + trades[|trades| - 1].netPnl
  }

  /** The gross profit of an open trip: exits less entries plus the average cost of what is still held. */
  ghost function OpenGross(active: map<string, Accumulator>, positions: map<string, Position>): map<string, real> {
    map symbol | symbol in active :: TripGross(active[symbol], Held(positions, symbol))
  }

  ghost function TripGross(a: Accumulator, position: Position): real {
    a.exitNotional - a.entryNotional + Cost(position)
  }

  /** An entry moves money from the entry side to the held cost. */
  lemma {:induction false} EntryKeepsGross(a: Accumulator, position: Position, fill: Fill)
    requires ValidPosition(position) && ValidFill(fill)
    ensures TripGross(Entered(a, fill), BoughtPosition(position, fill)) == TripGross(a, position)
    ensures BoughtPosition(position, fill).quantity == position.quantity + fill.quantity
  {
    BoughtCost(position, fill);
  }

  /** An exit adds exactly what the portfolio realizes. */
  lemma {:induction false} ExitAddsRealized(a: Accumulator, position: Position, fill: Fill)
    ensures TripGross(Exited(a, fill), SoldPosition(position, fill)) == TripGross(a, position) + Gain(position, fill)
  {
    SoldCost(position, fill);
  }

  ghost function OpenFees(active: map<string, Accumulator>): map<string, real> {
    map symbol | symbol in active :: active[symbol].fees
  }

  ghost predicate AccumulatorMatches(a: Accumulator, position: Position) {
    a.quantity == position.quantity && a.entryQuantity - a.exitQuantity == a.quantity
  }

  /** The grouping state and the portfolio tell the same story. */
  ghost predicate Agree(book: Book, groups: Groups) {
    SameHoldings(book.positions, groups) && SameTotals(book, groups)
  }

  ghost predicate SameHoldings(positions: map<string, Position>, groups: Groups) {
    && (forall symbol :: symbol in groups.active <==> Held(positions, symbol).quantity > 0)
    && (forall symbol :: symbol in groups.active ==>
          AccumulatorMatches(groups.active[symbol], Held(positions, symbol)))
  }

  ghost predicate SameTotals(book: Book, groups: Groups) {
    && book.realizedPnl == TotalGross(groups.completed) + Sum(OpenGross(groups.active, book.positions))
    && book.totalFees == TotalFees(groups.completed) + Sum(OpenFees(groups.active))
  }

  lemma {:induction false} OpenSumsUpdate(active: map<string, Accumulator>, positions: map<string, Position>,
                       symbol: string, a: Accumulator, position: Position)
    ensures Sum(OpenGross(active[symbol := a], positions[symbol := position]))
         == Sum(OpenGross(active, positions)) - At(OpenGross(active, positions), symbol)
            + TripGross(a, position)
    ensures Sum(OpenFees(active[symbol := a])) == Sum(OpenFees(active)) - At(OpenFees(active), symbol) + a.fees
  {
    var gross := TripGross(a, position);
    SumUpdate(OpenGross(active, positions), symbol, gross);
    assert OpenGross(active[symbol := a], positions[symbol := position]) == OpenGross(active, positions)[symbol := gross];
    SumUpdate(OpenFees(active), symbol, a.fees);
    assert OpenFees(active[symbol := a]) == OpenFees(active)[symbol := a.fees];
  }

  lemma {:induction false} OpenSumsDrop(active: map<string, Accumulator>, positions: map<string, Position>,
                     symbol: string, position: Position)
    ensures Sum(OpenGross(active - {symbol}, positions[symbol := position]))
         == Sum(OpenGross(active, positions)) - At(OpenGross(active, positions), symbol)
    ensures Sum(OpenFees(active - {symbol})) == Sum(OpenFees(active)) - At(OpenFees(active), symbol)
  {
    SumDrop(OpenGross(active, positions), symbol);
    assert OpenGross(active - {symbol}, positions[symbol := position]) == OpenGross(active, positions) - {symbol};
    SumDrop(OpenFees(active), symbol);
    assert OpenFees(active - {symbol}) == OpenFees(active) - {symbol};
  }

  lemma {:induction false} BuyAgrees(book: Book, groups: Groups, fill: Fill)
    requires PositionsOk(book) && ValidFill(fill) && fill.side.Buy? && Agree(book, groups)
    ensures GroupFill(groups, fill).Ok? && Agree(Bought(book, fill), GroupFill(groups, fill).value)
  {
    var bought := BoughtPosition(Held(book.positions, fill.symbol), fill);
    BuyKeepsTotals(book, groups, fill, bought);
    BuyKeepsHoldings(book.positions, groups, fill, bought);
  }

  lemma {:induction false} BuyKeepsHoldings(positions: map<string, Position>, groups: Groups, fill: Fill, bought: Position)
    requires fill.side.Buy? && fill.quantity > 0 && SameHoldings(positions, groups)
    requires bought.quantity == Held(positions, fill.symbol).quantity + fill.quantity
    requires Held(positions, fill.symbol).quantity >= 0
    ensures GroupFill(groups, fill).Ok?
    ensures SameHoldings(positions[fill.symbol := bought], GroupFill(groups, fill).value)
  {
  }

  lemma {:induction false} BuyKeepsTotals(book: Book, groups: Groups, fill: Fill, bought: Position)
    requires PositionsOk(book) && ValidFill(fill) && fill.side.Buy? && SameTotals(book, groups)
    requires bought == BoughtPosition(Held(book.positions, fill.symbol), fill)
    requires fill.symbol !in groups.active ==> Held(book.positions, fill.symbol).quantity == 0
    ensures GroupFill(groups, fill).Ok?
    ensures SameTotals(Bought(book, fill), GroupFill(groups, fill).value)
  {
    var held := Held(book.positions, fill.symbol);
    var a := if fill.symbol in groups.active then groups.active[fill.symbol] else Opened(fill.timestamp);
    EntryKeepsGross(a, held, fill);
    OpenSumsUpdate(groups.active, book.positions, fill.symbol, Entered(a, fill), bought);
    assert fill.symbol !in groups.active ==> TripGross(a, held) == 0.0;
    assert At(OpenGross(groups.active, book.positions), fill.symbol) == TripGross(a, held);
  }

  lemma {:induction false} SellAgrees(book: Book, groups: Groups, fill: Fill)
    requires PositionsOk(book) && ValidFill(fill) && fill.side.Sell? && Agree(book, groups)
    requires fill.quantity <= Held(book.positions, fill.symbol).quantity
    ensures GroupFill(groups, fill).Ok? && Agree(Sold(book, fill), GroupFill(groups, fill).value)
  {
    assert SameHoldings(Sold(book, fill).positions, GroupFill(groups, fill).value);
    SellKeepsTotals(book, groups, fill);
  }

  lemma {:induction false} SellKeepsTotals(book: Book, groups: Groups, fill: Fill)
    requires fill.side.Sell? && fill.symbol in groups.active && SameTotals(book, groups)
    requires AccumulatorMatches(groups.active[fill.symbol], Held(book.positions, fill.symbol))
    requires fill.quantity <= Held(book.positions, fill.symbol).quantity
    ensures GroupFill(groups, fill).Ok? && SameTotals(Sold(book, fill), GroupFill(groups, fill).value)
  {
    var held := Held(book.positions, fill.symbol);
    var a := groups.active[fill.symbol];
    var sold := SoldPosition(held, fill);
    ExitAddsRealized(a, held, fill);
    assert At(OpenGross(groups.active, book.positions), fill.symbol) == TripGross(a, held);
    if sold.quantity != 0 {
      OpenSumsUpdate(groups.active, book.positions, fill.symbol, Exited(a, fill), sold);
    } else {
      OpenSumsDrop(groups.active, book.positions, fill.symbol, sold);
      var trade := Closed(Exited(a, fill), fill);
      TotalsAppend(groups.completed, trade);
      assert Cost(sold) == 0.0;
    }
  }

  lemma {:induction false} TotalsAppend(trades: seq<RoundTripTrade>, trade: RoundTripTrade)
    ensures TotalGross(trades + [trade]) == TotalGross(trades) + trade.grossPnl
    ensures TotalFees(trades + [trade]) == TotalFees(trades) + trade.fees
  {
    assert (trades + [trade])[..|trades|] == trades;
  }

  /** On every fill history the portfolio accepted, grouping never raises and agrees with the portfolio. */
  lemma {:induction false} AccountsAgree(initialCash: real, fills: seq<Fill>)
    requires forall i :: 0 <= i < |fills| ==> ValidFill(fills[i])
    requires AllAccepted(initialCash, fills)
    ensures GroupAll(fills).Ok? && Agree(ApplyAll(initialCash, fills), GroupAll(fills).value)
  {
    if fills == [] {
    } else {
      var init := fills[..|fills| - 1];
      var fill := fills[|fills| - 1];
      AccountsAgree(initialCash, init);
      if fill.side.Buy? {
        BuyAgrees(ApplyAll(initialCash, init), GroupAll(init).value, fill);
      } else {
        SellAgrees(ApplyAll(initialCash, init), GroupAll(init).value, fill);
      }
    }
  }

  /** Read off the report: how many trips are open, and what all trips together earned before fees. */
  lemma {:induction false} ReportMatchesPortfolio(initialCash: real, fills: seq<Fill>)
    requires forall i :: 0 <= i < |fills| ==> ValidFill(fills[i])
    requires AllAccepted(initialCash, fills)
    ensures var book := ApplyAll(initialCash, fills);
            && GroupAll(fills).Ok?
            && var groups := GroupAll(fills).value;
            && |groups.active| == |set symbol | symbol in book.positions && book.positions[symbol].quantity > 0|
            && TotalGross(groups.completed) + Sum(OpenGross(groups.active, book.positions)) == book.realizedPnl
  {
    AccountsAgree(initialCash, fills);
    var book := ApplyAll(initialCash, fills);
    var groups := GroupAll(fills).value;
    assert groups.active.Keys == set symbol | symbol in book.positions && book.positions[symbol].quantity > 0;
  }

  lemma {:induction false} NetIsGrossLessFees(trades: seq<RoundTripTrade>)
    requires forall i :: 0 <= i < |trades| ==> trades[i].netPnl == trades[i].grossPnl - trades[i].fees
    ensures TotalNet(trades) == TotalGross(trades) - TotalFees(trades)
  {
    if trades != [] { NetIsGrossLessFees(trades[..|trades| - 1]); }
  }

  lemma {:induction false} CompletedAreNet(fills: seq<Fill>)
    requires GroupAll(fills).Ok?
    ensures forall i :: 0 <= i < |GroupAll(fills).value.completed| ==>
              var trade := GroupAll(fills).value.completed[i]; trade.netPnl == trade.grossPnl - trade.fees
  {
    if fills != [] { CompletedAreNet(fills[..|fills| - 1]); }
  }

  /** When everything is flat, the round trips' net profit is exactly the change in cash. */
  lemma {:induction false} FlatNetIsCashChange(initialCash: real, fills: seq<Fill>)
    requires initialCash > 0.0 && forall i :: 0 <= i < |fills| ==> ValidFill(fills[i])
    requires AllAccepted(initialCash, fills)
    requires forall symbol :: Held(ApplyAll(initialCash, fills).positions, symbol).quantity == 0
    ensures GroupAll(fills).Ok? && GroupAll(fills).value.active == map[]
    ensures TotalNet(GroupAll(fills).value.completed) == ApplyAll(initialCash, fills).cash - initialCash
  {
    var book := ApplyAll(initialCash, fills);
    AccountsAgree(initialCash, fills);
    ConservationOverEveryHistory(initialCash, fills);
    var groups := GroupAll(fills).value;
    CompletedAreNet(fills);
    NetIsGrossLessFees(groups.completed);
    SumAllZero(OpenGross(groups.active, book.positions));
    SumAllZero(OpenFees(groups.active));
    forall symbol | symbol in Costs(book.positions) ensures Costs(book.positions)[symbol] == 0.0 {
      assert Held(book.positions, symbol).quantity == 0;
    }
    SumAllZero(Costs(book.positions));
  }

  // ----- the legacy exit-fill diagnostic -----

  datatype ExitState = ExitState(held: Position, exits: int, winningExits: int, grossPnl: real)

  function ExitPnl(state: ExitState, fill: Fill): real {
    Gain(state.held, fill) - fill.fee
  }

  function ExitStep(state: ExitState, fill: Fill): Result<ExitState, HistoryError>
    requires ValidPosition(state.held) && ValidFill(fill)
  {
    if fill.side.Buy? then Ok(state.(held := BoughtPosition(state.held, fill)))
    else if fill.quantity > state.held.quantity then Err(ImpossibleSellQuantity)
    else
      var pnl := ExitPnl(state, fill);
      Ok(ExitState(SoldPosition(state.held, fill), state.exits + 1,
                   state.winningExits + (if pnl > 0.0 then 1 else 0), state.grossPnl + pnl))
  }

  method ExitStatistics(fills: seq<Fill>) returns (result: Result<ExitState, HistoryError>)
    requires forall i :: 0 <= i < |fills| ==> ValidFill(fills[i])
    ensures result == ExitAll(fills)
  {
    var state := ExitState(Flat, 0, 0, 0.0);
    for i := 0 to |fills|
      invariant ValidPosition(state.held) && ExitAll(fills[..i]) == Ok(state)
    {
      assert fills[..i + 1][..i] == fills[..i];
      BoughtCost(state.held, fills[i]);
      var step := ExitStep(state, fills[i]);
      if step.Err? {
        ExitPrefixError(fills, i + 1);
        return step;
      }
      state := step.value;
    }
    assert fills[..|fills|] == fills;
    return Ok(state);
  }

  function ExitAll(fills: seq<Fill>): (result: Result<ExitState, HistoryError>)
    requires forall i :: 0 <= i < |fills| ==> ValidFill(fills[i])
    ensures result.Ok? ==> ValidPosition(result.value.held)
    ensures result.Err? ==> result.error == ImpossibleSellQuantity
  {
    if fills == [] then Ok(ExitState(Flat, 0, 0, 0.0))
    else
      match ExitAll(fills[..|fills| - 1])
      case Err(error) => Err(error)
      case Ok(state) =>
        BoughtCost(state.held, fills[|fills| - 1]);
        ExitStep(state, fills[|fills| - 1])
  }

  lemma {:induction false} ExitPrefixError(fills: seq<Fill>, n: nat)
    requires forall i :: 0 <= i < |fills| ==> ValidFill(fills[i])
    requires n <= |fills| && ExitAll(fills[..n]).Err?
    ensures ExitAll(fills).Err?
  {
    if n == |fills| {
      assert fills[..n] == fills;
    } else {
      ExitPrefixError(fills[..|fills| - 1], n) by { assert fills[..|fills| - 1][..n] == fills[..n]; }
    }
  }

  ghost function SellFees(fills: seq<Fill>): real {
    if fills == [] then 0.0
    else SellFees(fills[..|fills| - 1]) + (if fills[|fills| - 1].side.Sell? then fills[|fills| - 1].fee else 0.0)
  }

  /** For a single-symbol history the diagnostic is the realized profit less the fees paid on exits. */
  lemma {:induction false} ExitDiagnosticMatchesPortfolio(initialCash: real, fills: seq<Fill>, symbol: string)
    requires forall i :: 0 <= i < |fills| ==> ValidFill(fills[i]) && fills[i].symbol == symbol
    requires AllAccepted(initialCash, fills)
    ensures ExitAll(fills).Ok?
    ensures var book := ApplyAll(initialCash, fills); var state := ExitAll(fills).value;
            && state.held == Held(book.positions, symbol)
            && state.grossPnl == book.realizedPnl - SellFees(fills)
  {
    if fills != [] {
      var init, fill := fills[..|fills| - 1], fills[|fills| - 1];
      ExitDiagnosticMatchesPortfolio(initialCash, init, symbol);
    }
  }

  // ----- the drawdown scan -----

  datatype Scan = Scan(peak: real, maximumDrawdown: real)

  function ScanPoint(scan: Scan, equity: real): Scan {
    var peak := MaxReal(scan.peak, equity);
    Scan(peak, if peak > 0.0 then MinReal(scan.maximumDrawdown, equity / peak - 1.0) else scan.maximumDrawdown)
  }

  function ScanAll(curve: seq<real>): Scan
    requires curve != []
  {
    ScanPoint(if |curve| == 1 then Scan(curve[0], 0.0) else ScanAll(curve[..|curve| - 1]), curve[|curve| - 1])
  }

  method MaximumDrawdown(curve: seq<real>) returns (maximumDrawdown: real)
    requires curve != []
    ensures maximumDrawdown == ScanAll(curve).maximumDrawdown
  {
    var peak := curve[0];
    maximumDrawdown := 0.0;
    for i := 0 to |curve|
      invariant i == 0 ==> peak == curve[0] && maximumDrawdown == 0.0
      invariant i > 0 ==> ScanAll(curve[..i]) == Scan(peak, maximumDrawdown)
    {
      assert curve[..i + 1][..i] == curve[..i];
      peak := MaxReal(peak, curve[i]);
      if peak > 0.0 {
        var drawdown := curve[i] / peak - 1.0;
        maximumDrawdown := MinReal(maximumDrawdown, drawdown);
      }
    }
    assert curve[..|curve|] == curve;
  }

  /** The peak of the scan is an element of the curve and no element exceeds it. */
  lemma {:induction false} ScanPeak(curve: seq<real>)
    requires curve != []
    ensures forall i :: 0 <= i < |curve| ==> curve[i] <= ScanAll(curve).peak
    ensures exists i :: 0 <= i < |curve| && curve[i] == ScanAll(curve).peak
  {
    if |curve| > 1 {
      var init := curve[..|curve| - 1];
      ScanPeak(init);
      var k :| 0 <= k < |init| && init[k] == ScanAll(init).peak;
      assert curve[k] == init[k];
      forall i | 0 <= i < |curve| ensures curve[i] <= ScanAll(curve).peak {
        if i < |init| { assert curve[i] == init[i]; }
      }
    }
  }

  /** A ratio only grows when its positive denominator shrinks. */
  lemma {:induction false} RatioMonotone(value: real, small: real, large: real)
    requires value >= 0.0 && 0.0 < small <= large
    ensures value / large <= value / small
  {
    var a, b := value / large, value / small;
    assert a * large == value && b * small == value;
    assert a * small <= a * large;
    if b < a { ScaleStrict(b, a, small); }
  }

  /** No peak-to-trough pair of a nonnegative curve is deeper than the one-pass result. */
  lemma {:induction false} ScanBoundsEveryPair(curve: seq<real>, i: nat, j: nat)
    requires i <= j < |curve| && curve[i] > 0.0
    requires forall k :: 0 <= k < |curve| ==> curve[k] >= 0.0
    ensures ScanAll(curve).maximumDrawdown <= 0.0
    ensures ScanAll(curve).maximumDrawdown <= curve[j] / curve[i] - 1.0
  {
    ScanAtMostZero(curve);
    if j < |curve| - 1 {
      ScanBoundsEveryPair(curve[..|curve| - 1], i, j);
    } else {
      ScanPeak(curve);
      RatioMonotone(curve[j], curve[i], ScanAll(curve).peak);
    }
  }

  lemma {:induction false} ScanAtMostZero(curve: seq<real>)
    requires curve != []
    ensures ScanAll(curve).maximumDrawdown <= 0.0
  {
    if |curve| > 1 { ScanAtMostZero(curve[..|curve| - 1]); }
  }

  /** The one-pass result is zero or is reached by some peak-to-trough pair. */
  lemma {:induction false} ScanIsReached(curve: seq<real>)
    requires curve != []
    ensures ScanAll(curve).maximumDrawdown == 0.0 ||
            exists i, j :: 0 <= i <= j < |curve| && curve[i] > 0.0 &&
                           ScanAll(curve).maximumDrawdown == curve[j] / curve[i] - 1.0
  {
    ScanPeak(curve);
    if |curve| > 1 {
      var init := curve[..|curve| - 1];
      ScanIsReached(init);
      if ScanAll(init).maximumDrawdown != 0.0 {
        var i, j :| 0 <= i <= j < |init| && init[i] > 0.0 && ScanAll(init).maximumDrawdown == init[j] / init[i] - 1.0;
        assert curve[i] == init[i] && curve[j] == init[j];
      }
    }
    var k :| 0 <= k < |curve| && curve[k] == ScanAll(curve).peak;
  }
}
