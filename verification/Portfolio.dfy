/** Long-only cash and position accounting for one simulation run. Decimals are exact reals. */
module Portfolio {
  import opened Prelude
  import opened Sums

  datatype Side = Buy | Sell

  /** UUIDv5 identifiers, modelled by the business fields they are derived from. */
  datatype IntentId = IntentId(timestamp: int, symbol: string, side: Side, quantity: int, referencePrice: real)
  datatype OrderId = OrderId(intentId: IntentId, approvedQuantity: int)

  /** What `quantity` shares are worth at `price`. */
  function Value(quantity: int, price: real): real {
    price * quantity as real
  }

  lemma {:induction false} ValueMonotone(quantity: int, low: real, high: real)
    requires quantity >= 0 && low <= high
    ensures Value(quantity, low) <= Value(quantity, high)
  {
  }

  lemma {:induction false} ValueOfMore(few: int, many: int, price: real)
    requires few <= many && price >= 0.0
    ensures Value(few, price) <= Value(many, price)
  {
  }

  lemma {:induction false} ValueAdds(a: int, b: int, price: real)
    ensures Value(a + b, price) == Value(a, price) + Value(b, price)
  {
  }

  datatype Fill = Fill(orderId: OrderId, timestamp: int, symbol: string, side: Side,
                       quantity: int, price: real, fee: real)
  {
    function GrossNotional(): real { Value(quantity, price) }
  }

  /** What the constructor of a fill demands. */
  predicate ValidFill(fill: Fill) {
    fill.quantity > 0 && fill.price > 0.0 && fill.fee >= 0.0
  }

  datatype MarketEvent = MarketEvent(timestamp: int, symbol: string, open: real, close: real)

  predicate ValidEvent(event: MarketEvent) {
    event.open > 0.0 && event.close > 0.0
  }

  datatype EquityPoint = EquityPoint(timestamp: int, cash: real, marketValue: real, equity: real,
                                     realizedPnl: real, unrealizedPnl: real, fees: real)

  datatype OrderIntent = OrderIntent(id: IntentId, timestamp: int, symbol: string, side: Side,
                                     quantity: int, referencePrice: real)

  datatype Position = Position(quantity: int, averagePrice: real)

  const Flat := Position(0, 0.0)

  /** The value of a portfolio object. */
  datatype Book = Book(initialCash: real, cash: real, positions: map<string, Position>,
                       realizedPnl: real, totalFees: real)

  datatype FillError = NegativeCash | SellExceedsPosition | InvariantFailed

  datatype MarkError = NoCurrentPrice(symbol: string)

  function NewBook(initialCash: real): Book {
    Book(initialCash, initialCash, map[], 0.0, 0.0)
  }

  function Held(positions: map<string, Position>, symbol: string): Position {
    if symbol in positions then positions[symbol] else Flat
  }

  predicate ValidPosition(position: Position) {
    && position.quantity >= 0
    && (position.quantity > 0 ==> position.averagePrice > 0.0)
    && (position.quantity == 0 ==> position.averagePrice == 0.0)
  }

  /** What every reachable book satisfies, whatever happened to its fills. */
  ghost predicate PositionsOk(book: Book) {
    forall symbol :: symbol in book.positions ==> ValidPosition(book.positions[symbol])
  }

  /** The final check of a fill: cash and every position. */
  predicate StateValid(book: Book) {
    && book.cash >= 0.0
    && (forall symbol :: symbol in book.positions ==>
          && book.positions[symbol].quantity >= 0
          && (book.positions[symbol].quantity > 0 ==> book.positions[symbol].averagePrice > 0.0))
  }

  /** One fill against one book: the book left behind, and the error raised if any. A failing fill may still
      have changed the book. */
  function Apply(book: Book, fill: Fill): (Book, Option<FillError>)
    requires PositionsOk(book) && ValidFill(fill)
  {
    if fill.side.Buy? && fill.GrossNotional() + fill.fee > book.cash then
      (Touched(book, fill.symbol), Some(NegativeCash))
    else if fill.side.Sell? && fill.quantity > Held(book.positions, fill.symbol).quantity then
      (Touched(book, fill.symbol), Some(SellExceedsPosition))
    else
      var after := if fill.side.Buy? then Bought(book, fill) else Sold(book, fill);
      (after, if StateValid(after) then None else Some(InvariantFailed))
  }

  /** The book with an empty position recorded for a symbol it did not know. */
  function Touched(book: Book, symbol: string): Book {
    book.(positions := book.positions[symbol := Held(book.positions, symbol)])
  }

  lemma {:induction false} TouchedChangesNoOutcome(book: Book, fill: Fill)
    requires PositionsOk(book) && ValidFill(fill)
    ensures PositionsOk(Touched(book, fill.symbol))
    ensures Bought(Touched(book, fill.symbol), fill) == Bought(book, fill)
    ensures Sold(Touched(book, fill.symbol), fill) == Sold(book, fill)
  {
    var position := Held(book.positions, fill.symbol);
    var touched := Touched(book, fill.symbol);
    assert touched.positions[fill.symbol := BoughtPosition(position, fill)] == Bought(book, fill).positions;
    assert touched.positions[fill.symbol := SoldPosition(position, fill)] == Sold(book, fill).positions;
  }

  function Bought(book: Book, fill: Fill): Book
    requires PositionsOk(book) && ValidFill(fill)
  {
    book.(cash := book.cash - (fill.GrossNotional() + fill.fee),
          positions := book.positions[fill.symbol := BoughtPosition(Held(book.positions, fill.symbol), fill)],
          totalFees := book.totalFees + fill.fee)
  }

  function BoughtPosition(position: Position, fill: Fill): Position
    requires ValidPosition(position) && ValidFill(fill)
  {
    var quantity := position.quantity + fill.quantity;
    Position(quantity, (Cost(position) + fill.GrossNotional()) / quantity as real)
  }

  function Sold(book: Book, fill: Fill): Book {
    var position := Held(book.positions, fill.symbol);
    book.(cash := book.cash + (fill.GrossNotional() - fill.fee),
          positions := book.positions[fill.symbol := SoldPosition(position, fill)],
          realizedPnl := book.realizedPnl + Gain(position, fill),
          totalFees := book.totalFees + fill.fee)
  }

  /** The profit a sale realizes against the average price. */
  function Gain(position: Position, fill: Fill): real {
    (fill.price - position.averagePrice) * fill.quantity as real
  }

  function SoldPosition(position: Position, fill: Fill): Position {
    var quantity := position.quantity - fill.quantity;
    Position(quantity, if quantity == 0 then 0.0 else position.averagePrice)
  }

  /** What a position was bought for. */
  function Cost(position: Position): real {
    Value(position.quantity, position.averagePrice)
  }

  ghost function Costs(positions: map<string, Position>): map<string, real> {
    map symbol | symbol in positions :: Cost(positions[symbol])
  }

  ghost function CostBasis(positions: map<string, Position>): real {
    Sum(Costs(positions))
  }

  /** The conservation law: no fill creates or destroys money. */
  ghost predicate Conserved(book: Book) {
    book.cash + CostBasis(book.positions) == book.initialCash + book.realizedPnl - book.totalFees
  }

  lemma {:induction false} CostBasisUpdate(positions: map<string, Position>, symbol: string, position: Position)
    ensures CostBasis(positions[symbol := position])
         == CostBasis(positions) - Cost(Held(positions, symbol)) + Cost(position)
  {
    SumUpdate(Costs(positions), symbol, Cost(position));
    assert Costs(positions[symbol := position]) == Costs(positions)[symbol := Cost(position)];
    assert At(Costs(positions), symbol) == Cost(Held(positions, symbol));
  }

  /** The weighted average: the new cost is the old cost plus what was paid. */
  lemma {:induction false} BoughtCost(position: Position, fill: Fill)
    requires ValidPosition(position) && ValidFill(fill)
    ensures Cost(BoughtPosition(position, fill)) == Cost(position) + fill.GrossNotional()
    ensures ValidPosition(BoughtPosition(position, fill))
  {
    var quantity := (position.quantity + fill.quantity) as real;
    var total := Cost(position) + fill.GrossNotional();
    assert fill.GrossNotional() > 0.0;
    assert Cost(position) >= 0.0;
    DivideMultiply(total, quantity);
  }

  lemma {:induction false} DivideMultiply(total: real, quantity: real)
    requires quantity > 0.0
    ensures quantity * (total / quantity) == total
    ensures total > 0.0 ==> total / quantity > 0.0
  {
  }

  /** One fill, accepted or rejected, keeps the positions valid and money conserved. */
  lemma {:induction false} ApplyConserves(book: Book, fill: Fill)
    requires PositionsOk(book) && ValidFill(fill)
    ensures PositionsOk(Apply(book, fill).0)
    ensures Conserved(book) ==> Conserved(Apply(book, fill).0)
    ensures Apply(book, fill).0.initialCash == book.initialCash
  {
    var position := Held(book.positions, fill.symbol);
    CostBasisUpdate(book.positions, fill.symbol, position);
    if fill.side.Buy? {
      BoughtConserves(book, fill);
    } else if fill.quantity <= position.quantity {
      SoldConserves(book, fill);
    }
  }

  lemma {:induction false} BoughtConserves(book: Book, fill: Fill)
    requires PositionsOk(book) && ValidFill(fill)
    ensures PositionsOk(Bought(book, fill))
    ensures Conserved(book) ==> Conserved(Bought(book, fill))
  {
    var position := Held(book.positions, fill.symbol);
    BoughtCost(position, fill);
    var after := BoughtPosition(position, fill);
    CostBasisUpdate(book.positions, fill.symbol, after);
  }

  lemma {:induction false} SoldConserves(book: Book, fill: Fill)
    requires PositionsOk(book) && ValidFill(fill)
    requires fill.quantity <= Held(book.positions, fill.symbol).quantity
    ensures PositionsOk(Sold(book, fill))
    ensures Conserved(book) ==> Conserved(Sold(book, fill))
  {
    var position := Held(book.positions, fill.symbol);
    SoldCost(position, fill);
    CostBasisUpdate(book.positions, fill.symbol, SoldPosition(position, fill));
  }

  lemma {:induction false} SoldCost(position: Position, fill: Fill)
    ensures Cost(SoldPosition(position, fill))
         == Cost(position) - fill.GrossNotional() + Gain(position, fill)
  {
  }

  /** Exactly when a fill is accepted. */
  lemma {:induction false} AcceptedExactly(book: Book, fill: Fill)
    requires PositionsOk(book) && book.cash >= 0.0 && ValidFill(fill)
    ensures Apply(book, fill).1.None? <==>
            if fill.side.Buy? then fill.GrossNotional() + fill.fee <= book.cash
            else fill.quantity <= Held(book.positions, fill.symbol).quantity
                 && fill.fee <= book.cash + fill.GrossNotional()
  {
    ApplyConserves(book, fill);
  }

  /** The documented atomicity of a fill fails: this is exactly when a rejected fill has already moved cash,
      the position and the fee total. */
  lemma {:induction false} RejectedYetAppliedExactly(book: Book, fill: Fill)
    requires PositionsOk(book) && book.cash >= 0.0 && ValidFill(fill)
    ensures var (after, error) := Apply(book, fill);
            (error.Some? && Held(after.positions, fill.symbol) != Held(book.positions, fill.symbol)) <==>
            && fill.side.Sell?
            && fill.quantity <= Held(book.positions, fill.symbol).quantity
            && fill.fee > book.cash + fill.GrossNotional()
  {
    AcceptedExactly(book, fill);
    ApplyConserves(book, fill);
  }

  /** One share held and no cash: selling it for 1 with a fee of 2 raises, yet the share is gone, cash is
      negative and the fee is booked. */
  lemma {:induction false} AtomicityCounterexample(orderId: OrderId)
    ensures var book := Book(10.0, 0.0, map["DEMO" := Position(1, 10.0)], 0.0, 0.0);
            var fill := Fill(orderId, 1, "DEMO", Sell, 1, 1.0, 2.0);
            && PositionsOk(book) && Conserved(book) && ValidFill(fill)
            && Apply(book, fill) == (Book(10.0, -1.0, map["DEMO" := Position(0, 0.0)], -9.0, 2.0), Some(InvariantFailed))
  {
    var book := Book(10.0, 0.0, map["DEMO" := Position(1, 10.0)], 0.0, 0.0);
    var fill := Fill(orderId, 1, "DEMO", Sell, 1, 1.0, 2.0);
    CostBasisUpdate(map[], "DEMO", Position(1, 10.0));
    assert map[]["DEMO" := Position(1, 10.0)] == book.positions;
    SumAllZero(Costs(map[]));
    var after := Sold(book, fill);
    assert after.positions == map["DEMO" := Position(0, 0.0)];
    assert after.realizedPnl == -9.0 && after.cash == -1.0;
  }

  /** A whole sequence of fills; like the engine, it goes on after a rejected one. */
  ghost function ApplyAll(initialCash: real, fills: seq<Fill>): (book: Book)
    requires forall i :: 0 <= i < |fills| ==> ValidFill(fills[i])
    ensures PositionsOk(book)
  {
    if fills == [] then NewBook(initialCash)
    else
      var before := ApplyAll(initialCash, fills[..|fills| - 1]);
      ApplyConserves(before, fills[|fills| - 1]);
      Apply(before, fills[|fills| - 1]).0
  }

  /** Every fill of the sequence was accepted. */
  ghost predicate AllAccepted(initialCash: real, fills: seq<Fill>)
    requires forall i :: 0 <= i < |fills| ==> ValidFill(fills[i])
  {
    fills == [] ||
    (&& AllAccepted(initialCash, fills[..|fills| - 1])
     && Apply(ApplyAll(initialCash, fills[..|fills| - 1]), fills[|fills| - 1]).1.None?)
  }

  /** Conservation over every fill history, rejected fills included; cash stays nonnegative when all fills
      were accepted, and no position is ever short. */
  lemma {:induction false} ConservationOverEveryHistory(initialCash: real, fills: seq<Fill>)
    requires initialCash > 0.0 && forall i :: 0 <= i < |fills| ==> ValidFill(fills[i])
    ensures var book := ApplyAll(initialCash, fills);
            && book.initialCash == initialCash
            && book.cash + CostBasis(book.positions) == initialCash + book.realizedPnl - book.totalFees
            && (forall symbol :: symbol in book.positions ==> book.positions[symbol].quantity >= 0)
            && (AllAccepted(initialCash, fills) ==> book.cash >= 0.0)
  {
    if fills == [] {
      SumAllZero(Costs(map[]));
    } else {
      var init := fills[..|fills| - 1];
      ConservationOverEveryHistory(initialCash, init);
      ApplyConserves(ApplyAll(initialCash, init), fills[|fills| - 1]);
    }
  }

  // ----- marking to market -----

  /** Only the symbol of the event may be held. */
  ghost predicate OnlyHolds(positions: map<string, Position>, symbol: string) {
    forall s :: s in positions && s != symbol ==> positions[s].quantity == 0
  }

  function Mark(book: Book, event: MarketEvent): EquityPoint {
    var position := Held(book.positions, event.symbol);
    var marketValue := Value(position.quantity, event.close);
    EquityPoint(event.timestamp, book.cash, marketValue, book.cash + marketValue, book.realizedPnl,
                Unrealized(position, event.close), book.totalFees)
  }

  function Unrealized(position: Position, close: real): real {
    (close - position.averagePrice) * position.quantity as real
  }

  /** When only one symbol is held, its cost is the whole cost basis. */
  lemma {:induction false} OnlyHeldCost(positions: map<string, Position>, symbol: string)
    requires OnlyHolds(positions, symbol)
    ensures CostBasis(positions) == Cost(Held(positions, symbol))
  {
    var others := positions[symbol := Flat];
    CostBasisUpdate(positions, symbol, Flat);
    forall s | s in others ensures Costs(others)[s] == 0.0 {
      assert others[s].quantity == 0;
    }
    SumAllZero(Costs(others));
  }

  /** Equity is the initial cash plus realized and unrealized profit less fees. */
  lemma {:induction false} EquityIdentity(book: Book, event: MarketEvent)
    requires Conserved(book) && OnlyHolds(book.positions, event.symbol)
    ensures var point := Mark(book, event);
            point.equity == book.initialCash + point.realizedPnl + point.unrealizedPnl - point.fees
  {
    OnlyHeldCost(book.positions, event.symbol);
    var position := Held(book.positions, event.symbol);
    MarkSplits(position, event.close);
  }

  lemma {:induction false} MarkSplits(position: Position, close: real)
    ensures Value(position.quantity, close)
         == Unrealized(position, close) + Cost(position)
  {
  }

  /** The largest share count whose value stays within `value`. */
  function FloorDivide(value: real, price: real): int
    requires price > 0.0
  {
    (value / price).Floor
  }

  lemma {:induction false} FloorDivideBounds(value: real, price: real)
    requires price > 0.0
    ensures Value(FloorDivide(value, price), price) <= value < Value(FloorDivide(value, price) + 1, price)
  {
    var shares := value / price;
    assert shares * price == value;
    ScaleOrder(shares.Floor as real, shares, price);
    var next := (shares.Floor + 1) as real;
    assert shares < next;
    ScaleStrict(shares, next, price);
    assert value < next * price;
    assert next == (FloorDivide(value, price) + 1) as real;
  }

  lemma {:induction false} ScaleOrder(a: real, b: real, c: real)
    requires a <= b && c >= 0.0
    ensures a * c <= b * c
  {
  }

  lemma {:induction false} ScaleStrict(a: real, b: real, c: real)
    requires a < b && c > 0.0
    ensures a * c < b * c
  {
  }

  /** The order that moves the position to the target fraction of equity, if it is off target. */
  function OrderForTarget(book: Book, event: MarketEvent, targetFraction: real): Option<OrderIntent>
    requires event.close > 0.0
  {
    var target := FloorDivide(Mark(book, event).equity * targetFraction, event.close);
    var delta := target - Held(book.positions, event.symbol).quantity;
    if delta == 0 then None
    else
      var side := if delta > 0 then Buy else Sell;
      var quantity := if delta > 0 then delta else -delta;
      Some(OrderIntent(IntentId(event.timestamp, event.symbol, side, quantity, event.close),
                       event.timestamp, event.symbol, side, quantity, event.close))
  }

  class Portfolio {
    const initialCash: real
    var cash: real
    var positions: map<string, Position>
    var realizedPnl: real
    var totalFees: real

    function View(): Book
      reads this
    {
      Book(initialCash, cash, positions, realizedPnl, totalFees)
    }

    ghost predicate Valid()
      reads this
    {
      PositionsOk(View())
    }

    constructor (initialCash: real)
      requires initialCash > 0.0
      ensures Valid() && View() == NewBook(initialCash)
    {
      this.initialCash := initialCash;
      cash := initialCash;
      positions := map[];
      realizedPnl := 0.0;
      totalFees := 0.0;
    }

    function PositionQuantity(symbol: string): int
      reads this
    {
      Held(positions, symbol).quantity
    }

    method ApplyFill(fill: Fill) returns (error: Option<FillError>)
      requires Valid() && ValidFill(fill)
      modifies this
      ensures Valid()
      ensures (View(), error) == Apply(old(View()), fill)
    {
      ApplyConserves(View(), fill);
      TouchedChangesNoOutcome(View(), fill);
      if fill.symbol !in positions {
        positions := positions[fill.symbol := Flat];
      }
      assert View() == Touched(old(View()), fill.symbol);
      if fill.side.Buy? && fill.GrossNotional() + fill.fee > cash {
        return Some(NegativeCash);
      }
      if fill.side.Sell? && fill.quantity > positions[fill.symbol].quantity {
        return Some(SellExceedsPosition);
      }
      if fill.side.Buy? {
        BookBuy(fill);
      } else {
        BookSell(fill);
      }
      error := if StateValid(View()) then None else Some(InvariantFailed);
    }

    method BookBuy(fill: Fill)
      requires Valid() && ValidFill(fill) && fill.symbol in positions
      modifies this
      ensures View() == Bought(old(View()), fill)
    {
      var position := positions[fill.symbol];
      var oldCostBasis := Cost(position);
      var newQuantity := position.quantity + fill.quantity;
      positions := positions[fill.symbol :=
        Position(newQuantity, (oldCostBasis + fill.GrossNotional()) / newQuantity as real)];
      cash := cash - (fill.GrossNotional() + fill.fee);
      totalFees := totalFees + fill.fee;
    }

    method BookSell(fill: Fill)
      requires fill.symbol in positions
      modifies this
      ensures View() == Sold(old(View()), fill)
    {
      var position := positions[fill.symbol];
      realizedPnl := realizedPnl + Gain(position, fill);
      cash := cash + (fill.GrossNotional() - fill.fee);
      position := position.(quantity := position.quantity - fill.quantity);
      if position.quantity == 0 {
        position := position.(averagePrice := 0.0);
      }
      positions := positions[fill.symbol := position];
      totalFees := totalFees + fill.fee;
    }

    /** Sums over every open position, and raises on one that has no price in this event. */
    method MarkToMarket(event: MarketEvent) returns (result: Result<EquityPoint, MarkError>)
      requires Valid()
      ensures result.Ok? <==> OnlyHolds(positions, event.symbol)
      ensures result.Ok? ==> result.value == Mark(View(), event)
      ensures result.Err? ==> result.error.symbol != event.symbol && Held(positions, result.error.symbol).quantity != 0
    {
      var marketValue, unrealizedPnl := 0.0, 0.0;
      var remaining := positions.Keys;
      while remaining != {}
        invariant remaining <= positions.Keys
        invariant forall s :: s in positions && s !in remaining && s != event.symbol ==> positions[s].quantity == 0
        invariant event.symbol in remaining ==> marketValue == 0.0 && unrealizedPnl == 0.0
        invariant event.symbol !in remaining ==>
                    && marketValue == Mark(View(), event).marketValue
                    && unrealizedPnl == Mark(View(), event).unrealizedPnl
        decreases remaining
      {
        var symbol :| symbol in remaining;
        remaining := remaining - {symbol};
        var position := positions[symbol];
        if position.quantity != 0 {
          if symbol != event.symbol {
            return Err(NoCurrentPrice(symbol));
          }
          marketValue := marketValue + Value(position.quantity, event.close);
          unrealizedPnl := unrealizedPnl + Unrealized(position, event.close);
        }
      }
      return Ok(EquityPoint(event.timestamp, cash, marketValue, cash + marketValue, realizedPnl, unrealizedPnl, totalFees));
    }
  }
}
