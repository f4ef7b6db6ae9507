/**
  The exchange server's position ledger: average cost per symbol, realized and
  open profit and loss, in exact arithmetic.
 */
module Ledger {
  import opened Orders

  datatype ProductSpec = ProductSpec(tickSize: real, tickValue: real)

  // Symbols that no product describes.
  const FALLBACK := ProductSpec(0.25, 1.0)

  function SpecOf(products: map<string, ProductSpec>, symbol: string): ProductSpec {
    if symbol in products then products[symbol] else FALLBACK
  }

  predicate Positive(spec: ProductSpec) {
    spec.tickSize > 0.0 && spec.tickValue > 0.0
  }

  // What a fill carries along that does not count: its own id, its order, when, and the order's metadata.
  datatype FillTag = FillTag(id: string, order: string, time: nat, metadata: string)

  datatype FillState = FillState(symbol: string, side: Side, qty: int, price: real, tag: FillTag)

  datatype PositionState = PositionState(
    qty: int,
    buyQty: int,
    sellQty: int,
    avgPrice: real,
    markPrice: real,
    openPnl: real,
    realizedPnl: real)

  const FLAT := PositionState(0, 0, 0, 0.0, 0.0, 0.0, 0.0)

  function TickPnl(entry: real, mark: real, contracts: int, spec: ProductSpec): real {
    if contracts == 0 then 0.0
    else if !Positive(spec) then 0.0
    else (mark - entry) / spec.tickSize * spec.tickValue * contracts as real
  }

  function Signed(side: Side, qty: int): int {
    if side.Buy? then qty else -qty
  }

  /** The cost per contract of a position that a fill adds to. */
  function Average(average: real, held: int, price: real, qty: int, next: int): real
    requires next != 0
  {
    (average * Abs(held) as real + price * qty as real) / Abs(next) as real
  }

  /** The position after a fill, before it is marked. */
  function AfterFill(pos: PositionState, fill: FillState, spec: ProductSpec): PositionState
    requires fill.qty > 0
  {
    var counted := if fill.side.Buy? then pos.(buyQty := pos.buyQty + fill.qty)
      else pos.(sellQty := pos.sellQty + fill.qty);
    var signed := Signed(fill.side, fill.qty);
    var next := pos.qty + signed;
    if pos.qty == 0 || (pos.qty > 0) == (signed > 0) then
      counted.(qty := next,
               avgPrice := if next == 0 then 0.0 else Average(pos.avgPrice, pos.qty, fill.price, fill.qty, next))
    else
      var closing := Min(Abs(pos.qty), Abs(signed));
      var direction := if pos.qty > 0 then 1 else -1;
      var realized := pos.realizedPnl + TickPnl(pos.avgPrice, fill.price, closing * direction, spec);
      if next == 0 then counted.(qty := 0, avgPrice := 0.0, realizedPnl := realized)
      else if (next > 0) == (pos.qty > 0) then counted.(qty := next, realizedPnl := realized)
      else counted.(qty := next, avgPrice := fill.price, realizedPnl := realized)
  }

  function Marked(pos: PositionState, mark: real, spec: ProductSpec): PositionState {
    pos.(markPrice := mark, openPnl := TickPnl(pos.avgPrice, mark, pos.qty, spec))
  }

  /** What the position has made in all if it is closed at `mark`. */
  function TotalPnl(pos: PositionState, mark: real, spec: ProductSpec): real {
    pos.realizedPnl + TickPnl(pos.avgPrice, mark, pos.qty, spec)
  }

  // ---------- the cash-flow identity ----------

  /** Points of price times contracts, in money. */
  function Worth(spec: ProductSpec, points: real): real
    requires Positive(spec)
  {
    spec.tickValue / spec.tickSize * points
  }

  lemma WorthAdds(spec: ProductSpec, a: real, b: real)
    requires Positive(spec)
    ensures Worth(spec, a + b) == Worth(spec, a) + Worth(spec, b)
  {
  }

  /** Points gained by a signed quantity from one price to another. */
  function Gain(entry: real, mark: real, contracts: int): real {
    (mark - entry) * contracts as real
  }

  lemma TickPnlIsLinear(entry: real, mark: real, contracts: int, spec: ProductSpec)
    requires Positive(spec)
    ensures TickPnl(entry, mark, contracts, spec) == Worth(spec, Gain(entry, mark, contracts))
  {
    var ticks := (mark - entry) / spec.tickSize;
    var value := spec.tickValue / spec.tickSize;
    var n := contracts as real;
    assert mark - entry == ticks * spec.tickSize && spec.tickValue == value * spec.tickSize;
    Rearrange(ticks, value, spec.tickSize, n);
    if contracts == 0 {
      assert (mark - entry) * n == 0.0;
    }
  }

  lemma Rearrange(ticks: real, value: real, size: real, n: real)
    ensures ticks * (value * size) * n == value * (ticks * size * n)
  {
    assert ticks * (value * size) == value * (ticks * size);
  }

  lemma AverageCost(average: real, held: real, price: real, bought: real)
    requires held + bought != 0.0
    ensures (average * held + price * bought) / (held + bought) * (held + bought) == average * held + price * bought
  {
  }

  /** Adding to a position mixes the costs. */
  lemma CostAfterAdding(average: real, price: real, held: int, signed: int)
    requires signed != 0 && (held == 0 || (held > 0) == (signed > 0))
    ensures (average * Abs(held) as real + price * Abs(signed) as real) / Abs(held + signed) as real
      * (held + signed) as real
         == average * held as real + price * signed as real
  {
    if signed > 0 {
      AverageCost(average, held as real, price, signed as real);
    } else {
      AverageCost(average, -held as real, price, -signed as real);
      var a := (average * -held as real + price * -signed as real) / (-held - signed) as real;
      assert a * (held + signed) as real == -(a * (-held - signed) as real);
    }
  }

  lemma AddingGain(a: real, x: real, mark: real, h: real, n: real, average: real)
    requires average * (h + n) == a * h + x * n
    ensures (mark - average) * (h + n) == (mark - a) * h + (mark - x) * n
  {
    assert (mark - average) * (h + n) == mark * (h + n) - average * (h + n);
    assert (mark - a) * h == mark * h - a * h && (mark - x) * n == mark * n - x * n;
    assert mark * (h + n) == mark * h + mark * n;
  }

  lemma ReducingGain(a: real, x: real, mark: real, h: real, n: real)
    ensures (x - a) * -n + (mark - a) * (h + n) == (mark - a) * h + (mark - x) * n
  {
    assert (x - a) * -n == a * n - x * n;
    assert (mark - a) * (h + n) == (mark - a) * h + mark * n - a * n;
  }

  lemma FlippingGain(a: real, x: real, mark: real, h: real, n: real)
    ensures (x - a) * h + (mark - x) * (h + n) == (mark - a) * h + (mark - x) * n
  {
    assert (mark - x) * (h + n) == (mark - x) * h + (mark - x) * n;
    assert (mark - a) * h == (x - a) * h + (mark - x) * h;
  }

  /** What a fill realizes per point, and what it leaves open, add up to the old gain and the fill's own move. */
  ghost predicate Gains(pos: PositionState, p: PositionState, x: real, s: int, spec: ProductSpec, mark: real,
                        realized: real)
    requires Positive(spec)
  {
    && p.realizedPnl == pos.realizedPnl + Worth(spec, realized)
    && realized + Gain(p.avgPrice, mark, p.qty) == Gain(pos.avgPrice, mark, pos.qty) + Gain(x, mark, s)
  }

  lemma AddingFill(pos: PositionState, fill: FillState, spec: ProductSpec, mark: real)
    requires fill.qty > 0 && Positive(spec)
    requires pos.qty == 0 || (pos.qty > 0) == fill.side.Buy?
    ensures Gains(pos, AfterFill(pos, fill, spec), fill.price, Signed(fill.side, fill.qty), spec, mark, 0.0)
  {
    hide TickPnl, Worth, Gain;
    var s := Signed(fill.side, fill.qty);
    var p := AfterFill(pos, fill, spec);
    assert Abs(s) == fill.qty && pos.qty + s != 0;
    CostAfterAdding(pos.avgPrice, fill.price, pos.qty, s);
    assert p.realizedPnl == pos.realizedPnl && p.qty == pos.qty + s;
    assert p.avgPrice
      == (pos.avgPrice * Abs(pos.qty) as real + fill.price * Abs(s) as real) / Abs(pos.qty + s) as real;
    hide AfterFill, Average;
    AddedGain(pos.avgPrice, fill.price, mark, pos.qty, s, p.avgPrice);
    WorthAdds(spec, 0.0, 0.0);
  }

  lemma AddedGain(a: real, x: real, mark: real, h: int, s: int, average: real)
    requires average * (h as real + s as real) == a * h as real + x * s as real
    ensures Gain(average, mark, h + s) == Gain(a, mark, h) + Gain(x, mark, s)
  {
    AddingGain(a, x, mark, h as real, s as real, average);
  }

  lemma ReducingFill(pos: PositionState, fill: FillState, spec: ProductSpec, mark: real)
    requires fill.qty > 0 && Positive(spec)
    requires pos.qty != 0 && (pos.qty > 0) == fill.side.Sell? && fill.qty <= Abs(pos.qty)
    ensures Gains(pos, AfterFill(pos, fill, spec), fill.price, Signed(fill.side, fill.qty), spec, mark,
                  Gain(pos.avgPrice, fill.price, -Signed(fill.side, fill.qty)))
  {
    var s := Signed(fill.side, fill.qty);
    var p := AfterFill(pos, fill, spec);
    TickPnlIsLinear(pos.avgPrice, fill.price, -s, spec);
    ReducingGain(pos.avgPrice, fill.price, mark, pos.qty as real, s as real);
    assert p.qty == pos.qty + s && p.realizedPnl == pos.realizedPnl + TickPnl(pos.avgPrice, fill.price, -s, spec);
    assert (-s) as real == -(s as real);
    if p.qty == 0 {
      assert (mark - p.avgPrice) * p.qty as real == 0.0 == (mark - pos.avgPrice) * p.qty as real;
    }
  }

  lemma FlippingFill(pos: PositionState, fill: FillState, spec: ProductSpec, mark: real)
    requires fill.qty > 0 && Positive(spec)
    requires pos.qty != 0 && (pos.qty > 0) == fill.side.Sell? && fill.qty > Abs(pos.qty)
    ensures Gains(pos, AfterFill(pos, fill, spec), fill.price, Signed(fill.side, fill.qty), spec, mark,
                  Gain(pos.avgPrice, fill.price, pos.qty))
  {
    var s := Signed(fill.side, fill.qty);
    var p := AfterFill(pos, fill, spec);
    TickPnlIsLinear(pos.avgPrice, fill.price, pos.qty, spec);
    FlippingGain(pos.avgPrice, fill.price, mark, pos.qty as real, s as real);
    assert p.qty == pos.qty + s && p.avgPrice == fill.price;
    assert p.realizedPnl == pos.realizedPnl + TickPnl(pos.avgPrice, fill.price, pos.qty, spec);
  }

  lemma FillGain(pos: PositionState, fill: FillState, spec: ProductSpec, mark: real) returns (realized: real)
    requires fill.qty > 0 && Positive(spec)
    ensures Gains(pos, AfterFill(pos, fill, spec), fill.price, Signed(fill.side, fill.qty), spec, mark, realized)
  {
    hide Gains, AfterFill, Gain;
    var s := Signed(fill.side, fill.qty);
    if pos.qty == 0 || (pos.qty > 0) == fill.side.Buy? {
      AddingFill(pos, fill, spec, mark);
      realized := 0.0;
    } else if fill.qty <= Abs(pos.qty) {
      ReducingFill(pos, fill, spec, mark);
      realized := Gain(pos.avgPrice, fill.price, -s);
    } else {
      FlippingFill(pos, fill, spec, mark);
      realized := Gain(pos.avgPrice, fill.price, pos.qty);
    }
  }

  /** The change of total at any mark is the fill's own move to that mark: the step of the identity. */
  lemma FillAddsItsMove(pos: PositionState, fill: FillState, spec: ProductSpec, mark: real)
    requires fill.qty > 0 && Positive(spec)
    ensures var s := Signed(fill.side, fill.qty); var p := AfterFill(pos, fill, spec);
      && p.qty == pos.qty + s
      && p.buyQty - p.sellQty == pos.buyQty - pos.sellQty + s
      && TotalPnl(p, mark, spec) == TotalPnl(pos, mark, spec) + Worth(spec, Gain(fill.price, mark, s))
  {
    FillQuantities(pos, fill, spec);
    var p := AfterFill(pos, fill, spec);
    var realized := FillGain(pos, fill, spec, mark);
    hide AfterFill, Gain, TickPnl, Worth;
    TickPnlIsLinear(pos.avgPrice, mark, pos.qty, spec);
    TickPnlIsLinear(p.avgPrice, mark, p.qty, spec);
    WorthAdds(spec, realized, Gain(p.avgPrice, mark, p.qty));
    WorthAdds(spec, Gain(pos.avgPrice, mark, pos.qty), Gain(fill.price, mark, Signed(fill.side, fill.qty)));
  }

  lemma FillQuantities(pos: PositionState, fill: FillState, spec: ProductSpec)
    requires fill.qty > 0
    ensures var s := Signed(fill.side, fill.qty); var p := AfterFill(pos, fill, spec);
      p.qty == pos.qty + s && p.buyQty - p.sellQty == pos.buyQty - pos.sellQty + s
  {
  }

  /**
    Average cost: opening realizes nothing and adds up the cost; closing keeps
    the average and realizes the closed contracts' move from it; what is left
    of a fill that closes all opens at the fill's price.
   */
  lemma AverageCostOfFill(pos: PositionState, fill: FillState, spec: ProductSpec)
    requires fill.qty > 0 && Positive(spec)
    ensures var p, s := AfterFill(pos, fill, spec), Signed(fill.side, fill.qty);
      var opens := pos.qty == 0 || (pos.qty > 0) == fill.side.Buy?;
      && p.buyQty == pos.buyQty + (if fill.side.Buy? then fill.qty else 0)
      && p.sellQty == pos.sellQty + (if fill.side.Sell? then fill.qty else 0)
      && (opens ==> p.realizedPnl == pos.realizedPnl
                    && p.avgPrice * p.qty as real == pos.avgPrice * pos.qty as real + fill.price * s as real)
      && (!opens && fill.qty < Abs(pos.qty) ==>
            p.avgPrice == pos.avgPrice
            && p.realizedPnl == pos.realizedPnl + Worth(spec, Gain(pos.avgPrice, fill.price, -s)))
      && (!opens && fill.qty >= Abs(pos.qty) ==>
            && p.realizedPnl == pos.realizedPnl + Worth(spec, Gain(pos.avgPrice, fill.price, pos.qty))
            && p.avgPrice == if fill.qty == Abs(pos.qty) then 0.0 else fill.price)
  {
    var s := Signed(fill.side, fill.qty);
    if pos.qty == 0 || (pos.qty > 0) == fill.side.Buy? {
      CostAfterAdding(pos.avgPrice, fill.price, pos.qty, s);
    } else if fill.qty < Abs(pos.qty) {
      TickPnlIsLinear(pos.avgPrice, fill.price, -s, spec);
    } else {
      TickPnlIsLinear(pos.avgPrice, fill.price, pos.qty, spec);
    }
    hide TickPnl, Worth, Gain;
  }

  /** A product that is not described properly, like a position of nothing, makes nothing. */
  lemma NothingToGain(entry: real, mark: real, contracts: int, spec: ProductSpec)
    requires contracts == 0 || spec.tickSize <= 0.0 || spec.tickValue <= 0.0
    ensures TickPnl(entry, mark, contracts, spec) == 0.0
  {
  }

  /** Each symbol by its own product, and unknown ones by quarters worth one. */
  lemma OwnProduct(products: map<string, ProductSpec>, symbol: string, spec: ProductSpec)
    ensures SpecOf(products[symbol := spec], symbol) == spec
    ensures symbol !in products ==>
      SpecOf(products, symbol).tickSize == 0.25 && SpecOf(products, symbol).tickValue == 1.0
  {
  }

  // ---------- runs of fills on one symbol ----------

  ghost predicate Fills(fills: seq<FillState>) {
    forall i :: 0 <= i < |fills| ==> fills[i].qty > 0
  }

  function AfterFills(pos: PositionState, fills: seq<FillState>, spec: ProductSpec): PositionState
    requires Fills(fills)
    decreases |fills|
  {
    if fills == [] then pos
    else
      assert fills[0].qty > 0;
      AfterFills(AfterFill(pos, fills[0], spec), fills[1..], spec)
  }

  function NetQuantity(fills: seq<FillState>): int {
    if fills == [] then 0 else Signed(fills[0].side, fills[0].qty) + NetQuantity(fills[1..])
  }

  /** The sum over the fills of signed quantity times the move from the fill price to `mark`. */
  function Moves(fills: seq<FillState>, mark: real): real {
    if fills == [] then 0.0
    else Gain(fills[0].price, mark, Signed(fills[0].side, fills[0].qty)) + Moves(fills[1..], mark)
  }

  /** Whatever the fills add, reduce, close or flip: position and total are sums over the fills. */
  lemma {:induction false} CashFlowIdentity(pos: PositionState, fills: seq<FillState>, spec: ProductSpec, mark: real)
    requires Fills(fills) && Positive(spec)
    ensures var p := AfterFills(pos, fills, spec);
      && p.qty == pos.qty + NetQuantity(fills)
      && p.buyQty - p.sellQty == pos.buyQty - pos.sellQty + NetQuantity(fills)
      && TotalPnl(p, mark, spec) == TotalPnl(pos, mark, spec) + Worth(spec, Moves(fills, mark))
    decreases |fills|
  {
    hide AfterFill, TotalPnl, Worth, Gain;
    if fills == [] {
      WorthAdds(spec, 0.0, 0.0);
    } else {
      assert fills[0].qty > 0;
      FillAddsItsMove(pos, fills[0], spec, mark);
      CashFlowIdentity(AfterFill(pos, fills[0], spec), fills[1..], spec, mark);
      WorthAdds(spec, Gain(fills[0].price, mark, Signed(fills[0].side, fills[0].qty)), Moves(fills[1..], mark));
    }
  }

  lemma {:induction false} AfterFillsAppend(pos: PositionState, a: seq<FillState>, b: seq<FillState>, spec: ProductSpec)
    requires Fills(a) && Fills(b)
    ensures Fills(a + b) && AfterFills(pos, a + b, spec) == AfterFills(AfterFills(pos, a, spec), b, spec)
    decreases |a|
  {
    if a == [] {
      assert a + b == b;
    } else {
      assert a[0].qty > 0;
      AfterFillsAppend(AfterFill(pos, a[0], spec), a[1..], b, spec);
      assert (a + b)[1..] == a[1..] + b;
    }
  }

  lemma {:induction false} MovesAppend(a: seq<FillState>, b: seq<FillState>, mark: real)
    ensures Moves(a + b, mark) == Moves(a, mark) + Moves(b, mark)
  {
    hide Gain;
    if a == [] {
      assert a + b == b;
    } else {
      MovesAppend(a[1..], b, mark);
      assert (a + b)[1..] == a[1..] + b;
    }
  }
}
