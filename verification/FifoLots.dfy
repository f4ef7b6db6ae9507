/**
  The gateway's own accounting for imported trades: first-in-first-out lots,
  and the proof that it makes the same money as the exchange's average-cost
  ledger.
 */
module FifoLots {
  import opened Orders
  import opened Ledger

  // A row of the import names no fill of the exchange.
  const NO_TAG := FillTag("", "", 0, "")

  datatype Lot = Lot(side: Side, price: real, qty: int)

  /** Open lots of one symbol and what closing lots has realized. */
  datatype Account = Account(lots: seq<Lot>, realized: real)

  datatype Closing = Closing(lots: seq<Lot>, qty: int, derived: real)

  /** The money made when `matched` contracts of an open lot meet a fill of `side` at `price`. */
  function LotPnl(open: Lot, side: Side, price: real, matched: int, spec: ProductSpec): real
    requires Positive(spec)
  {
    var delta := if side.Sell? then price - open.price else open.price - price;
    delta / spec.tickSize * spec.tickValue * matched as real
  }

  /** Lots on the other side close from the front until the fill or the lots run out. */
  function CloseLots(c: Closing, side: Side, price: real, spec: ProductSpec): Closing
    requires Positive(spec)
    decreases |c.lots|, c.qty
  {
    if c.qty > 0 && c.lots != [] && c.lots[0].side != side then
      var open := c.lots[0];
      var matched := Min(c.qty, open.qty);
      var derived := c.derived + LotPnl(open, side, price, matched, spec);
      if open.qty - matched <= 0 then CloseLots(Closing(c.lots[1..], c.qty - matched, derived), side, price, spec)
      else Closing(c.lots[0 := open.(qty := open.qty - matched)], c.qty - matched, derived)
    else c
  }

  function ImportFill(a: Account, fill: FillState, spec: ProductSpec): Account
    requires Positive(spec)
  {
    var c := CloseLots(Closing(a.lots, fill.qty, 0.0), fill.side, fill.price, spec);
    Account(if c.qty > 0 then c.lots + [Lot(fill.side, fill.price, c.qty)] else c.lots, a.realized + c.derived)
  }

  /** The importer's loop over the front of the lots, in place. */
  method ImportRow(a: Account, side: Side, price: real, quantity: int, spec: ProductSpec) returns (r: Account)
    requires Positive(spec) && quantity > 0 && forall i :: 0 <= i < |a.lots| ==> a.lots[i].qty > 0
    ensures r == ImportFill(a, FillState("", side, quantity, price, NO_TAG), spec)
  {
    var lots, qty, derived := a.lots, quantity, 0.0;
    ghost var goal := CloseLots(Closing(lots, qty, derived), side, price, spec);
    while qty > 0 && lots != [] && lots[0].side != side
      invariant forall i :: 0 <= i < |lots| ==> lots[i].qty > 0
      invariant CloseLots(Closing(lots, qty, derived), side, price, spec) == goal
      decreases |lots|, qty
    {
      var open := lots[0];
      var matched := Min(qty, open.qty);
      derived := derived + LotPnl(open, side, price, matched, spec);
      qty := qty - matched;
      open := open.(qty := open.qty - matched);
      if open.qty <= 0 {
        lots := lots[1..];
      } else {
        lots := lots[0 := open];
      }
    }
    if qty > 0 {
      lots := lots + [Lot(side, price, qty)];
    }
    r := Account(lots, a.realized + derived);
  }

  function ImportFills(a: Account, fills: seq<FillState>, spec: ProductSpec): Account
    requires Positive(spec)
    decreases |fills|
  {
    if fills == [] then a else ImportFills(ImportFill(a, fills[0], spec), fills[1..], spec)
  }

  /** What the open lots are worth at a mark. */
  function OpenPnl(lots: seq<Lot>, mark: real, spec: ProductSpec): real
    requires Positive(spec)
  {
    if lots == [] then 0.0
    else (if lots[0].qty <= 0 then 0.0
          else LotPnl(lots[0], if lots[0].side.Buy? then Sell else Buy, mark, lots[0].qty, spec))
         + OpenPnl(lots[1..], mark, spec)
  }

  // ---------- lots are one-sided ----------

  function LotsNet(lots: seq<Lot>): int {
    if lots == [] then 0 else Signed(lots[0].side, lots[0].qty) + LotsNet(lots[1..])
  }

  /** Every lot holds something, and all lots are on the same side. */
  ghost predicate OneSided(lots: seq<Lot>) {
    forall i :: 0 <= i < |lots| ==> lots[i].qty > 0 && lots[i].side == lots[0].side
  }

  lemma {:induction false} CloseKeepsSide(c: Closing, side: Side, price: real, spec: ProductSpec)
    requires Positive(spec) && OneSided(c.lots) && c.qty >= 0
    ensures var r := CloseLots(c, side, price, spec);
      && OneSided(r.lots) && r.qty >= 0
      && (r.qty > 0 ==> r.lots == [] || r.lots[0].side == side)
      && LotsNet(r.lots) + Signed(side, r.qty) == LotsNet(c.lots) + Signed(side, c.qty)
    decreases |c.lots|
  {
    hide LotPnl;
    if c.qty > 0 && c.lots != [] && c.lots[0].side != side {
      var open := c.lots[0];
      var matched := Min(c.qty, open.qty);
      var derived := c.derived + LotPnl(open, side, price, matched, spec);
      if open.qty - matched <= 0 {
        CloseKeepsSide(Closing(c.lots[1..], c.qty - matched, derived), side, price, spec);
      } else {
        var r := c.lots[0 := open.(qty := open.qty - matched)];
        assert r[1..] == c.lots[1..];
      }
    }
  }

  lemma {:induction false} LotsNetAppend(a: seq<Lot>, b: seq<Lot>)
    ensures LotsNet(a + b) == LotsNet(a) + LotsNet(b)
  {
    if a == [] {
      assert a + b == b;
    } else {
      LotsNetAppend(a[1..], b);
      assert (a + b)[1..] == a[1..] + b;
    }
  }

  lemma ImportKeepsSide(a: Account, fill: FillState, spec: ProductSpec)
    requires Positive(spec) && OneSided(a.lots) && fill.qty > 0
    ensures OneSided(ImportFill(a, fill, spec).lots)
    ensures LotsNet(ImportFill(a, fill, spec).lots) == LotsNet(a.lots) + Signed(fill.side, fill.qty)
  {
    var c := Closing(a.lots, fill.qty, 0.0);
    CloseKeepsSide(c, fill.side, fill.price, spec);
    var r := CloseLots(c, fill.side, fill.price, spec);
    if r.qty > 0 {
      LotsNetAppend(r.lots, [Lot(fill.side, fill.price, r.qty)]);
    }
  }

  // ---------- the same cash-flow identity ----------

  lemma LotPnlIsWorth(open: Lot, side: Side, price: real, matched: int, spec: ProductSpec)
    requires Positive(spec)
    ensures LotPnl(open, side, price, matched, spec)
         == Worth(spec, Gain(open.price, price, if side.Sell? then matched else -matched))
  {
    var signed := if side.Sell? then matched else -matched;
    TickPnlIsLinear(open.price, price, signed, spec);
    var delta := price - open.price;
    if signed == 0 {
    } else if side.Buy? {
      NegativeDelta(delta, matched, spec);
    }
  }

  lemma NegativeDelta(delta: real, matched: int, spec: ProductSpec)
    requires Positive(spec)
    ensures -delta / spec.tickSize * spec.tickValue * matched as real
         == delta / spec.tickSize * spec.tickValue * (-matched) as real
  {
    assert -delta / spec.tickSize == -(delta / spec.tickSize);
    var a := delta / spec.tickSize * spec.tickValue;
    assert -(delta / spec.tickSize) * spec.tickValue == -a;
    assert -a * matched as real == a * -(matched as real);
  }

  function LotsTotal(lots: seq<Lot>, realized: real, mark: real, spec: ProductSpec): real
    requires Positive(spec)
  {
    realized + OpenPnl(lots, mark, spec)
  }

  /** Closing part of a lot: what is realized and what stays open, against what was open. */
  lemma CloseOne(open: Lot, side: Side, price: real, matched: int, mark: real, spec: ProductSpec)
    requires Positive(spec) && open.side != side
    ensures LotPnl(open, side, price, matched, spec) + LotPnl(open, side, mark, open.qty - matched, spec)
         == LotPnl(open, side, mark, open.qty, spec) + Worth(spec, Gain(price, mark, Signed(side, matched)))
  {
    var k := if side.Sell? then 1 else -1;
    LotPnlIsWorth(open, side, price, matched, spec);
    LotPnlIsWorth(open, side, mark, open.qty - matched, spec);
    LotPnlIsWorth(open, side, mark, open.qty, spec);
    CloseGain(open.price, price, mark, open.qty, matched, k);
    var a, b := Gain(open.price, price, matched * k), Gain(open.price, mark, (open.qty - matched) * k);
    var c, d := Gain(open.price, mark, open.qty * k), Gain(price, mark, -matched * k);
    hide Worth, LotPnl, Gain;
    WorthAdds(spec, a, b);
    WorthAdds(spec, c, d);
  }

  lemma CloseGain(o: real, x: real, mark: real, q: int, m: int, k: int)
    requires k == 1 || k == -1
    ensures Gain(o, x, m * k) + Gain(o, mark, (q - m) * k) == Gain(o, mark, q * k) + Gain(x, mark, -m * k)
  {
    var qr, mr := (q * k) as real, (m * k) as real;
    assert ((q - m) * k) as real == qr - mr && (-m * k) as real == -mr;
    assert (mark - o) * (qr - mr) == (mark - o) * qr - (mark - o) * mr;
    assert (x - o) * mr - (mark - o) * mr == (mark - x) * -mr;
  }

  lemma {:induction false} CloseAddsItsMove(c: Closing, side: Side, price: real, spec: ProductSpec, mark: real)
    requires Positive(spec) && OneSided(c.lots) && c.qty >= 0
    ensures var r := CloseLots(c, side, price, spec);
      r.derived + OpenPnl(r.lots, mark, spec)
        == c.derived + OpenPnl(c.lots, mark, spec) + Worth(spec, Gain(price, mark, Signed(side, c.qty - r.qty)))
    decreases |c.lots|
  {
    hide LotPnl, Worth;
    if c.qty > 0 && c.lots != [] && c.lots[0].side != side {
      var open := c.lots[0];
      var matched := Min(c.qty, open.qty);
      var derived := c.derived + LotPnl(open, side, price, matched, spec);
      CloseOne(open, side, price, matched, mark, spec);
      if open.qty - matched <= 0 {
        var n := Closing(c.lots[1..], c.qty - matched, derived);
        CloseAddsItsMove(n, side, price, spec, mark);
        var r := CloseLots(n, side, price, spec);
        EmptyLot(open, side, mark, spec);
        MovesAdd(price, mark, side, matched, n.qty - r.qty, spec);
      } else {
        var r := c.lots[0 := open.(qty := open.qty - matched)];
        assert r[1..] == c.lots[1..];
        RestOfLot(open, side, mark, open.qty - matched, spec);
      }
    } else {
      MovesAdd(price, mark, side, 0, 0, spec);
    }
  }

  lemma EmptyLot(open: Lot, side: Side, mark: real, spec: ProductSpec)
    requires Positive(spec)
    ensures LotPnl(open, side, mark, 0, spec) == 0.0
  {
  }

  lemma RestOfLot(open: Lot, side: Side, mark: real, left: int, spec: ProductSpec)
    requires Positive(spec)
    ensures LotPnl(open.(qty := left), side, mark, left, spec) == LotPnl(open, side, mark, left, spec)
  {
  }

  lemma MovesAdd(price: real, mark: real, side: Side, a: int, b: int, spec: ProductSpec)
    requires Positive(spec)
    ensures Worth(spec, Gain(price, mark, Signed(side, a + b)))
         == Worth(spec, Gain(price, mark, Signed(side, a))) + Worth(spec, Gain(price, mark, Signed(side, b)))
  {
    var x, y := Signed(side, a) as real, Signed(side, b) as real;
    assert Signed(side, a + b) as real == x + y;
    assert (mark - price) * (x + y) == (mark - price) * x + (mark - price) * y;
    WorthAdds(spec, Gain(price, mark, Signed(side, a)), Gain(price, mark, Signed(side, b)));
  }

  lemma {:induction false} OpenAppend(a: seq<Lot>, l: Lot, mark: real, spec: ProductSpec)
    requires Positive(spec) && l.qty > 0
    ensures OpenPnl(a + [l], mark, spec) == OpenPnl(a, mark, spec)
      + Worth(spec, Gain(l.price, mark, Signed(l.side, l.qty)))
  {
    hide LotPnl, Worth;
    if a == [] {
      assert a + [l] == [l];
      LotPnlIsWorth(l, if l.side.Buy? then Sell else Buy, mark, l.qty, spec);
    } else {
      OpenAppend(a[1..], l, mark, spec);
      assert (a + [l])[1..] == a[1..] + [l];
    }
  }

  lemma ImportAddsItsMove(a: Account, fill: FillState, spec: ProductSpec, mark: real)
    requires Positive(spec) && OneSided(a.lots) && fill.qty > 0
    ensures var r := ImportFill(a, fill, spec);
      LotsTotal(r.lots, r.realized, mark, spec)
        == LotsTotal(a.lots, a.realized, mark, spec) + Worth(spec, Gain(fill.price, mark, Signed(fill.side, fill.qty)))
  {
    hide Worth, Gain, OpenPnl;
    var c := Closing(a.lots, fill.qty, 0.0);
    CloseAddsItsMove(c, fill.side, fill.price, spec, mark);
    CloseKeepsSide(c, fill.side, fill.price, spec);
    var r := CloseLots(c, fill.side, fill.price, spec);
    MovesAdd(fill.price, mark, fill.side, fill.qty - r.qty, r.qty, spec);
    if r.qty > 0 {
      OpenAppend(r.lots, Lot(fill.side, fill.price, r.qty), mark, spec);
    } else {
      MovesAdd(fill.price, mark, fill.side, 0, 0, spec);
    }
  }

  lemma {:induction false} FifoIdentity(a: Account, fills: seq<FillState>, spec: ProductSpec, mark: real)
    requires Positive(spec) && OneSided(a.lots) && Fills(fills)
    ensures var r := ImportFills(a, fills, spec);
      && OneSided(r.lots)
      && LotsNet(r.lots) == LotsNet(a.lots) + NetQuantity(fills)
      && LotsTotal(r.lots, r.realized, mark, spec)
           == LotsTotal(a.lots, a.realized, mark, spec) + Worth(spec, Moves(fills, mark))
    decreases |fills|
  {
    hide Worth, Gain, LotsTotal, ImportFill, LotsNet, OneSided;
    if fills == [] {
      WorthAdds(spec, 0.0, 0.0);
    } else {
      assert fills[0].qty > 0;
      ImportKeepsSide(a, fills[0], spec);
      ImportAddsItsMove(a, fills[0], spec, mark);
      FifoIdentity(ImportFill(a, fills[0], spec), fills[1..], spec, mark);
      WorthAdds(spec, Gain(fills[0].price, mark, Signed(fills[0].side, fills[0].qty)), Moves(fills[1..], mark));
    }
  }

  /**
    From nothing, on any fills and at every mark: the lots are on one side and
    sum to the ledger's position, and both accounts have made the same money.
   */
  lemma FifoAgreesWithAverageCost(fills: seq<FillState>, spec: ProductSpec, mark: real)
    requires Positive(spec) && Fills(fills)
    ensures var lots := ImportFills(Account([], 0.0), fills, spec); var pos := AfterFills(FLAT, fills, spec);
      && OneSided(lots.lots) && LotsNet(lots.lots) == pos.qty
      && lots.realized + OpenPnl(lots.lots, mark, spec) == pos.realizedPnl + TickPnl(pos.avgPrice, mark, pos.qty, spec)
  {
    FifoIdentity(Account([], 0.0), fills, spec, mark);
    CashFlowIdentity(FLAT, fills, spec, mark);
  }
}
