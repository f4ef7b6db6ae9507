/**
  Lots are a compressed queue of single contracts: what opens joins the back
  of the queue, what closes leaves at the front, first in and first out.
 */
module FifoUnits {
  import opened Orders
  import opened Ledger
  import opened FifoLots

  /** One open contract. */
  datatype Unit = Unit(side: Side, price: real)

  function Copies(u: Unit, n: int): seq<Unit> {
    if n <= 0 then [] else [u] + Copies(u, n - 1)
  }

  /** The contracts that the lots hold, oldest first. */
  function Units(lots: seq<Lot>): seq<Unit> {
    if lots == [] then [] else Copies(Unit(lots[0].side, lots[0].price), lots[0].qty) + Units(lots[1..])
  }

  /** One contract: it closes the oldest one of the other side, or joins those of its own. */
  function UnitStep(queue: seq<Unit>, u: Unit): seq<Unit> {
    if queue != [] && queue[0].side != u.side then queue[1..] else queue + [u]
  }

  /** The points that contracts make when they are closed on `side` at `price`. */
  function PointsMade(closed: seq<Unit>, side: Side, price: real): real {
    if closed == [] then 0.0
    else
      var move := if side.Sell? then price - closed[0].price else closed[0].price - price;
      move + PointsMade(closed[1..], side, price)
  }

  lemma {:induction false} CopiesAre(u: Unit, n: int)
    requires n >= 0
    ensures |Copies(u, n)| == n && forall i :: 0 <= i < n ==> Copies(u, n)[i] == u
  {
    if n > 0 {
      CopiesAre(u, n - 1);
    }
  }

  /** Copies fall apart into copies. */
  lemma CopiesSplit(u: Unit, n: int, k: int)
    requires 0 <= k <= n
    ensures |Copies(u, n)| == n && Copies(u, n)[..k] == Copies(u, k) && Copies(u, n)[k..] == Copies(u, n - k)
  {
    CopiesAre(u, n);
    CopiesAre(u, k);
    CopiesAre(u, n - k);
    hide Copies;
  }

  lemma {:induction false} PointsAppend(a: seq<Unit>, b: seq<Unit>, side: Side, price: real)
    ensures PointsMade(a + b, side, price) == PointsMade(a, side, price) + PointsMade(b, side, price)
  {
    if a == [] {
      assert a + b == b;
    } else {
      PointsAppend(a[1..], b, side, price);
      assert (a + b)[1..] == a[1..] + b;
    }
  }

  lemma {:induction false} PointsOfCopies(u: Unit, n: int, side: Side, price: real)
    requires n >= 0
    ensures PointsMade(Copies(u, n), side, price) == Gain(u.price, price, if side.Sell? then n else -n)
  {
    if n > 0 {
      PointsOfCopies(u, n - 1, side, price);
      assert Copies(u, n)[1..] == Copies(u, n - 1);
      OneMorePoint(price - u.price, n);
    }
  }

  lemma OneMorePoint(move: real, n: int)
    ensures move * n as real == move * (n - 1) as real + move
    ensures move * (-n) as real == move * (-(n - 1)) as real - move
  {
    var r := n as real;
    assert (n - 1) as real == r - 1.0 && (-n) as real == -r && (-(n - 1)) as real == -r + 1.0;
    assert move * (r - 1.0) == move * r - move && move * (-r + 1.0) == move * -r + move;
  }

  /** Part of a lot is so many contracts of it. */
  lemma LotPoints(open: Lot, side: Side, price: real, n: int, spec: ProductSpec)
    requires Positive(spec) && n >= 0
    ensures LotPnl(open, side, price, n, spec)
         == Worth(spec, PointsMade(Copies(Unit(open.side, open.price), n), side, price))
  {
    LotPnlIsWorth(open, side, price, n, spec);
    PointsOfCopies(Unit(open.side, open.price), n, side, price);
    hide LotPnl, Worth, Gain, PointsMade, Copies;
  }

  /** What closing leaves: the oldest contracts are gone, as many as the fill has, and have made their points. */
  ghost predicate ClosesFront(c: Closing, r: Closing, k: nat, side: Side, price: real, spec: ProductSpec)
    requires Positive(spec)
  {
    && k <= |Units(c.lots)|
    && Units(r.lots) == Units(c.lots)[k..] && r.qty == c.qty - k
    && r.derived == c.derived + Worth(spec, PointsMade(Units(c.lots)[..k], side, price))
  }

  lemma {:induction false} UnitsSide(lots: seq<Lot>)
    requires OneSided(lots)
    ensures forall i :: 0 <= i < |Units(lots)| ==> Units(lots)[i].side == lots[0].side
    ensures lots != [] ==> Units(lots) != []
  {
    if lots != [] {
      assert OneSided(lots[1..]) by { assert forall i :: 0 <= i < |lots[1..]| ==> lots[1..][i] == lots[i + 1]; }
      UnitsSide(lots[1..]);
      CopiesAre(Unit(lots[0].side, lots[0].price), lots[0].qty);
    }
  }

  lemma {:induction false} CloseTakesOldest(c: Closing, side: Side, price: real, spec: ProductSpec)
    requires Positive(spec) && OneSided(c.lots) && c.qty >= 0 && (c.lots != [] ==> c.lots[0].side != side)
    ensures ClosesFront(c, CloseLots(c, side, price, spec), Min(c.qty, |Units(c.lots)|), side, price, spec)
    decreases |c.lots|
  {
    hide *;
    if c.qty == 0 || c.lots == [] {
      NothingClosed(c, side, price, spec);
    } else {
      TailOneSided(c.lots);
      var open := c.lots[0];
      var u, matched := Unit(open.side, open.price), LesserOf(c.qty, open.qty);
      LotPoints(open, side, price, matched, spec);
      CloseUnfolds(c, matched, side, price, spec);
      var derived := c.derived + LotPnl(open, side, price, matched, spec);
      if open.qty <= c.qty {
        var n := Closing(c.lots[1..], c.qty - matched, derived);
        CloseTakesOldest(n, side, price, spec);
        WholeLot(c, n, CloseLots(n, side, price, spec), u, LesserOf(n.qty, |Units(n.lots)|), side, price, spec);
        LesserSum(c.qty, open.qty, |Units(n.lots)|);
      } else {
        PartOfLot(c, Closing(c.lots[0 := open.(qty := open.qty - matched)], 0, derived), u, side, price, spec);
        LesserSum(c.qty, |Units(c.lots)|, 0);
      }
    }
  }

  function LesserOf(a: int, b: int): (m: int)
    ensures m == Min(a, b) && m == if a <= b then a else b
  {
    Min(a, b)
  }

  lemma LesserSum(a: int, b: int, more: int)
    ensures a <= b ==> Min(a, b) == a
    ensures b <= a ==> b + Min(a - b, more) == Min(a, b + more)
  {
  }

  lemma TailOneSided(lots: seq<Lot>)
    requires OneSided(lots) && lots != []
    ensures OneSided(lots[1..]) && lots[0].qty > 0 && (lots[1..] != [] ==> lots[1..][0].side == lots[0].side)
  {
    assert forall i :: 0 <= i < |lots[1..]| ==> lots[1..][i] == lots[i + 1];
  }

  lemma CloseUnfolds(c: Closing, matched: int, side: Side, price: real, spec: ProductSpec)
    requires Positive(spec) && c.qty > 0 && c.lots != [] && c.lots[0].side != side
    requires matched == if c.qty <= c.lots[0].qty then c.qty else c.lots[0].qty
    ensures var open := c.lots[0];
      var derived := c.derived + LotPnl(open, side, price, matched, spec);
      CloseLots(c, side, price, spec)
      == if open.qty <= c.qty then CloseLots(Closing(c.lots[1..], c.qty - matched, derived), side, price, spec)
         else Closing(c.lots[0 := open.(qty := open.qty - matched)], 0, derived)
  {
    hide LotPnl;
  }

  lemma NothingClosed(c: Closing, side: Side, price: real, spec: ProductSpec)
    requires Positive(spec) && (c.qty == 0 || (c.lots == [] && c.qty >= 0))
    ensures CloseLots(c, side, price, spec) == c && Min(c.qty, |Units(c.lots)|) == 0
    ensures ClosesFront(c, c, 0, side, price, spec)
  {
    assert Units(c.lots)[..0] == [] && Units(c.lots)[0..] == Units(c.lots);
    WorthAdds(spec, 0.0, 0.0);
  }

  /** Only part of the first lot is closed. */
  lemma PartOfLot(c: Closing, r: Closing, u: Unit, side: Side, price: real, spec: ProductSpec)
    requires Positive(spec) && c.lots != [] && u == Unit(c.lots[0].side, c.lots[0].price) && 0 <= c.qty < c.lots[0].qty
    requires r.lots == c.lots[0 := c.lots[0].(qty := c.lots[0].qty - c.qty)] && r.qty == 0
    requires r.derived == c.derived + Worth(spec, PointsMade(Copies(u, c.qty), side, price))
    ensures |Units(c.lots)| > c.qty && ClosesFront(c, r, c.qty, side, price, spec)
  {
    hide Worth, PointsMade, Copies;
    CopiesSplit(u, c.lots[0].qty, c.qty);
    assert r.lots[1..] == c.lots[1..];
    var first, rest := Copies(u, c.lots[0].qty), Units(c.lots[1..]);
    assert (first + rest)[..c.qty] == first[..c.qty];
    assert (first + rest)[c.qty..] == first[c.qty..] + rest;
  }

  /** A whole lot is closed, and then k contracts of those behind it. */
  lemma WholeLot(c: Closing, n: Closing, r: Closing, u: Unit, k: nat, side: Side, price: real, spec: ProductSpec)
    requires Positive(spec) && c.lots != [] && u == Unit(c.lots[0].side, c.lots[0].price) && c.lots[0].qty >= 0
    requires n.lots == c.lots[1..] && n.qty == c.qty - c.lots[0].qty
    requires n.derived == c.derived + Worth(spec, PointsMade(Copies(u, c.lots[0].qty), side, price))
    requires ClosesFront(n, r, k, side, price, spec)
    ensures ClosesFront(c, r, c.lots[0].qty + k, side, price, spec)
    ensures |Units(c.lots)| == c.lots[0].qty + |Units(n.lots)|
  {
    hide Worth, PointsMade, Copies;
    var first, rest := Copies(u, c.lots[0].qty), Units(n.lots);
    CopiesSplit(u, c.lots[0].qty, 0);
    assert (first + rest)[..|first| + k] == first + rest[..k];
    assert (first + rest)[|first| + k..] == rest[k..];
    PointsAppend(first, rest[..k], side, price);
    WorthAdds(spec, PointsMade(first, side, price), PointsMade(rest[..k], side, price));
  }

  lemma {:induction false} UnitsAppend(a: seq<Lot>, b: seq<Lot>)
    ensures Units(a + b) == Units(a) + Units(b)
  {
    hide Copies;
    if a == [] {
      assert a + b == b;
    } else {
      UnitsAppend(a[1..], b);
      assert (a + b)[1..] == a[1..] + b;
      assert (a + b)[0] == a[0];
      var u := Copies(Unit(a[0].side, a[0].price), a[0].qty);
      assert u + (Units(a[1..]) + Units(b)) == u + Units(a[1..]) + Units(b);
    }
  }

  /**
    A fill on the side that is open joins the back of the queue. A fill on the
    other side closes the oldest contracts, one each, and makes exactly their
    points; what is left of it opens the other way.
   */
  lemma FirstInFirstOut(a: Account, fill: FillState, spec: ProductSpec)
    requires Positive(spec) && OneSided(a.lots) && fill.qty > 0
    ensures Units(ImportFill(a, fill, spec).lots) == Met(Units(a.lots), Unit(fill.side, fill.price), fill.qty)
    ensures var r, queue, u := ImportFill(a, fill, spec), Units(a.lots), Unit(fill.side, fill.price);
      if queue == [] || queue[0].side == fill.side then
        Units(r.lots) == queue + Copies(u, fill.qty) && r.realized == a.realized
      else
        var k := Min(fill.qty, |queue|);
        && Units(r.lots) == queue[k..] + Copies(u, fill.qty - k)
        && r.realized == a.realized + Worth(spec, PointsMade(queue[..k], fill.side, fill.price))
  {
    hide Worth, PointsMade, Copies;
    var c, u := Closing(a.lots, fill.qty, 0.0), Unit(fill.side, fill.price);
    UnitsSide(a.lots);
    NoCopies(u);
    if a.lots == [] || a.lots[0].side == fill.side {
      assert CloseLots(c, fill.side, fill.price, spec) == c;
      OneLot(a.lots, fill);
    } else {
      CloseTakesOldest(c, fill.side, fill.price, spec);
      var r := CloseLots(c, fill.side, fill.price, spec);
      OneLot(r.lots, fill.(qty := r.qty));
    }
  }

  lemma NoCopies(u: Unit)
    ensures forall n :: n <= 0 ==> Copies(u, n) == []
  {
  }

  lemma OneLot(lots: seq<Lot>, fill: FillState)
    ensures Units(lots + [Lot(fill.side, fill.price, fill.qty)])
      == Units(lots) + Copies(Unit(fill.side, fill.price), fill.qty)
  {
    hide Copies;
    var l := [Lot(fill.side, fill.price, fill.qty)];
    UnitsAppend(lots, l);
    assert l[1..] == [] && Units([]) == [];
    assert Units(l) == Copies(Unit(fill.side, fill.price), fill.qty) + [];
  }

  // ---------- a run, contract by contract ----------

  function UnitSteps(queue: seq<Unit>, units: seq<Unit>): seq<Unit>
    decreases |units|
  {
    if units == [] then queue else UnitSteps(UnitStep(queue, units[0]), units[1..])
  }

  /** The contracts of the fills, in the order they were filled. */
  function FilledUnits(fills: seq<FillState>): seq<Unit> {
    if fills == [] then [] else Copies(Unit(fills[0].side, fills[0].price), fills[0].qty) + FilledUnits(fills[1..])
  }

  lemma {:induction false} StepsAppend(queue: seq<Unit>, a: seq<Unit>, b: seq<Unit>)
    ensures UnitSteps(queue, a + b) == UnitSteps(UnitSteps(queue, a), b)
    decreases |a|
  {
    if a == [] {
      assert a + b == b;
    } else {
      StepsAppend(UnitStep(queue, a[0]), a[1..], b);
      assert (a + b)[1..] == a[1..] + b;
    }
  }

  ghost predicate OneWay(queue: seq<Unit>) {
    forall i :: 0 <= i < |queue| ==> queue[i].side == queue[0].side
  }

  lemma StaysOneWay(queue: seq<Unit>, u: Unit)
    requires OneWay(queue)
    ensures OneWay(UnitStep(queue, u)) && (|queue| > 1 ==> queue[1].side == queue[0].side)
  {
    assert forall i :: 0 < i < |queue| ==> queue[i].side == queue[0].side;
  }

  /** The queue after n contracts of one kind: they join it, or they close its oldest and then open the other way. */
  function Met(queue: seq<Unit>, u: Unit, n: int): seq<Unit>
    requires n >= 0
  {
    if queue == [] || queue[0].side == u.side then queue + Copies(u, n)
    else queue[Min(n, |queue|)..] + Copies(u, n - Min(n, |queue|))
  }

  lemma MetStep(queue: seq<Unit>, u: Unit, n: int)
    requires n > 0 && OneWay(queue)
    ensures Met(queue, u, n) == Met(UnitStep(queue, u), u, n - 1)
  {
    NoCopies(u);
    StaysOneWay(queue, u);
    var next, c := UnitStep(queue, u), Copies(u, n - 1);
    assert Copies(u, n) == [u] + c;
    hide Copies, OneWay;
    if queue == [] || queue[0].side == u.side {
      assert (queue + [u]) + c == queue + ([u] + c);
    } else if |queue| == 1 {
      assert next == [] && [] + c == c && queue[1..] == [];
    } else {
      var k := Min(n - 1, |next|);
      assert next[k..] == queue[k + 1..];
    }
  }

  /** n contracts of one kind, one after the other. */
  lemma {:induction false} CopiesStep(queue: seq<Unit>, u: Unit, n: int)
    requires n >= 0 && OneWay(queue)
    ensures UnitSteps(queue, Copies(u, n)) == Met(queue, u, n)
    decreases n
  {
    NoCopies(u);
    if n == 0 {
      assert queue + [] == queue && queue[0..] + [] == queue;
    } else {
      assert Copies(u, n)[0] == u && Copies(u, n)[1..] == Copies(u, n - 1);
      StaysOneWay(queue, u);
      MetStep(queue, u, n);
      CopiesStep(UnitStep(queue, u), u, n - 1);
      hide Met, OneWay, UnitStep;
    }
  }

  /** Over any fills, the lots are the queue that single contracts would have made. */
  lemma {:induction false} LotsAreTheQueue(a: Account, fills: seq<FillState>, spec: ProductSpec)
    requires Positive(spec) && OneSided(a.lots) && Fills(fills)
    ensures Units(ImportFills(a, fills, spec).lots) == UnitSteps(Units(a.lots), FilledUnits(fills))
    decreases |fills|
  {
    if fills != [] {
      hide *;
      var fill := fills[0];
      FirstFill(a, fills, spec);
      var next, u := ImportFill(a, fill, spec), Unit(fill.side, fill.price);
      ImportKeepsSide(a, fill, spec);
      UnitsOneWay(a.lots);
      FirstInFirstOut(a, fill, spec);
      CopiesStep(Units(a.lots), u, fill.qty);
      LotsAreTheQueue(next, fills[1..], spec);
      StepsAppend(Units(a.lots), Copies(u, fill.qty), FilledUnits(fills[1..]));
    }
  }

  lemma FirstFill(a: Account, fills: seq<FillState>, spec: ProductSpec)
    requires Positive(spec) && Fills(fills) && fills != []
    ensures fills[0].qty > 0 && Fills(fills[1..])
    ensures ImportFills(a, fills, spec) == ImportFills(ImportFill(a, fills[0], spec), fills[1..], spec)
    ensures FilledUnits(fills) == Copies(Unit(fills[0].side, fills[0].price), fills[0].qty) + FilledUnits(fills[1..])
  {
    hide ImportFill, Copies;
  }

  lemma UnitsOneWay(lots: seq<Lot>)
    requires OneSided(lots)
    ensures OneWay(Units(lots))
  {
    UnitsSide(lots);
    hide Units;
  }
}
