/**
  What matching and sweeping mean: matching fills a prefix of the crossing
  orders in price-time order, and a market-data sweep is a filter.
 */
module Priority {
  import opened Orders
  import opened BookSpec
  import opened BookInvariant
  import opened Levels

  function Ids(f: seq<Order>): set<string> {
    set i | 0 <= i < |f| :: f[i].id
  }

  /** A fill as it is reported: the order's own side and tags, what is left of it, and the other order's id. */
  function Filling(o: Order, contra: string, quantity: int, price: int, time: nat, sequence: nat): ExecutionReport
    requires Priced(o)
  {
    ExecutionReport(o.id, contra, o.symbol, o.side, if o.remaining > quantity then PartialFill else Filled,
                    Ticks(o.price),
                    price, quantity, o.remaining - quantity, time, sequence, "fill", o.metadata)
  }

  /** The two reports of one trade, at the resting order's price. */
  function TradeReports(o: Order, resting: Order, quantity: int, time: nat, sequence: nat): seq<ExecutionReport>
    requires Priced(o) && Priced(resting)
  {
    [ Filling(o, resting.id, quantity, resting.price, time, sequence + 1),
      Filling(resting, o.id, quantity, resting.price, time, sequence + 2) ]
  }

  /** The reports for filling the first n orders of f in full and `part` of the next. */
  function PrefixReports(o: Order, f: seq<Order>, n: nat, part: int, time: nat, sequence: nat): seq<ExecutionReport>
    requires Priced(o) && LiveSide(f) && n <= |f| && (part != 0 ==> n < |f|)
    decreases n
  {
    if n > 0 then
      TradeReports(o, f[0], f[0].remaining, time, sequence)
      + PrefixReports(o.(remaining := o.remaining - f[0].remaining), f[1..], n - 1, part, time, sequence + 2)
    else if part != 0 then TradeReports(o, f[0], part, time, sequence)
    else []
  }

  /** f without its first n orders and with `part` taken from the next. */
  function AfterPrefix(f: seq<Order>, n: nat, part: int): seq<Order>
    requires n <= |f| && (part != 0 ==> n < |f|)
  {
    if part == 0 then f[n..] else [f[n].(remaining := f[n].remaining - part)] + f[n + 1..]
  }

  /** How many resting orders trade at all. */
  function Touched(n: nat, part: int): nat {
    if part == 0 then n else n + 1
  }

  /**
    r is what price-time priority makes of m: the first n resting orders fill
    in full, the next one gives `part`, all of them cross the incoming limit,
    and the incoming order is left with something only if nothing that
    crosses is left.
   */
  ghost predicate PriceTimeFill(m: Matching, r: Matching, n: nat, part: int)
    requires Tradable(m)
  {
    var f, o := m.resting, m.incoming;
    && n <= |f| && 0 <= part && (part > 0 ==> n < |f| && part < f[n].remaining)
    && r.resting == AfterPrefix(f, n, part)
    && r.incoming == o.(remaining := o.remaining - Total(f[..n]) - part)
    && r.incoming.remaining >= 0
    && (forall i :: 0 <= i < Touched(n, part) ==> Crosses(o.side, o.price, f[i].price))
    && (r.incoming.remaining > 0 ==> part == 0 && (n == |f| || !Crosses(o.side, o.price, f[n].price)))
    && r.registry == m.registry - Ids(f[..n])
    && r.sequence == m.sequence + 2 * Touched(n, part)
  }

  ghost predicate ReportsPrefix(m: Matching, r: Matching, n: nat, part: int, time: nat)
    requires Tradable(m) && n <= |m.resting| && (part != 0 ==> n < |m.resting|)
  {
    r.batch.reports == m.batch.reports + PrefixReports(m.incoming, m.resting, n, part, time, m.sequence)
  }

  // ---------- one delta per level ----------

  /** The delta that says what a side, now g, has left at a price. */
  function LevelDelta(symbol: string, d: Side, price: int, g: seq<Order>, time: nat, sequence: nat): BookDelta {
    BookDelta(symbol, if LevelCount(g, price) == 0 then Delete else Modify, d, price, LevelQuantity(g, price),
              LevelCount(g, price), time, sequence)
  }

  /**
    One delta for each price among the first `touched` orders of f, at the last
    of them, numbered like the last of the `each` reports that its order caused.
   */
  function LevelDeltas(symbol: string, d: Side, f: seq<Order>, touched: nat, g: seq<Order>, time: nat, sequence: nat,
                       each: nat): seq<BookDelta>
    requires touched <= |f|
    decreases touched
  {
    if touched == 0 then []
    else
      (if touched == 1 || f[1].price != f[0].price then [LevelDelta(symbol, d, f[0].price, g, time, sequence + each)]
        else [])
      + LevelDeltas(symbol, d, f[1..], touched - 1, g, time, sequence + each, each)
  }

  ghost predicate DeltasPrefix(m: Matching, r: Matching, n: nat, part: int, time: nat)
    requires Tradable(m) && n <= |m.resting| && (part != 0 ==> n < |m.resting|)
  {
    r.batch.deltas == m.batch.deltas
      + LevelDeltas(m.incoming.symbol, Opposite(m.incoming.side), m.resting, Touched(n, part),
                    AfterPrefix(m.resting, n, part), time, m.sequence, 2)
  }

  /** Behind its last order, a price does not occur in a queue. */
  lemma {:induction false} NoSuchPrice(f: seq<Order>, price: int)
    requires forall i :: 0 <= i < |f| ==> f[i].price != price
    ensures LevelCount(f, price) == 0 && LevelQuantity(f, price) == 0
  {
    if f != [] {
      NoSuchPrice(f[1..], price);
    }
  }

  lemma PastItsLevel(d: Side, f: seq<Order>, price: int)
    requires InOrder(d, f) && f != [] && f[0].price == price && (|f| == 1 || f[1].price != price)
    ensures forall i :: 0 < i < |f| ==> f[i].price != price
  {
    forall i | 0 < i < |f|
      ensures f[i].price != price
    {
      assert Before(d, f[0], f[1]);
      if i > 1 { assert Before(d, f[1], f[i]); }
    }
  }

  /** What one trade announces: the level of the head, if it or the incoming order is used up. */
  lemma StepDeltas(m: Matching, time: nat)
    requires CanMatch(m) && Tradable(m) && InOrder(Opposite(m.incoming.side), m.resting)
    ensures var next, price := MatchStep(m, time), m.resting[0].price;
      var done := next.incoming.remaining <= 0 || next.resting == [] || next.resting[0].price != price;
      next.batch.deltas == m.batch.deltas
        + if done then [LevelDelta(m.incoming.symbol, Opposite(m.incoming.side), price, next.resting, time,
                                   m.sequence + 2)]
          else []
    ensures MatchStep(m, time).incoming.symbol == m.incoming.symbol
      && MatchStep(m, time).incoming.side == m.incoming.side
  {
    var t, price := Trade(m, time), m.resting[0].price;
    HeadCounts(t.resting, price);
    if t.resting == [] || t.resting[0].price != price {
      GoneLevel(m, price);
    }
    assert m.batch.deltas + [] == m.batch.deltas;
    hide LevelCount, LevelQuantity;
  }

  lemma GoneLevel(m: Matching, price: int)
    requires InOrder(Opposite(m.incoming.side), m.resting) && m.resting != [] && m.resting[0].price == price
    requires |m.resting| == 1 || m.resting[1].price != price
    ensures LevelCount(m.resting[1..], price) == 0 && LevelQuantity(m.resting[1..], price) == 0
  {
    PastItsLevel(Opposite(m.incoming.side), m.resting, price);
    NoSuchPrice(m.resting[1..], price);
  }

  lemma HeadCounts(f: seq<Order>, price: int)
    ensures f != [] && f[0].price == price ==> LevelCount(f, price) > 0
  {
  }

  lemma NothingTold(m: Matching, time: nat)
    requires Tradable(m)
    ensures DeltasPrefix(m, m, 0, 0, time)
  {
    assert m.batch.deltas + [] == m.batch.deltas;
  }

  /** The head is used up: its level is told if nothing more of it trades. */
  lemma HeadThenDeltas(m: Matching, next: Matching, r: Matching, n: nat, part: int, time: nat)
    requires Tradable(m) && Tradable(next) && m.resting != [] && next.resting == m.resting[1..]
    requires InOrder(Opposite(m.incoming.side), m.resting)
    requires next.incoming.symbol == m.incoming.symbol && next.incoming.side == m.incoming.side
    requires next.incoming.price == m.incoming.price && next.sequence == m.sequence + 2 && next.incoming.remaining >= 0
    requires PriceTimeFill(next, r, n, part) && Crosses(m.incoming.side, m.incoming.price, m.resting[0].price)
    requires n <= |next.resting| && (part != 0 ==> n < |next.resting|) && DeltasPrefix(next, r, n, part, time)
    requires var price := m.resting[0].price;
      var done := next.incoming.remaining <= 0 || next.resting == [] || next.resting[0].price != price;
      next.batch.deltas == m.batch.deltas
        + if done then [LevelDelta(m.incoming.symbol, Opposite(m.incoming.side), price, next.resting, time,
                                   m.sequence + 2)]
          else []
    ensures DeltasPrefix(m, r, n + 1, part, time)
  {
    var f, price, d := m.resting, m.resting[0].price, Opposite(m.incoming.side);
    var g := AfterPrefix(f, n + 1, part);
    assert g == AfterPrefix(f[1..], n, part);
    TradesOn(m, next, r, n, part);
    if |f| > 1 && f[1].price == price {
    } else {
      PastItsLevel(d, f, price);
      NoSuchPrice(f[1..], price);
      AfterHasNone(f[1..], n, part, price);
    }
    hide LevelCount, LevelQuantity, InOrder, AfterPrefix;
    var tail := LevelDeltas(m.incoming.symbol, d, f[1..], Touched(n, part), g, time, m.sequence + 2, 2);
    assert Touched(n + 1, part) == Touched(n, part) + 1;
    if Touched(n, part) == 0 {
      assert next.resting == g;
    }
  }

  /** As long as something is left of the order, the rest of its level trades too. */
  lemma TradesOn(m: Matching, next: Matching, r: Matching, n: nat, part: int)
    requires Tradable(next) && m.resting != [] && next.resting == m.resting[1..] && next.incoming.remaining >= 0
    requires next.incoming.side == m.incoming.side && next.incoming.price == m.incoming.price
    requires PriceTimeFill(next, r, n, part) && Crosses(m.incoming.side, m.incoming.price, m.resting[0].price)
    ensures Touched(n, part) == 0 ==>
      next.incoming.remaining == 0 || next.resting == [] || next.resting[0].price != m.resting[0].price
    ensures Touched(n, part) == 0 ==> next.resting == AfterPrefix(next.resting, n, part)
    ensures next.incoming.remaining == 0 ==> Touched(n, part) == 0
  {
    assert n == 0 ==> Total(next.resting[..n]) == 0;
    if n > 0 {
      var front := next.resting[..n];
      assert forall i :: 0 <= i < n ==> front[i] == next.resting[i];
      TotalNotNegative(front);
    }
    hide Crosses, Ids;
  }

  lemma {:induction false} TotalNotNegative(f: seq<Order>)
    requires LiveSide(f)
    ensures Total(f) >= 0 && (f != [] ==> Total(f) >= f[0].remaining > 0)
  {
    if f != [] {
      assert Live(f[0]);
      TotalNotNegative(f[1..]);
    }
  }

  lemma AfterHasNone(f: seq<Order>, n: nat, part: int, price: int)
    requires n <= |f| && (part != 0 ==> n < |f|) && forall i :: 0 <= i < |f| ==> f[i].price != price
    ensures var g := AfterPrefix(f, n, part); LevelCount(g, price) == 0 && LevelQuantity(g, price) == 0
  {
    NoSuchPrice(AfterPrefix(f, n, part), price);
  }

  /** The order ends inside the head: its level is told once. */
  lemma LastTradeDeltas(m: Matching, next: Matching, time: nat)
    requires Tradable(m) && m.resting != [] && m.incoming.remaining > 0
    requires next.resting == m.resting[0 := m.resting[0].(remaining := m.resting[0].remaining - m.incoming.remaining)]
    requires next.batch.deltas == m.batch.deltas
      + [LevelDelta(m.incoming.symbol, Opposite(m.incoming.side), m.resting[0].price, next.resting, time,
                    m.sequence + 2)]
    ensures DeltasPrefix(m, next, 0, m.incoming.remaining, time)
  {
    assert next.resting == AfterPrefix(m.resting, 0, m.incoming.remaining);
    hide LevelCount, LevelQuantity, AfterPrefix;
    var one := LevelDelta(m.incoming.symbol, Opposite(m.incoming.side), m.resting[0].price, next.resting, time,
                          m.sequence + 2);
    assert [one] + [] == [one];
  }

  /**
    Matching fills exactly a prefix of the crossing side, at resting prices,
    until one side of the trade is used up.
   */
  lemma {:induction false} MatchIsPriceTime(m: Matching, time: nat) returns (n: nat, part: int)
    requires Tradable(m) && m.incoming.remaining >= 0
    ensures PriceTimeFill(m, Matched(m, time), n, part)
    ensures ReportsPrefix(m, Matched(m, time), n, part, time)
    ensures InOrder(Opposite(m.incoming.side), m.resting) ==> DeltasPrefix(m, Matched(m, time), n, part, time)
    decreases m.incoming.remaining
  {
    hide *;
    MatchUnfolds(m, time);
    if !CanMatch(m) {
      n, part := 0, 0;
      NothingTrades(m, time);
      NothingTold(m, time);
    } else {
      HeadShape(m, time);
      var next := MatchStep(m, time);
      MatchStepShape(m, time);
      StepIsTrade(m, time);
      HeadCrosses(m);
      if InOrder(Opposite(m.incoming.side), m.resting) {
        StepDeltas(m, time);
      }
      if m.resting[0].remaining <= m.incoming.remaining {
        var n', part' := MatchIsPriceTime(next, time);
        n, part := n' + 1, part';
        FillFits(next, Matched(next, time), n', part');
        HeadThenPrefix(m, next, Matched(next, time), n', part');
        HeadThenReports(m, next, Matched(next, time), n', part', time);
        if InOrder(Opposite(m.incoming.side), m.resting) {
          TailInOrder(Opposite(m.incoming.side), m.resting);
          HeadThenDeltas(m, next, Matched(next, time), n', part', time);
        }
      } else {
        n, part := 0, m.incoming.remaining;
        LastTrade(m, next, time);
        MatchUnfolds(next, time);
        if InOrder(Opposite(m.incoming.side), m.resting) {
          LastTradeDeltas(m, next, time);
        }
      }
    }
  }

  lemma NothingTrades(m: Matching, time: nat)
    requires Tradable(m) && !CanMatch(m) && m.incoming.remaining >= 0
    ensures PriceTimeFill(m, m, 0, 0) && ReportsPrefix(m, m, 0, 0, time)
  {
    assert m.resting[..0] == [] && Ids([]) == {};
    assert m.batch.reports + [] == m.batch.reports;
  }

  /** What is left after one step, if the head is used up. */
  lemma HeadShape(m: Matching, time: nat)
    requires CanMatch(m) && Tradable(m)
    ensures m.incoming.remaining > 0 && m.resting[0].remaining > 0
    ensures var next := MatchStep(m, time);
      && next.incoming.remaining >= 0 && next.sequence == m.sequence + 2
      && next.incoming == m.incoming.(remaining := next.incoming.remaining)
      && (m.resting[0].remaining <= m.incoming.remaining ==>
            next.resting == m.resting[1..] && next.incoming.remaining == m.incoming.remaining - m.resting[0].remaining)
      && Min(m.incoming.remaining, m.resting[0].remaining)
         == (if m.resting[0].remaining <= m.incoming.remaining then m.resting[0].remaining else m.incoming.remaining)
  {
    MatchStepShape(m, time);
  }

  lemma FillFits(m: Matching, r: Matching, n: nat, part: int)
    requires Tradable(m) && PriceTimeFill(m, r, n, part)
    ensures n <= |m.resting| && (part != 0 ==> n < |m.resting|)
  {
  }

  /** The incoming order ends inside the first resting order. */
  lemma LastTrade(m: Matching, next: Matching, time: nat)
    requires CanMatch(m) && Tradable(m) && m.incoming.remaining < m.resting[0].remaining
    requires TradesHead(m, next)
    requires next.batch.reports == m.batch.reports
      + TradeReports(m.incoming, m.resting[0], m.incoming.remaining, time, m.sequence)
    ensures !CanMatch(next)
    ensures PriceTimeFill(m, next, 0, m.incoming.remaining) && ReportsPrefix(m, next, 0, m.incoming.remaining, time)
  {
    assert m.resting[..0] == [] && Ids([]) == {};
    assert next.resting == AfterPrefix(m.resting, 0, m.incoming.remaining);
  }

  lemma StepIsTrade(m: Matching, time: nat)
    requires CanMatch(m) && Tradable(m)
    ensures MatchStep(m, time).batch.reports == m.batch.reports
      + TradeReports(m.incoming, m.resting[0], Min(m.incoming.remaining, m.resting[0].remaining), time, m.sequence)
  {
    hide MatchStep;
    StepReports(m, time);
    assert m.resting[0].remaining > 0;
  }

  lemma HeadCrosses(m: Matching)
    requires CanMatch(m)
    ensures Crosses(m.incoming.side, m.incoming.price, m.resting[0].price)
  {
  }

  lemma HeadThenPrefix(m: Matching, next: Matching, r: Matching, n: nat, part: int)
    requires CanMatch(m) && Tradable(m) && Tradable(next) && m.resting[0].remaining <= m.incoming.remaining
    requires TradesHead(m, next) && PriceTimeFill(next, r, n, part)
    ensures PriceTimeFill(m, r, n + 1, part)
  {
    hide Crosses, LiveSide, Ids;
    var f, head := m.resting, m.resting[0];
    HeadCrosses(m);
    assert f[..n + 1][0] == head && f[..n + 1][1..] == f[1..][..n];
    assert AfterPrefix(f, n + 1, part) == AfterPrefix(f[1..], n, part);
    IdsHead(f[..n + 1]);
    assert m.registry - Ids(f[..n + 1]) == (m.registry - {head.id}) - Ids(f[1..][..n]);
    forall i | 0 <= i < Touched(n + 1, part)
      ensures Crosses(m.incoming.side, m.incoming.price, f[i].price)
    {
      if i > 0 { assert f[i] == f[1..][i - 1]; }
    }
  }

  lemma HeadThenReports(m: Matching, next: Matching, r: Matching, n: nat, part: int, time: nat)
    requires Tradable(m) && Tradable(next) && m.resting != [] && next.resting == m.resting[1..]
    requires next.incoming == m.incoming.(remaining := m.incoming.remaining - m.resting[0].remaining)
    requires next.sequence == m.sequence + 2 && n <= |next.resting| && (part != 0 ==> n < |next.resting|)
    requires next.batch.reports == m.batch.reports
      + TradeReports(m.incoming, m.resting[0], m.resting[0].remaining, time, m.sequence)
    requires ReportsPrefix(next, r, n, part, time)
    ensures ReportsPrefix(m, r, n + 1, part, time)
  {
  }

  lemma IdsHead(f: seq<Order>)
    requires f != []
    ensures Ids(f) == {f[0].id} + Ids(f[1..])
  {
    forall id | id in Ids(f)
      ensures id in {f[0].id} + Ids(f[1..])
    {
      var i :| 0 <= i < |f| && f[i].id == id;
      if i > 0 { assert f[1..][i - 1].id == id; }
    }
    assert forall i :: 0 <= i < |f[1..]| ==> f[1..][i].id == f[i + 1].id;
  }

  /** A market order takes everything it can: what is left of it means an empty side. */
  lemma MarketOrderSweepsTheSide(m: Matching, time: nat)
    requires Tradable(m) && m.incoming.remaining >= 0 && m.incoming.price == MarketBoundary(m.incoming.side)
    ensures Matched(m, time).incoming.remaining > 0 ==> Matched(m, time).resting == []
  {
    var n, part := MatchIsPriceTime(m, time);
  }

  // ---------- sweeping ----------

  /** The orders a tick does not trade through. */
  function Untriggered(f: seq<Order>, d: Side, tick: MarketDataTick): seq<Order> {
    if f == [] then []
    else if Triggered(d, tick, f[0].price) then Untriggered(f[1..], d, tick)
    else [f[0]] + Untriggered(f[1..], d, tick)
  }

  /** One full fill per order, each at its own limit. */
  function SweepReports(f: seq<Order>, time: nat, sequence: nat): seq<ExecutionReport>
    requires LiveSide(f)
  {
    if f == [] then []
    else [Filling(f[0], "MARKET_DATA", f[0].remaining, f[0].price, time, sequence + 1)]
         + SweepReports(f[1..], time, sequence + 1)
  }

  lemma TriggerIsMonotone(d: Side, tick: MarketDataTick, ahead: int, behind: int)
    requires Triggered(d, tick, behind) && !Ahead(d, behind, ahead)
    ensures Triggered(d, tick, ahead)
  {
  }

  lemma {:induction false} NoneTriggered(f: seq<Order>, d: Side, tick: MarketDataTick)
    requires forall i :: 0 <= i < |f| ==> !Triggered(d, tick, f[i].price)
    ensures Untriggered(f, d, tick) == f
  {
    if f != [] {
      NoneTriggered(f[1..], d, tick);
    }
  }

  /** r is w with the first k orders filled, and the tick splits the side there. */
  ghost predicate SweptPrefix(w: Sweeping, r: Sweeping, k: nat, d: Side, tick: MarketDataTick, time: nat)
    requires LiveSide(w.resting)
  {
    var f := w.resting;
    && k <= |f| && r.resting == f[k..] && r.resting == Untriggered(f, d, tick)
    && (forall i :: 0 <= i < k ==> Triggered(d, tick, f[i].price))
    && (forall i :: k <= i < |f| ==> !Triggered(d, tick, f[i].price))
    && r.registry == w.registry - Ids(f[..k])
    && r.sequence == w.sequence + k
    && r.batch.reports == w.batch.reports + SweepReports(f[..k], time, w.sequence)
  }

  lemma TailInOrder(d: Side, f: seq<Order>)
    requires f != [] && InOrder(d, f)
    ensures InOrder(d, f[1..])
  {
    forall i, j | 0 <= i < j < |f[1..]|
      ensures Before(d, f[1..][i], f[1..][j])
    {
      assert Before(d, f[i + 1], f[j + 1]);
    }
  }

  lemma FirstMissIsLast(f: seq<Order>, d: Side, tick: MarketDataTick)
    requires InOrder(d, f) && (f == [] || !Triggered(d, tick, f[0].price))
    ensures forall i :: 0 <= i < |f| ==> !Triggered(d, tick, f[i].price)
  {
    forall i | 0 <= i < |f|
      ensures !Triggered(d, tick, f[i].price)
    {
      if i > 0 && Triggered(d, tick, f[i].price) {
        assert Before(d, f[0], f[i]);
        TriggerIsMonotone(d, tick, f[0].price, f[i].price);
      }
    }
  }

  /** One deletion for each level that was swept. */
  ghost predicate SweptDeltas(w: Sweeping, r: Sweeping, k: nat, symbol: string, d: Side, time: nat)
    requires k <= |w.resting|
  {
    r.batch.deltas == w.batch.deltas + LevelDeltas(symbol, d, w.resting, k, w.resting[k..], time, w.sequence, 1)
  }

  /** Stopping at the first miss is the same as filtering the whole side. */
  lemma {:induction false} SweepIsFilter(w: Sweeping, symbol: string, d: Side, tick: MarketDataTick, time: nat)
    returns (k: nat)
    requires LiveSide(w.resting) && InOrder(d, w.resting)
    ensures SweptPrefix(w, Sweep(w, symbol, d, tick, time), k, d, tick, time)
    ensures k <= |w.resting| && SweptDeltas(w, Sweep(w, symbol, d, tick, time), k, symbol, d, time)
    decreases |w.resting|
  {
    var f := w.resting;
    if f == [] || !Triggered(d, tick, f[0].price) {
      k := 0;
      assert f[..0] == [] && Ids([]) == {} && w.batch.deltas + [] == w.batch.deltas;
      FirstMissIsLast(f, d, tick);
      NoneTriggered(f, d, tick);
    } else {
      TailInOrder(d, f);
      var next := SweepStep(w, symbol, d, time);
      var k' := SweepIsFilter(next, symbol, d, tick, time);
      k := k' + 1;
      HeadThenSwept(w, next, Sweep(next, symbol, d, tick, time), k', d, tick, time);
      HeadThenSweptDeltas(w, next, Sweep(next, symbol, d, tick, time), k', symbol, d, tick, time);
    }
  }

  lemma HeadThenSweptDeltas(w: Sweeping, next: Sweeping, r: Sweeping, k: nat, symbol: string, d: Side,
                            tick: MarketDataTick, time: nat)
    requires LiveSide(w.resting) && w.resting != [] && InOrder(d, w.resting) && Triggered(d, tick, w.resting[0].price)
    requires next == SweepStep(w, symbol, d, time) && LiveSide(next.resting)
    requires SweptPrefix(next, r, k, d, tick, time) && SweptDeltas(next, r, k, symbol, d, time)
    ensures SweptDeltas(w, r, k + 1, symbol, d, time)
  {
    var f, price := w.resting, w.resting[0].price;
    var g := f[k + 1..];
    assert g == f[1..][k..];
    if k == 0 && |f| > 1 {
      assert !Triggered(d, tick, f[1..][0].price);
    }
    if |f| == 1 || f[1].price != price {
      PastItsLevel(d, f, price);
      NoSuchPrice(g, price);
    }
    hide LevelCount, LevelQuantity, InOrder, Triggered, Ids, SweepReports, Untriggered;
    var tail := LevelDeltas(symbol, d, f[1..], k, g, time, w.sequence + 1, 1);
    assert next.batch.deltas + tail == w.batch.deltas
      + ((if |f| == 1 || f[1].price != price then [LevelDelta(symbol, d, price, g, time, w.sequence + 1)] else [])
        + tail);
  }

  lemma HeadThenSwept(w: Sweeping, next: Sweeping, r: Sweeping, k: nat, d: Side, tick: MarketDataTick, time: nat)
    requires LiveSide(w.resting) && w.resting != [] && Triggered(d, tick, w.resting[0].price)
    requires next.resting == w.resting[1..] && next.registry == w.registry - {w.resting[0].id}
    requires next.sequence == w.sequence + 1
    requires next.batch.reports == w.batch.reports + [FillReport(w.resting[0].(remaining := 0), "MARKET_DATA",
               w.resting[0].remaining, w.resting[0].price, time, w.sequence + 1)]
    requires SweptPrefix(next, r, k, d, tick, time)
    ensures SweptPrefix(w, r, k + 1, d, tick, time)
  {
    var f := w.resting;
    assert f[..k + 1][1..] == f[1..][..k] && f[k + 1..] == f[1..][k..];
    IdsHead(f[..k + 1]);
    assert w.registry - Ids(f[..k + 1]) == (w.registry - {f[0].id}) - Ids(f[1..][..k]);
    forall i | 0 < i < |f|
      ensures i < k + 1 ==> Triggered(d, tick, f[i].price)
      ensures i >= k + 1 ==> !Triggered(d, tick, f[i].price)
    {
      assert f[i] == f[1..][i - 1];
    }
  }

  /** After a tick exactly the untriggered orders rest, in place; no other book changes. */
  lemma TickIsFilter(s: State, tick: MarketDataTick, now: Clock)
    requires WellFormed(s) && tick.symbol in s.books
    ensures Sound(s)
    ensures var t := ApplyTick(s, tick, now).state; var b := s.books[tick.symbol];
      t.books == s.books[tick.symbol := Book(Untriggered(b.bids, Buy, tick), Untriggered(b.asks, Sell, tick))]
    ensures var t := ApplyTick(s, tick, now).state;
      forall d: Side, i :: 0 <= i < |t.books[tick.symbol].Orders(d)| ==>
        !Triggered(d, tick, t.books[tick.symbol].Orders(d)[i].price)
  {
    WellFormedIsSound(s);
    var symbol, time := tick.symbol, EffectiveTime(tick.time, now);
    var b := s.books[symbol];
    assert BookOk(s, symbol);
    var w := Sweeping(b.asks, s.registry, s.sequence, EMPTY);
    SideIsFiltered(w, symbol, Sell, tick, time);
    var asks := Sweep(w, symbol, Sell, tick, time);
    SideIsFiltered(Sweeping(b.bids, asks.registry, asks.sequence, asks.batch), symbol, Buy, tick, time);
    hide WellFormed, Sweep, Untriggered, Triggered;
  }

  lemma SideIsFiltered(w: Sweeping, symbol: string, d: Side, tick: MarketDataTick, time: nat)
    requires LiveSide(w.resting) && InOrder(d, w.resting)
    ensures var g := Sweep(w, symbol, d, tick, time).resting;
      && g == Untriggered(w.resting, d, tick)
      && forall i :: 0 <= i < |g| ==> !Triggered(d, tick, g[i].price)
  {
    var _ := SweepIsFilter(w, symbol, d, tick, time);
    hide Sweep, Untriggered, Triggered;
  }
}
