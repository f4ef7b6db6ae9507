/**
  Whom a command fills, and with how much, read off the state and the command
  before it is carried out: queue positions, prices and quantities decide.
 */
module Reach {
  import opened Orders
  import opened BookSpec
  import opened BookInvariant
  import opened Levels
  import opened Priority
  import opened Runs
  import opened ReportLog

  // ---------- what an incoming order takes ----------

  /** The quantity that an incoming order of side d takes from the k-th order of the side it trades against. */
  function Taken(f: seq<Order>, k: nat, d: Side, limit: int, quantity: int): int
    requires k < |f|
  {
    if Crosses(d, limit, f[k].price) then Max(0, Min(f[k].remaining, quantity - Total(f[..k]))) else 0
  }

  /** The k-th order crosses the limit, and those ahead of it do not use the quantity up. */
  predicate Reached(f: seq<Order>, k: nat, d: Side, limit: int, quantity: int)
    requires k < |f|
  {
    Crosses(d, limit, f[k].price) && Total(f[..k]) < quantity
  }

  /** All that an incoming order of side d could take. */
  function Crossing(f: seq<Order>, d: Side, limit: int): int {
    if f == [] then 0
    else (if Crosses(d, limit, f[0].price) then f[0].remaining else 0) + Crossing(f[1..], d, limit)
  }

  function LimitOf(c: OrderCommand): int
    requires c.kind.Limit? ==> c.price.Ticks?
  {
    if c.kind.Market? then MarketBoundary(c.side) else c.price.ticks
  }

  lemma FrontNotNegative(f: seq<Order>, k: nat)
    requires LiveSide(f) && k <= |f|
    ensures Total(f[..k]) >= 0
  {
    var front := f[..k];
    assert forall i :: 0 <= i < k ==> front[i] == f[i];
    TotalNotNegative(front);
  }

  lemma {:induction false} CrossingNotNegative(f: seq<Order>, d: Side, limit: int)
    requires LiveSide(f)
    ensures Crossing(f, d, limit) >= 0
  {
    if f != [] {
      assert Live(f[0]);
      CrossingNotNegative(f[1..], d, limit);
    }
  }

  lemma {:induction false} NothingCrosses(f: seq<Order>, d: Side, limit: int)
    requires forall i :: 0 <= i < |f| ==> !Crosses(d, limit, f[i].price)
    ensures Crossing(f, d, limit) == 0
  {
    if f != [] {
      NothingCrosses(f[1..], d, limit);
    }
  }

  /** In price-time order nothing crosses if the head does not. */
  lemma HeadDecides(f: seq<Order>, d: Side, limit: int)
    requires InOrder(Opposite(d), f) && (f == [] || !Crosses(d, limit, f[0].price))
    ensures forall i :: 0 <= i < |f| ==> !Crosses(d, limit, f[i].price)
    ensures Crossing(f, d, limit) == 0
  {
    forall i | 0 <= i < |f|
      ensures !Crosses(d, limit, f[i].price)
    {
      if i > 0 {
        assert Before(Opposite(d), f[0], f[i]);
      }
    }
    NothingCrosses(f, d, limit);
  }

  lemma CrossingHead(f: seq<Order>, d: Side, limit: int)
    requires LiveSide(f) && InOrder(Opposite(d), f)
    ensures Crossing(f, d, limit) > 0 <==> f != [] && Crosses(d, limit, f[0].price)
  {
    if f == [] || !Crosses(d, limit, f[0].price) {
      HeadDecides(f, d, limit);
    } else {
      assert Live(f[0]);
      CrossingNotNegative(f[1..], d, limit);
    }
  }

  // ---------- one trade ----------

  /** What one trade does to the fills of an id. */
  lemma StepFills(m: Matching, time: nat, id: string)
    requires CanMatch(m) && Tradable(m)
    ensures var q, head := Min(m.incoming.remaining, m.resting[0].remaining), m.resting[0];
      FilledQuantity(MatchStep(m, time).batch.reports, id) == FilledQuantity(m.batch.reports, id)
        + (if m.incoming.id == id then q else 0) + (if head.id == id then q else 0)
  {
    StepReports(m, time);
    var q, head := Min(m.incoming.remaining, m.resting[0].remaining), m.resting[0];
    var a := FillReport(m.incoming.(remaining := m.incoming.remaining - q), head.id, q, head.price, time,
                        m.sequence + 1);
    var b := FillReport(head.(remaining := head.remaining - q), m.incoming.id, q, head.price, time, m.sequence + 2);
    FilledAppend(m.batch.reports, [a, b], id);
    FilledOfTwo(a, b, id);
  }

  lemma FilledOfTwo(a: ExecutionReport, b: ExecutionReport, id: string)
    ensures FilledQuantity([a, b], id) == (if a.id == id then a.fill else 0) + (if b.id == id then b.fill else 0)
  {
    assert [a, b][1..] == [b] && [b][1..] == [];
    assert FilledQuantity([b], id) == if b.id == id then b.fill else 0;
  }

  /** One step on the side it trades against: the head goes, or shrinks and ends the matching. */
  ghost predicate StepsTo(m: Matching, next: Matching)
    requires CanMatch(m)
  {
    var head := m.resting[0];
    && next.incoming.id == m.incoming.id && next.incoming.side == m.incoming.side
      && next.incoming.price == m.incoming.price
    && m.incoming.remaining > 0 && head.remaining > 0
    && if head.remaining <= m.incoming.remaining then
         next.resting == m.resting[1..] && next.incoming.remaining == m.incoming.remaining - head.remaining
       else
         next.incoming.remaining == 0
  }

  lemma StepIs(m: Matching, symbol: string, time: nat)
    requires CanMatch(m) && Tradable(m) && MatchOk(m, symbol)
    ensures var next := MatchStep(m, time);
      Tradable(next) && MatchOk(next, symbol) && next.incoming.remaining < m.incoming.remaining && StepsTo(m, next)
    ensures m.incoming.remaining > 0
  {
    MatchStepShape(m, time);
    TradesHeadOk(m, MatchStep(m, time), symbol);
    assert Live(m.resting[0]);
    hide MatchStep, MatchOk, LiveSide;
  }

  lemma NothingMatched(m: Matching, symbol: string)
    requires Tradable(m) && MatchOk(m, symbol) && !CanMatch(m)
    ensures Min(m.incoming.remaining, Crossing(m.resting, m.incoming.side, m.incoming.price)) == 0
    ensures forall k :: 0 <= k < |m.resting| ==>
      Taken(m.resting, k, m.incoming.side, m.incoming.price, m.incoming.remaining) == 0
  {
    var f, d, limit := m.resting, m.incoming.side, m.incoming.price;
    CrossingNotNegative(f, d, limit);
    if m.incoming.remaining > 0 {
      HeadDecides(f, d, limit);
    } else {
      forall k | 0 <= k < |f|
        ensures Taken(f, k, d, limit, m.incoming.remaining) == 0
      {
        FrontNotNegative(f, k);
      }
    }
  }

  // ---------- matching ----------

  /** An incoming order trades what crosses it, up to its quantity. */
  lemma {:induction false} IncomingFills(m: Matching, symbol: string, time: nat)
    requires Tradable(m) && MatchOk(m, symbol)
    ensures var r := Matched(m, time);
      var all := Min(m.incoming.remaining, Crossing(m.resting, m.incoming.side, m.incoming.price));
      && FilledQuantity(r.batch.reports, m.incoming.id) == FilledQuantity(m.batch.reports, m.incoming.id) + all
      && r.incoming.remaining == m.incoming.remaining - all
    decreases m.incoming.remaining
  {
    hide *;
    MatchUnfolds(m, time);
    if !CanMatch(m) {
      NothingMatched(m, symbol);
    } else {
      var next := MatchStep(m, time);
      StepIs(m, symbol, time);
      StepFills(m, time, m.incoming.id);
      IncomingStep(m, next, symbol);
      IncomingFills(next, symbol, time);
    }
  }

  lemma IncomingStep(m: Matching, next: Matching, symbol: string)
    requires CanMatch(m) && Tradable(m) && MatchOk(m, symbol) && Tradable(next) && StepsTo(m, next)
    ensures next.incoming.id == m.incoming.id && m.resting != [] && m.resting[0].id != m.incoming.id
    ensures var all := Min(m.incoming.remaining, Crossing(m.resting, m.incoming.side, m.incoming.price));
      var later := Min(next.incoming.remaining, Crossing(next.resting, next.incoming.side, next.incoming.price));
      all == Min(m.incoming.remaining, m.resting[0].remaining) + later
      && next.incoming.remaining == m.incoming.remaining - Min(m.incoming.remaining, m.resting[0].remaining)
  {
    var d, limit := m.incoming.side, m.incoming.price;
    CrossingNotNegative(m.resting[1..], d, limit);
    CrossingNotNegative(next.resting, d, limit);
  }

  /** The k-th order of the side gives what is left for it when those ahead of it have given theirs. */
  lemma {:induction false} RestingFills(m: Matching, k: nat, symbol: string, time: nat)
    requires Tradable(m) && MatchOk(m, symbol) && k < |m.resting|
    ensures var id := m.resting[k].id;
      FilledQuantity(Matched(m, time).batch.reports, id) == FilledQuantity(m.batch.reports, id)
        + Taken(m.resting, k, m.incoming.side, m.incoming.price, m.incoming.remaining)
    decreases m.incoming.remaining
  {
    hide *;
    MatchUnfolds(m, time);
    if !CanMatch(m) {
      NothingMatched(m, symbol);
    } else {
      var next, id := MatchStep(m, time), m.resting[k].id;
      StepIs(m, symbol, time);
      StepFills(m, time, id);
      RestingStep(m, next, k, symbol);
      if m.incoming.remaining < m.resting[0].remaining {
        MatchUnfolds(next, time);
      } else if k > 0 {
        RestingFills(next, k - 1, symbol, time);
      } else {
        OtherFills(next, id, symbol, time);
      }
    }
  }

  /** What the k-th order gives, after the head has traded. */
  lemma RestingStep(m: Matching, next: Matching, k: nat, symbol: string)
    requires CanMatch(m) && Tradable(m) && MatchOk(m, symbol) && k < |m.resting| && StepsTo(m, next)
    ensures m.resting[k].id != m.incoming.id && (m.resting[0].id == m.resting[k].id <==> k == 0)
    ensures var q := Min(m.incoming.remaining, m.resting[0].remaining);
      var taken := Taken(m.resting, k, m.incoming.side, m.incoming.price, m.incoming.remaining);
      if k == 0 then taken == q
      else if m.incoming.remaining < m.resting[0].remaining then taken == 0
      else
        && k - 1 < |next.resting| && next.resting[k - 1].id == m.resting[k].id
        && taken == Taken(next.resting, k - 1, next.incoming.side, next.incoming.price, next.incoming.remaining)
    ensures m.incoming.remaining < m.resting[0].remaining ==> !CanMatch(next)
    ensures m.incoming.remaining >= m.resting[0].remaining ==>
      forall i :: 0 <= i < |next.resting| ==> next.resting[i].id != m.resting[0].id
    ensures next.incoming.id == m.incoming.id
  {
    var f := m.resting;
    hide InOrder, QueueOk;
    assert forall i :: 0 < i < |f| ==> Distinct(f[0], f[i]);
    assert f[k].id in m.registry;
    if k == 0 {
      assert f[..0] == [];
    } else {
      assert f[..k][1..] == f[1..][..k - 1];
      assert Total(f[..k]) == f[0].remaining + Total(f[1..][..k - 1]);
      FrontNotNegative(f[1..], k - 1);
    }
  }

  /** An id that neither comes in nor rests on the side is not filled. */
  lemma {:induction false} OtherFills(m: Matching, id: string, symbol: string, time: nat)
    requires Tradable(m) && MatchOk(m, symbol) && id != m.incoming.id
    requires forall i :: 0 <= i < |m.resting| ==> m.resting[i].id != id
    ensures FilledQuantity(Matched(m, time).batch.reports, id) == FilledQuantity(m.batch.reports, id)
    decreases m.incoming.remaining
  {
    hide *;
    MatchUnfolds(m, time);
    if CanMatch(m) {
      var next := MatchStep(m, time);
      StepIs(m, symbol, time);
      StepFills(m, time, id);
      OthersStay(m, next, id, time);
      OtherFills(next, id, symbol, time);
    }
  }

  lemma OthersStay(m: Matching, next: Matching, id: string, time: nat)
    requires CanMatch(m) && Tradable(m) && next == MatchStep(m, time)
    requires forall i :: 0 <= i < |m.resting| ==> m.resting[i].id != id
    ensures m.resting != [] && m.resting[0].id != id && next.incoming.id == m.incoming.id
    ensures forall i :: 0 <= i < |next.resting| ==> next.resting[i].id != id
  {
    MatchStepShape(m, time);
    hide MatchStep;
  }

  // ---------- an order ----------

  function OtherSide(s: State, c: OrderCommand): seq<Order>
    requires c.symbol in s.books
  {
    s.books[c.symbol].Orders(Opposite(c.side))
  }

  /** The fills of an accepted order are those of its matching. */
  lemma SubmitReports(s: State, c: OrderCommand, now: Clock, id: string)
    requires WellFormed(s) && Sound(s) && Refusal(s, c).None?
    ensures var m := StartMatch(s, c, now);
      && Tradable(m) && MatchOk(m, c.symbol) && FilledQuantity(m.batch.reports, id) == 0
      && m.incoming.id == c.id && m.incoming.side == c.side && m.incoming.price == LimitOf(c)
      && m.incoming.remaining == c.quantity && m.resting == OtherSide(s, c)
      && FilledQuantity(Submit(s, c, now).batch.reports, id)
         == FilledQuantity(Matched(m, EffectiveTime(c.time, now)).batch.reports, id)
  {
    var time := EffectiveTime(c.time, now);
    var m := StartMatch(s, c, now);
    StartOk(s, c, now);
    NoFillAdds([], ReportFor(m.incoming, Accepted, 0, 0, "accepted", time, s.sequence + 2), id);
    MatchKeepsOrder(m, time);
    var r := Matched(m, time);
    RemainderFillsNothing(AfterMatch(s, c, r), r, time, id);
  }

  lemma NoFillAdds(log: seq<ExecutionReport>, r: ExecutionReport, id: string)
    requires r.fill == 0
    ensures FilledQuantity(log + [r], id) == FilledQuantity(log, id)
  {
    FilledAppend(log, [r], id);
    assert [r][1..] == [];
  }

  lemma RemainderFillsNothing(s: State, m: Matching, time: nat, id: string)
    requires m.incoming.symbol in s.books && Priced(m.incoming)
    ensures FilledQuantity(Remainder(s, m, time).batch.reports, id) == FilledQuantity(m.batch.reports, id)
  {
    var o := m.incoming;
    if o.remaining > 0 && o.kind.Limit? && !o.tif.Ioc? {
      NoFillAdds(m.batch.reports, ReportFor(o, Resting, 0, 0, "resting", time, s.sequence + 1), id);
    } else if o.remaining > 0 {
      NoFillAdds(m.batch.reports,
                 ReportFor(o, Canceled, 0, 0, "unfilled_ioc_or_market_remainder", time, s.sequence + 1), id);
    }
  }

  /** An accepted order takes from each resting order what its place in the queue says, and nothing else fills. */
  lemma SubmitFills(s: State, c: OrderCommand, now: Clock, id: string)
    requires WellFormed(s) && Sound(s) && Refusal(s, c).None?
    ensures var filled, f := FilledQuantity(Submit(s, c, now).batch.reports, id), OtherSide(s, c);
      && (id == c.id ==> filled == Min(c.quantity, Crossing(f, c.side, LimitOf(c))))
      && (forall k :: 0 <= k < |f| && f[k].id == id ==> filled == Taken(f, k, c.side, LimitOf(c), c.quantity))
      && (id != c.id && !HasId(f, id) ==> filled == 0)
  {
    hide *;
    Unrefused(s, c);
    var m, f, time := StartMatch(s, c, now), OtherSide(s, c), EffectiveTime(c.time, now);
    SubmitReports(s, c, now, id);
    if id == c.id {
      IncomingFills(m, c.symbol, time);
    }
    forall k | 0 <= k < |f| && f[k].id == id
      ensures FilledQuantity(Submit(s, c, now).batch.reports, id) == Taken(f, k, c.side, LimitOf(c), c.quantity)
    {
      RestingFills(m, k, c.symbol, time);
    }
    if id != c.id && !HasId(f, id) {
      NoSuchId(f, id);
      OtherFills(m, id, c.symbol, time);
    }
  }

  lemma Unrefused(s: State, c: OrderCommand)
    requires Refusal(s, c).None?
    ensures c.symbol in s.books && (c.kind.Limit? ==> c.price.Ticks?)
  {
  }

  lemma NoSuchId(f: seq<Order>, id: string)
    requires !HasId(f, id)
    ensures forall i :: 0 <= i < |f| ==> f[i].id != id
  {
  }

  /** An accepted order is registered afterwards exactly if it may rest and the other side cannot fill it. */
  lemma SubmitRegisters(s: State, c: OrderCommand, now: Clock)
    requires WellFormed(s) && Sound(s) && Refusal(s, c).None?
    ensures c.id in Submit(s, c, now).state.registry
            <==> c.kind.Limit? && !c.tif.Ioc? && Crossing(OtherSide(s, c), c.side, LimitOf(c)) < c.quantity
  {
    var m, time := StartMatch(s, c, now), EffectiveTime(c.time, now);
    SubmitReports(s, c, now, c.id);
    IncomingFills(m, c.symbol, time);
    MatchedOk(s, c, now);
    MatchKeepsOrder(m, time);
    hide Matched, FilledQuantity, Crossing, WellFormed, LiveSide;
  }

  /** Reading an order as a caller could before sending it: whom it fills. */
  predicate OrderReaches(s: State, c: OrderCommand, id: string) {
    && Refusal(s, c).None?
    && var f := OtherSide(s, c);
       if id == c.id then f != [] && Crosses(c.side, LimitOf(c), f[0].price)
       else exists k :: 0 <= k < |f| && f[k].id == id && Reached(f, k, c.side, LimitOf(c), c.quantity)
  }

  lemma SubmitReaches(s: State, c: OrderCommand, now: Clock, id: string)
    requires WellFormed(s) && Sound(s)
    ensures FilledQuantity(Submit(s, c, now).batch.reports, id) >= 0
    ensures FilledQuantity(Submit(s, c, now).batch.reports, id) > 0 <==> OrderReaches(s, c, id)
  {
    if Refusal(s, c).Some? {
      var time := EffectiveTime(c.time, now);
      NoFillAdds([], RejectReport(c, Refusal(s, c).value, time, s.sequence + 1), id);
    } else {
      SubmitFills(s, c, now, id);
      SideIsOk(s, c.symbol, Opposite(c.side));
      hide *;
      SubmitReachesBy(s, c, id, FilledQuantity(Submit(s, c, now).batch.reports, id));
    }
  }

  lemma SideIsOk(s: State, symbol: string, d: Side)
    requires WellFormed(s) && symbol in s.books
    ensures var f := s.books[symbol].Orders(d);
      LiveSide(f) && InOrder(d, f) && Lists(s.registry, symbol, d, f)
  {
    assert BookOk(s, symbol);
  }

  lemma SubmitReachesBy(s: State, c: OrderCommand, id: string, filled: int)
    requires Refusal(s, c).None? && c.symbol in s.books
    requires LiveSide(OtherSide(s, c)) && InOrder(Opposite(c.side), OtherSide(s, c))
    requires Lists(s.registry, c.symbol, Opposite(c.side), OtherSide(s, c))
    requires var f := OtherSide(s, c);
      && (id == c.id ==> filled == Min(c.quantity, Crossing(f, c.side, LimitOf(c))))
      && (forall k :: 0 <= k < |f| && f[k].id == id ==> filled == Taken(f, k, c.side, LimitOf(c), c.quantity))
      && (id != c.id && !HasId(f, id) ==> filled == 0)
    ensures filled >= 0 && (filled > 0 <==> OrderReaches(s, c, id))
  {
    hide InOrder, Crossing, Total;
    var f := OtherSide(s, c);
    if id == c.id {
      CrossingHead(f, c.side, LimitOf(c));
      CrossingNotNegative(f, c.side, LimitOf(c));
    } else if HasId(f, id) {
      var k :| 0 <= k < |f| && f[k].id == id;
      assert Live(f[k]);
      assert filled > 0 <==> Reached(f, k, c.side, LimitOf(c), c.quantity);
      forall i | 0 <= i < |f| && f[i].id == id
        ensures i == k
      {
        assert i < k ==> Distinct(f[i], f[k]);
        assert k < i ==> Distinct(f[k], f[i]);
      }
    }
  }

  // ---------- any command ----------

  /** Some order with the id rests where the tick trades through it. */
  predicate TickReaches(s: State, tick: MarketDataTick, id: string) {
    && tick.symbol in s.books
    && exists d: Side, k :: 0 <= k < |s.books[tick.symbol].Orders(d)| && s.books[tick.symbol].Orders(d)[k].id == id
         && Triggered(d, tick, s.books[tick.symbol].Orders(d)[k].price)
  }

  /** The state in which a replacement comes in: the old order is gone. */
  function Vacated(s: State, c: ReplaceCommand, now: Clock): (t: State)
    requires Locatable(s) && c.id in s.registry
  {
    Remove(s, c.id, EffectiveTime(c.time, now)).state.(sequence := s.sequence + 1)
  }

  /** Whom a command fills, read before it is carried out. */
  predicate Reaches(s: State, input: Input, id: string)
    requires WellFormed(s)
  {
    WellFormedIsSound(s);
    match input.command
    case SubmitOrder(c) => OrderReaches(s, c, id)
    case CancelOrder(c) => false
    case ReplaceOrder(c) =>
      c.id in s.registry
      && (LocatedIsPriced(s, c.id);
          OrderReaches(Vacated(s, c, input.now),
                       ReplacementOf(Located(s, c.id), c, EffectiveTime(c.time, input.now)), id))
    case MarketData(t) => TickReaches(s, t, id)
    case ResetBooks => false
  }

  lemma LocatedIsPriced(s: State, id: string)
    requires WellFormed(s) && Locatable(s) && id in s.registry
    ensures Priced(Located(s, id))
  {
    WellFormedIsSound(s);
    var at := s.registry[id];
    FindIsMember(s.books[at.symbol].Orders(at.side), id);
    hide WellFormed, Find;
  }

  /** A command fills something of an id exactly if it reaches it. */
  lemma StepReaches(s: State, input: Input, id: string)
    requires WellFormed(s)
    ensures FilledQuantity(Next(s, input).batch.reports, id) >= 0
    ensures FilledQuantity(Next(s, input).batch.reports, id) > 0 <==> Reaches(s, input, id)
  {
    WellFormedIsSound(s);
    match input.command
    case SubmitOrder(c) => SubmitReaches(s, c, input.now, id);
    case CancelOrder(c) => CancelFillsNothing(s, c, input.now, id);
    case ReplaceOrder(c) => ReplaceReaches(s, c, input.now, id);
    case MarketData(t) => TickFillsTriggered(s, t, input.now, id);
    case ResetBooks =>
  }

  lemma CancelFillsNothing(s: State, c: CancelCommand, now: Clock, id: string)
    requires WellFormed(s) && Sound(s) && Locatable(s)
    ensures FilledQuantity(Cancel(s, c, now).batch.reports, id) == 0
  {
    hide WellFormed;
    var reports := Cancel(s, c, now).batch.reports;
    assert |reports| == 1 && reports == [] + [reports[0]];
    NoFillAdds([], reports[0], id);
  }

  lemma ReplaceReaches(s: State, c: ReplaceCommand, now: Clock, id: string)
    requires WellFormed(s) && Sound(s) && Locatable(s)
    ensures FilledQuantity(Replace(s, c, now).batch.reports, id) >= 0
    ensures FilledQuantity(Replace(s, c, now).batch.reports, id) > 0
            <==> Reaches(s, Input(ReplaceOrder(c), now), id)
  {
    hide WellFormed, Submit, OrderReaches, Remove;
    var time := EffectiveTime(c.time, now);
    if c.id !in s.registry {
      NoFillAdds([], NotFoundReport(c.id, time, s.sequence + 1), id);
    } else {
      LocatedIsPriced(s, c.id);
      var o := Located(s, c.id);
      VacatedOk(s, c, now);
      var t := Vacated(s, c, now);
      WellFormedIsSound(t);
      SubmitReaches(t, ReplacementOf(o, c, time), now, id);
      var r := ReportFor(o, Replaced, 0, 0, "cancel_replace", time, s.sequence + 1);
      ReplaceIs(s, c, now, r);
      NoFillAdds([], r, id);
      FilledAppend([] + [r], Submit(t, ReplacementOf(o, c, time), now).batch.reports, id);
    }
  }

  lemma VacatedOk(s: State, c: ReplaceCommand, now: Clock)
    requires WellFormed(s) && Locatable(s) && c.id in s.registry
    ensures WellFormed(Vacated(s, c, now))
  {
    var time := EffectiveTime(c.time, now);
    RemoveOk(s, c.id, time);
    SequenceOk(Remove(s, c.id, time).state, s.sequence + 1);
  }

  lemma ReplaceIs(s: State, c: ReplaceCommand, now: Clock, r: ExecutionReport)
    requires WellFormed(s) && Sound(s) && Locatable(s) && c.id in s.registry && Priced(Located(s, c.id))
    requires r == ReportFor(Located(s, c.id), Replaced, 0, 0, "cancel_replace", EffectiveTime(c.time, now),
                            s.sequence + 1)
    requires Sound(Vacated(s, c, now))
    ensures Replace(s, c, now).batch.reports == ([] + [r])
      + Submit(Vacated(s, c, now), ReplacementOf(Located(s, c.id), c, EffectiveTime(c.time, now)), now).batch.reports
  {
    hide Submit, WellFormed;
  }

  // ---------- a tick ----------

  /** A swept order is filled with all that is left of it. */
  lemma {:induction false} SweptFills(f: seq<Order>, time: nat, sequence: nat, id: string)
    requires LiveSide(f)
    ensures FilledQuantity(SweepReports(f, time, sequence), id) >= 0
    ensures FilledQuantity(SweepReports(f, time, sequence), id) > 0 <==> HasId(f, id)
  {
    if f != [] {
      assert Live(f[0]);
      SweptFills(f[1..], time, sequence + 1, id);
      var r := FillReport(f[0].(remaining := 0), "MARKET_DATA", f[0].remaining, f[0].price, time, sequence + 1);
      FilledAppend([r], SweepReports(f[1..], time, sequence + 1), id);
      assert [r][1..] == [] && FilledQuantity([r], id) == if r.id == id then r.fill else 0;
      HasIdHead(f, id);
      hide HasId, FilledQuantity;
    }
  }

  lemma HasIdHead(f: seq<Order>, id: string)
    requires f != []
    ensures HasId(f, id) <==> f[0].id == id || HasId(f[1..], id)
  {
    if HasId(f, id) && f[0].id != id {
      var i :| 0 <= i < |f| && f[i].id == id;
      assert f[1..][i - 1].id == id;
    }
    if HasId(f[1..], id) {
      var i :| 0 <= i < |f[1..]| && f[1..][i].id == id;
      assert f[i + 1].id == id;
    }
  }

  /** One side of the sweep fills an id exactly if an order with it is triggered there. */
  lemma SideFills(w: Sweeping, symbol: string, d: Side, tick: MarketDataTick, time: nat, id: string)
    requires LiveSide(w.resting) && InOrder(d, w.resting)
    ensures var before, after := FilledQuantity(w.batch.reports, id),
        FilledQuantity(Sweep(w, symbol, d, tick, time).batch.reports, id);
      && after >= before
      && (after > before <==>
            exists k :: 0 <= k < |w.resting| && w.resting[k].id == id && Triggered(d, tick, w.resting[k].price))
  {
    hide Sweep, InOrder, Untriggered, Triggered, FilledQuantity;
    var f := w.resting;
    var n := SweepIsFilter(w, symbol, d, tick, time);
    SweptFills(f[..n], time, w.sequence, id);
    FilledAppend(w.batch.reports, SweepReports(f[..n], time, w.sequence), id);
    assert forall k :: 0 <= k < n ==> f[..n][k] == f[k];
  }

  lemma TickFillsTriggered(s: State, tick: MarketDataTick, now: Clock, id: string)
    requires WellFormed(s) && Sound(s)
    ensures FilledQuantity(ApplyTick(s, tick, now).batch.reports, id) >= 0
    ensures FilledQuantity(ApplyTick(s, tick, now).batch.reports, id) > 0 <==> TickReaches(s, tick, id)
  {
    if tick.symbol in s.books {
      var symbol, time := tick.symbol, EffectiveTime(tick.time, now);
      var b := s.books[symbol];
      SideIsOk(s, symbol, Buy);
      SideIsOk(s, symbol, Sell);
      hide WellFormed, Sweep, Triggered, InOrder;
      var w := Sweeping(b.asks, s.registry, s.sequence, EMPTY);
      SideFills(w, symbol, Sell, tick, time, id);
      var asks := Sweep(w, symbol, Sell, tick, time);
      SideFills(Sweeping(b.bids, asks.registry, asks.sequence, asks.batch), symbol, Buy, tick, time, id);
      assert b.Orders(Buy) == b.bids && b.Orders(Sell) == b.asks;
    }
  }
}
