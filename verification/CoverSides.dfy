/**
  Which way a cover goes: every cover that the gateway posts is on the other
  side of the fill it answers, away from it by the policy's ticks, and for no
  more than was filled.
 */
module CoverSides {
  import opened Orders
  import opened BookSpec
  import opened BookInvariant
  import opened Runs
  import opened Responses
  import opened CoverRuns
  import opened Gateway
  import opened Numbers
  import C = Covers

  /** The cover is one for this filling report, under this policy. */
  ghost predicate Answers(w: Wire, r: ExecutionReport, o: C.CoverOrder, p: C.Policy) {
    && r.fill > 0 && Fillish(r) && w.tags(r.metadata).source == "algo" && w.tags(r.metadata).role == "entry"
    && o.parent == r.id && o.market == r.symbol && 1 <= o.quantity <= r.fill
    && o.side == (if r.side.Sell? then "bid" else "offer")
    && C.Usable(p) && o.price == C.CoverPrice(r.side.Buy?, w.price(r.symbol, r.execution), p)
  }

  /** In whichever form a report is printed, the cover of it is on the other side of the order that was filled. */
  lemma CoverOpposesFill(w: Wire, r: ExecutionReport, e: C.FillEvent, d: C.Desk, now: nat)
    requires Prints(w, r, e)
    ensures var h := C.HandleFill(d, e, now);
      |h.orders| <= 1 && (|h.orders| == 1 ==> Answers(w, r, h.orders[0], C.Governing(d.policies, e)))
    ensures forall o :: o in C.HandleFill(d, e, now).orders ==>
      o.id == r.id + "-COVER-" + Decimal(now) && o.trigger == "cover from fill " + r.id
  {
    C.RoundedWhole(r.fill);
    hide C.Key, C.Rounded, C.CoverPrice, C.Governing, C.Usable;
    assert "BUY" != "SELL" && "buy" != "sell" && "sell" !in {"yes", "bid", "buy"} && "buy" in {"yes", "bid", "buy"} by {
      assert |"BUY"| == 3 && |"SELL"| == 4 && |"buy"| == 3 && |"sell"| == 4 && |"yes"| == 3 && |"bid"| == 3;
    }
  }

  /** An on-grid sell is covered by a bid below it, an on-grid buy by an offer above it, by the policy's ticks. */
  lemma CoverIsTheOtherWay(w: Wire, r: ExecutionReport, o: C.CoverOrder, p: C.Policy, fill: int, ticks: int)
    requires Answers(w, r, o, p) && w.price(r.symbol, r.execution) == C.OnGrid(fill, p.tickSize)
    requires p.coverTicks == ticks as real
    ensures r.side.Sell? ==>
      o.side == "bid" && o.price == C.OnGrid(fill - ticks, p.tickSize) < C.OnGrid(fill, p.tickSize)
    ensures r.side.Buy? ==>
      o.side == "offer" && o.price == C.OnGrid(fill + ticks, p.tickSize) > C.OnGrid(fill, p.tickSize)
  {
    C.CoverIsTicksAway(r.side.Buy?, fill, p, ticks);
    hide C.CoverPrice;
    var size := p.tickSize;
    assert ticks as real * size > 0.0;
    assert (fill - ticks) as real == fill as real - ticks as real
      && (fill + ticks) as real == fill as real + ticks as real;
    assert (fill as real - ticks as real) * size == fill as real * size - ticks as real * size;
    assert (fill as real + ticks as real) * size == fill as real * size + ticks as real * size;
  }

  /** The exchange reads the cover as an order on the other side, of the same symbol, for the cover's quantity. */
  lemma CommandOpposesFill(w: Wire, p: Reader, r: ExecutionReport, o: C.CoverOrder, policy: C.Policy)
    requires Answers(w, r, o, policy)
    ensures var c := CommandOf(p, o);
      c.side == Opposite(r.side) && c.symbol == r.symbol && c.quantity == o.quantity <= r.fill && c.kind.Limit?
        && c.id == o.id
  {
    assert "bid" != "offer" by { assert |"bid"| == 3 && |"offer"| == 5; }
    hide C.CoverPrice;
  }

  /** Every cover of a history answers one of its fills. */
  ghost predicate AnswersSome(w: Wire, log: seq<ExecutionReport>, o: C.CoverOrder) {
    exists i, p :: 0 <= i < |log| && Answers(w, log[i], o, p)
  }

  lemma {:induction false} CoversAnswerFills(w: Wire, log: seq<ExecutionReport>, d: C.Desk, steps: seq<C.Step>)
    requires PrintedFrom(w, log, steps)
    ensures forall o :: o in C.Handle(d, steps).orders ==> AnswersSome(w, log, o)
  {
    hide Answers, Prints;
    if steps != [] {
      var before, s := C.Init(steps), C.Last(steps);
      assert steps == before + [s];
      assert forall t :: t in before ==> t in steps;
      CoversAnswerFills(w, log, d, before);
      var desk := C.Handle(d, before).desk;
      if s.Fill? {
        assert s in steps && IsPrint(w, log, s.event);
        var i :| 0 <= i < |log| && Prints(w, log[i], s.event);
        CoverOpposesFill(w, log[i], s.event, desk, s.now);
        hide C.HandleFill, C.Governing, PrintedFrom, IsPrint;
        forall o | o in C.HandleFill(desk, s.event, s.now).orders
          ensures AnswersSome(w, log, o)
        {
          assert Answers(w, log[i], o, C.Governing(desk.policies, s.event));
        }
      }
    }
  }

  /** A command that closes what a filling report has opened. */
  ghost predicate ClosesFill(w: Wire, log: seq<ExecutionReport>, c: OrderCommand) {
    exists i :: 0 <= i < |log| && Against(w, log[i], c)
  }

  predicate Against(w: Wire, r: ExecutionReport, c: OrderCommand) {
    && r.fill > 0 && w.tags(r.metadata).source == "algo" && w.tags(r.metadata).role == "entry"
    && c.side == Opposite(r.side) && c.symbol == r.symbol && 1 <= c.quantity <= r.fill
  }

  /**
    Whatever calls come from outside: every order that the gateway posts of its
    own is on the other side of an entry's fill that the desk has heard of, in
    its symbol and for no more than that fill.
   */
  lemma OwnOrdersOpposeFills(w: Wire, p: Reader, s: State, d: C.Desk, calls: seq<Request>)
    requires WellFormed(s) && forall r :: r in calls ==> !r.Own?
    ensures var trace := Trace(w, p, s, d, calls);
      forall c :: c in OwnOrders(trace) ==> ClosesFill(w, Heard(s, trace, true), c)
  {
    hide *;
    var trace := Trace(w, p, s, d, calls);
    var log, docs := Heard(s, trace, true), Documents(w, s, trace);
    OwnOrdersAreCovers(w, p, s, d, calls);
    DocumentsTell(w, s, trace, "");
    CoversAnswerFills(w, log, d, docs);
    CommandsClose(w, p, log, C.Handle(d, docs).orders);
  }

  lemma CommandsClose(w: Wire, p: Reader, log: seq<ExecutionReport>, orders: seq<C.CoverOrder>)
    requires forall o :: o in orders ==> AnswersSome(w, log, o)
    ensures forall c :: c in Commands(p, orders) ==> ClosesFill(w, log, c)
  {
    hide CommandOf, Answers, C.CoverPrice;
    forall c | c in Commands(p, orders)
      ensures ClosesFill(w, log, c)
    {
      var k :| 0 <= k < |orders| && Commands(p, orders)[k] == c;
      assert orders[k] in orders;
      var i, policy :| 0 <= i < |log| && Answers(w, log[i], orders[k], policy);
      CommandOpposesFill(w, p, log[i], orders[k], policy);
      AnsweredFill(w, log[i], orders[k], policy);
      assert Against(w, log[i], c);
    }
  }

  lemma AnsweredFill(w: Wire, r: ExecutionReport, o: C.CoverOrder, p: C.Policy)
    requires Answers(w, r, o, p)
    ensures r.fill > 0 && w.tags(r.metadata).source == "algo" && w.tags(r.metadata).role == "entry" && 1 <= o.quantity
  {
    hide C.CoverPrice;
  }

  // ---------- what the desk goes by ----------

  /** What the desk takes for a fill: a named order, a filled quantity, and one of four words for it. */
  lemma FillKinds(e: C.FillEvent)
    ensures C.Reported(e) <==>
      && e.id != "" && e.quantity > 0.0
      && (e.kind == "filled" || e.kind == "partial" || e.kind == "partial_fill" || e.kind == "fill")
  {
  }

  /** Only an algo's entry with positive ticks is remembered, by its id, with the quantity and ticks it names. */
  lemma OnlyEntriesAreRemembered(d: C.Desk, o: C.AlgoOrder)
    ensures var r := C.HandleStep(d, C.Remember(o));
      && r.orders == [] && r.desk.processed == d.processed && r.desk.covered == d.covered
      && if o.id != "" && o.source == "algo" && o.role == "entry" && o.coverTicks > 0.0 && o.tickSize > 0.0 then
           && r.desk.policies.Keys == d.policies.Keys + {o.id}
           && (forall id :: id in d.policies && id != o.id ==> r.desk.policies[id] == d.policies[id])
           && var p := r.desk.policies[o.id];
           && p.market == o.market && p.detail == o.detail && p.coverTicks == o.coverTicks && p.tickSize == o.tickSize
           && p.quantity == AtLeastOneOf(if o.size.Some? then o.size.value else 1.0)
         else r.desk.policies == d.policies
  {
  }

  /** The nearest whole number, but at least one. */
  function AtLeastOneOf(x: real): (n: int)
    ensures n >= 1 && (n > 1 ==> n == C.Rounded(x)) && (C.Rounded(x) >= 1 ==> n == C.Rounded(x))
  {
    if C.Rounded(x) < 1 then 1 else C.Rounded(x)
  }

  /** Without a usable policy the event speaks for itself: its original quantity, else its size, else what it fills. */
  lemma EventSpeaksForItself(policies: map<string, C.Policy>, e: C.FillEvent)
    ensures var p := C.Governing(policies, e);
      && (e.id in policies && policies[e.id].coverTicks > 0.0 && policies[e.id].tickSize > 0.0 ==> p == policies[e.id])
      && (e.id !in policies ==>
            && p.coverTicks == e.coverTicks && p.tickSize == e.tickSize && p.detail == e.detail
            && p.market == (if e.market.Some? then e.market.value else "")
            && p.quantity == AtLeastOneOf(if e.original.Some? then e.original.value
                                          else if e.size.Some? then e.size.value
                                          else AtLeastOneOf(e.quantity) as real))
  {
  }

  /** An event that carries a timestamp is known by it: seen again at any other time, it is not handled again. */
  lemma StampKnowsTheFill(d: C.Desk, e: C.FillEvent, time: string, now: nat, later: nat)
    requires e.stamp.Some?
    ensures var before := C.HandleFill(d, e, now).desk;
      C.HandleFill(before, e.(time := time), later) == C.Handled(before, [])
  {
    assert C.Key(e.(time := time)) == C.Key(e);
    hide C.Key, C.CoverFor, C.Governing, C.Size, C.Usable, C.IsEntry, C.MarketOf, C.Recalled;
  }

  // ---------- rounding ----------

  /** Rounding goes to the nearest integer, and from halfway away from zero. */
  lemma RoundedIsNearest(x: real)
    ensures var n := C.Rounded(x) as real;
      && -0.5 <= n - x <= 0.5
      && (n - x == 0.5 ==> x > 0.0) && (n - x == -0.5 ==> x < 0.0)
  {
  }
}
