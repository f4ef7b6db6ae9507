/**
  Short runs of the gateway's loop in which something goes wrong with a cover
  that the desk itself has sent, and when exactly that happens.
 */
module GatewayRuns {
  import opened Orders
  import opened Numbers
  import opened BookSpec
  import opened BookInvariant
  import opened Levels
  import opened Runs
  import opened ReportLog
  import opened Reach
  import opened Responses
  import opened CoverRuns
  import opened Gateway
  import C = Covers
  import N = Numbering

  // ---------- covers of one response share an id ----------

  /** No event of a response has a timestamp, so all covers of one entry that answer it carry one id. */
  lemma {:induction false} OneReadingOneId(d: C.Desk, steps: seq<C.Step>, now: nat)
    requires forall s :: s in steps && s.Fill? ==> s.event.stamp.None? && s.now == now
    ensures forall o :: o in C.Handle(d, steps).orders ==> o.id == o.parent + "-COVER-" + Decimal(now)
  {
    hide C.Key, C.Governing, C.CoverPrice, C.MarketOf, C.Usable, C.Size, Decimal, C.Reported, C.IsEntry;
    if steps != [] {
      var before, s := C.Init(steps), C.Last(steps);
      assert steps == before + [s];
      OneReadingOneId(d, before, now);
      var last := C.HandleStep(C.Handle(d, before).desk, s);
      forall o | o in last.orders
        ensures o.id == o.parent + "-COVER-" + Decimal(now)
      {
        assert s.Fill?;
      }
    }
  }

  lemma ResponseHasNoStamps(w: Wire, reports: seq<ExecutionReport>, now: nat)
    ensures forall s :: s in AsSteps(ResponseEvents(w, reports), now) && s.Fill? ==> s.event.stamp.None? && s.now == now
  {
    ResponseIsPrinted(w, reports, now);
    hide ResponseEvents;
    var steps := AsSteps(ResponseEvents(w, reports), now);
    forall s | s in steps && s.Fill?
      ensures s.event.stamp.None? && s.now == now
    {
      assert IsPrint(w, reports, s.event);
      var i :| 0 <= i < |reports| && Prints(w, reports[i], s.event);
      var k :| 0 <= k < |steps| && steps[k] == s;
    }
  }

  /** The desk answers one response: all covers of one entry carry one id. */
  lemma OneResponseOneId(w: Wire, s: State, d: C.Desk, r: Request)
    requires WellFormed(s) && r.HandsOver()
    ensures var orders := Answered(w, s, d, r).orders;
      forall a, b :: a in orders && b in orders && a.parent == b.parent ==> a.id == b.id
  {
    hide *;
    var reports := Next(s, r.Posted()).batch.reports;
    PostedNow(r);
    AnsweredByResponse(w, s, d, r);
    ResponseHasNoStamps(w, reports, r.now);
    OneReadingOneId(Shown(d, r), AsSteps(ResponseEvents(w, reports), r.now), r.now);
  }

  /**
    Two covers under one id are posted one after the other: the second is
    refused as a duplicate exactly if the first is still registered, and that is
    if it was registered before or is accepted and the other side cannot fill it.
   */
  lemma SecondCoverIsRefused(p: Reader, s: State, a: C.CoverOrder, b: C.CoverOrder, now: Clock)
    requires WellFormed(s) && a.id == b.id && a.market == b.market
    ensures Sound(s)
    ensures var c, t := CommandOf(p, a), Submit(s, CommandOf(p, a), now).state;
      && (Refusal(t, CommandOf(p, b)) == Some("duplicate_order_id")
        <==> a.market in s.books && a.id != "" && a.id in t.registry)
      && (a.id in t.registry <==>
            || a.id in s.registry
            || (Refusal(s, c).None? && Crossing(OtherSide(s, c), c.side, c.price.ticks) < a.quantity))
  {
    WellFormedIsSound(s);
    var c := CommandOf(p, a);
    SubmitKeepsBooks(s, c, now);
    if Refusal(s, c).None? {
      SubmitRegisters(s, c, now);
      hide Submit, Crossing, WellFormed;
    }
  }

  lemma SubmitKeepsBooks(s: State, c: OrderCommand, now: Clock)
    requires Sound(s)
    ensures Submit(s, c, now).state.books.Keys == s.books.Keys
  {
    if Refusal(s, c).None? {
      MatchKeepsOrder(StartMatch(s, c, now), EffectiveTime(c.time, now));
    }
  }

  // ---------- what the desk answers to a response ----------

  /** Steps whose keys have been seen, or that report no fill, change nothing. */
  lemma {:induction false} SeenStepsAreSilent(d: C.Desk, steps: seq<C.Step>)
    requires forall s :: s in steps ==> s.Fill? && (C.Reported(s.event) ==> C.Key(s.event) in d.processed)
    ensures C.Handle(d, steps) == C.Handled(d, [])
  {
    hide C.Key, C.Reported, C.CoverFor, C.Governing;
    if steps != [] {
      var before, s := C.Init(steps), C.Last(steps);
      assert steps == before + [s];
      assert s in steps;
      SeenStepsAreSilent(d, before);
      assert C.HandleStep(d, s) == C.Handled(d, []);
      assert C.Handle(d, steps).orders == [] + [];
    }
  }

  lemma {:induction false} ProcessedGrows(d: C.Desk, steps: seq<C.Step>)
    ensures d.processed <= C.Handle(d, steps).desk.processed
    ensures forall s :: s in steps && s.Fill? && C.Reported(s.event) ==>
      C.Key(s.event) in C.Handle(d, steps).desk.processed
  {
    hide C.Key, C.Reported, C.IsEntry, C.Governing, C.CoverFor, C.MarketOf, C.Usable, C.Size, C.Remembered, C.PolicyOf;
    if steps != [] {
      assert steps == C.Init(steps) + [C.Last(steps)];
      ProcessedGrows(d, C.Init(steps));
    }
  }

  /** The event packet of a response adds nothing to what its list of reports has made the desk do. */
  lemma PacketIsSilent(w: Wire, d: C.Desk, reports: seq<ExecutionReport>, now: nat)
    ensures C.Handle(d, AsSteps(ResponseEvents(w, reports), now)) == C.Handle(d, AsSteps(Reports(w, reports), now))
  {
    hide ReportEvent, PacketFill, PacketOrder, Packet, C.Handle, C.Key, C.Reported, Prints;
    var listed, packed := Reports(w, reports), Packet(w, reports, false) + Packet(w, reports, true);
    var first, second := AsSteps(listed, now), AsSteps(packed, now);
    assert ResponseEvents(w, reports) == listed + packed;
    assert AsSteps(ResponseEvents(w, reports), now) == first + second;
    C.HandleAppend(d, first, second);
    ProcessedGrows(d, first);
    PacketIs(w, reports, false);
    PacketIs(w, reports, true);
    var h := C.Handle(d, first);
    forall s | s in second
      ensures s.Fill? && (C.Reported(s.event) ==> C.Key(s.event) in h.desk.processed)
    {
      var k :| 0 <= k < |second| && second[k] == s;
      assert s.event == packed[k] && IsPrint(w, reports, packed[k]);
      if C.Reported(s.event) {
        var i :| 0 <= i < |reports| && Prints(w, reports[i], s.event);
        assert first[i] in first && first[i].event == ReportEvent(w, reports[i]);
        PrintedIsReported(w, reports[i], s.event);
      }
    }
    SeenStepsAreSilent(h.desk, second);
    assert h.orders + [] == h.orders;
  }

  lemma PrintedIsReported(w: Wire, r: ExecutionReport, e: C.FillEvent)
    requires Prints(w, r, e) && C.Reported(e)
    ensures C.Reported(ReportEvent(w, r)) && C.Key(ReportEvent(w, r)) == C.Key(e)
  {
    PrintedTwice(w, r, e);
    hide C.Key;
  }

  /** One report after the other. */
  lemma ReportsUnfold(w: Wire, d: C.Desk, r: ExecutionReport, later: seq<ExecutionReport>, now: nat)
    ensures var first := C.HandleFill(d, ReportEvent(w, r), now);
      var second := C.Handle(first.desk, AsSteps(Reports(w, later), now));
      C.Handle(d, AsSteps(Reports(w, [r] + later), now)) == C.Handled(second.desk, first.orders + second.orders)
  {
    hide ReportEvent, C.HandleFill;
    var a, b := [C.Fill(ReportEvent(w, r), now)], AsSteps(Reports(w, later), now);
    assert AsSteps(Reports(w, [r] + later), now) == a + b;
    C.HandleAppend(d, a, b);
    assert C.Init(a) == [] && C.Last(a) == C.Fill(ReportEvent(w, r), now);
    assert C.Handle(d, []) == C.Handled(d, []);
    assert [] + C.HandleFill(d, ReportEvent(w, r), now).orders == C.HandleFill(d, ReportEvent(w, r), now).orders;
  }

  lemma NoFillNoCover(w: Wire, d: C.Desk, r: ExecutionReport, now: nat)
    requires r.fill == 0
    ensures C.HandleFill(d, ReportEvent(w, r), now) == C.Handled(d, [])
  {
  }

  /** The fill of an order that is no entry is noted, and not covered. */
  lemma OtherFillNoCover(w: Wire, d: C.Desk, r: ExecutionReport, now: nat)
    requires w.tags(r.metadata).role != "entry"
    ensures var h := C.HandleFill(d, ReportEvent(w, r), now);
      && h.orders == [] && h.desk.policies == d.policies && h.desk.covered == d.covered
      && h.desk.processed <= d.processed + {C.Key(ReportEvent(w, r))}
  {
    hide C.Key;
  }

  /** A new fill of an entry within its policy is covered by as much. */
  lemma EntryFillIsCovered(w: Wire, d: C.Desk, r: ExecutionReport, now: nat, p: C.Policy)
    requires r.fill > 0 && Fillish(r) && r.id != "" && r.id in d.policies && d.policies[r.id] == p && C.Usable(p)
    requires w.tags(r.metadata).source == "algo" && w.tags(r.metadata).role == "entry"
    requires C.Key(ReportEvent(w, r)) !in d.processed && C.Covered(d, r.id) + r.fill <= p.quantity
    ensures var e := ReportEvent(w, r);
      C.HandleFill(d, e, now) == C.Handled(
        C.Desk(d.policies, d.processed + {C.Key(e)}, d.covered[r.id := C.Covered(d, r.id) + r.fill]),
        [C.CoverFor(e, now, r.symbol, p, r.fill)])
  {
    C.RoundedWhole(r.fill);
    hide C.Key, C.Rounded, C.CoverFor;
    var e := ReportEvent(w, r);
    assert C.Reported(e) && C.IsEntry(e) && C.Size(e) == r.fill;
    assert C.Governing(d.policies, e) == p && C.MarketOf(e, C.Recalled(d.policies, e.id)) == r.symbol;
    hide ReportEvent, C.Reported, C.IsEntry, C.Size, C.Governing, C.MarketOf;
  }

  // ---------- the orders of the two runs ----------

  /** One tick is one point, and an order's tags are the algo's, with the metadata as the role. */
  const PLAIN_WIRE := Wire((symbol: string, ticks: int) => ticks as real,
                           (symbol: string, ticks: int) => Decimal(ticks),
                           (metadata: string) => Tags("algo", metadata, 4.0, 0.25, ""))

  const PLAIN_READER := Reader(
    (symbol: string, price: real) => if MIN_TICKS <= price.Floor <= MAX_TICKS then Ticks(price.Floor) else NotFinite,
    (o: C.CoverOrder) => "cover")

  /** An offer of one contract by somebody else. */
  function Offer(id: string): OrderCommand {
    OrderCommand(id, "ES", Sell, Limit, Day, Ticks(20000), 1, 1000, "")
  }

  /** The algo's entry buys two contracts ten points higher. */
  const ENTRY := OrderCommand("E1", "ES", Buy, Limit, Day, Ticks(20010), 2, 2000, "entry")

  /** Its body, as the desk reads it: cover one point away. */
  const BODY := C.AlgoOrder("E1", "algo", "entry", "ES", "", Some(2.0), 4.0, 0.25)

  ghost predicate BookIs(s: State, bids: seq<Order>, asks: seq<Order>) {
    WellFormed(s) && s.books == map["ES" := Book(bids, asks)]
  }

  lemma Unregistered(s: State, bids: seq<Order>, asks: seq<Order>, id: string)
    requires BookIs(s, bids, asks) && !HasId(bids, id) && !HasId(asks, id)
    ensures id !in s.registry
  {
    WellFormedIsSound(s);
    hide WellFormed, HasId;
  }

  /** An offer that meets no bids rests behind those of its price. */
  lemma OfferRests(s: State, asks: seq<Order>, id: string, now: Clock) returns (o: Order)
    requires BookIs(s, [], asks) && id != "" && !HasId(asks, id) && !HasId([], id)
    requires forall i :: 0 <= i < |asks| ==> asks[i].price == 20000
    ensures BookIs(Next(s, Input(SubmitOrder(Offer(id)), now)).state, [], asks + [o])
    ensures o.id == id && o.price == 20000 && o.remaining == 1 && o.metadata == "" && o.symbol == "ES"
  {
    Unregistered(s, [], asks, id);
    var c := Offer(id);
    SubmitIsNext(s, c, now);
    o := NewOrder(c, 1000, s.sequence + 1);
    var m := StartMatch(s, c, now);
    assert Refusal(s, c).None? && !CanMatch(m);
    BehindItsPrice(Sell, asks, o);
    hide WellFormed, Next;
    assert Submit(s, c, now).state.books == s.books["ES" := Book([], Insert(Sell, asks, o))];
  }

  lemma {:induction false} BehindItsPrice(d: Side, f: seq<Order>, o: Order)
    requires forall i :: 0 <= i < |f| ==> f[i].price == o.price
    ensures Insert(d, f, o) == f + [o]
  {
    if f != [] {
      BehindItsPrice(d, f[1..], o);
    }
  }

  /** The incoming order takes a head of one contract. */
  lemma TakesHead(m: Matching, time: nat)
    requires Tradable(m) && CanMatch(m) && m.resting[0].remaining == 1
    ensures Priced(m.incoming) && Priced(m.resting[0])
    ensures var o, head, next := m.incoming.(remaining := m.incoming.remaining - 1), m.resting[0], MatchStep(m, time);
      && Matched(m, time) == Matched(next, time) && Tradable(next)
      && next.incoming == o && next.resting == m.resting[1..] && next.sequence == m.sequence + 2
      && next.batch.reports == m.batch.reports + [
           FillReport(o, head.id, 1, head.price, time, m.sequence + 1),
           FillReport(head.(remaining := 0), o.id, 1, head.price, time, m.sequence + 2)]
  {
    StepReports(m, time);
    MatchStepShape(m, time);
    MatchUnfolds(m, time);
    assert Live(m.resting[0]);
  }

  /** One contract on offer: the entry buys it, and bids for the other. */
  lemma EntryMeetsOne(s: State, a: Order, now: Clock) returns (reports: seq<ExecutionReport>, o: Order)
    requires BookIs(s, [], [a]) && a.id == "A" && a.price == 20000 && a.remaining == 1 && a.metadata == ""
    ensures var r := Next(s, Input(SubmitOrder(ENTRY), now)); BookIs(r.state, [o], []) && r.batch.reports == reports
    ensures o.id == "E1" && o.price == 20010 && o.remaining == 1
    ensures |reports| == 4 && reports[0].fill == 0 == reports[3].fill && reports[2].metadata == ""
    ensures EntryFill(reports[1])
  {
    Unregistered(s, [], [a], "E1");
    SubmitIsNext(s, ENTRY, now);
    assert Refusal(s, ENTRY).None?;
    var m := StartMatch(s, ENTRY, now);
    TakesHead(m, 2000);
    var next := MatchStep(m, 2000);
    MatchUnfolds(next, 2000);
    hide WellFormed, Next, MatchStep, Matched;
    assert !CanMatch(next);
    o := next.incoming;
    reports := Submit(s, ENTRY, now).batch.reports;
    assert Insert(Buy, [], o) == [o];
    assert Submit(s, ENTRY, now).state.books == s.books["ES" := Book([o], [])];
  }

  /** The report is a fill of one contract of the entry at 20000. */
  predicate EntryFill(r: ExecutionReport) {
    && r.id == "E1" && r.symbol == "ES" && r.side.Buy? && r.fill == 1 && r.execution == 20000 && r.metadata == "entry"
    && Fillish(r)
  }

  /** Two contracts on offer by two orders: the entry buys both. */
  lemma EntryMeetsTwo(s: State, a: Order, b: Order, now: Clock) returns (reports: seq<ExecutionReport>)
    requires BookIs(s, [], [a, b]) && a.id == "A" && b.id == "B" && a.price == b.price == 20000
    requires a.remaining == b.remaining == 1 && a.metadata == b.metadata == ""
    ensures var r := Next(s, Input(SubmitOrder(ENTRY), now)); BookIs(r.state, [], []) && r.batch.reports == reports
    ensures |reports| == 5 && reports[0].fill == 0 && reports[2].metadata == reports[4].metadata == ""
    ensures EntryFill(reports[1]) && EntryFill(reports[3])
    ensures reports[1].sequence != reports[3].sequence && reports[2].sequence != reports[3].sequence
  {
    Unregistered(s, [], [a, b], "E1");
    SubmitIsNext(s, ENTRY, now);
    assert Refusal(s, ENTRY).None?;
    var m := StartMatch(s, ENTRY, now);
    TakesHead(m, 2000);
    var next := MatchStep(m, 2000);
    TakesHead(next, 2000);
    var last := MatchStep(next, 2000);
    MatchUnfolds(last, 2000);
    hide WellFormed, Next, MatchStep, Matched;
    assert !CanMatch(last) && last.resting == [];
    reports := Submit(s, ENTRY, now).batch.reports;
    assert Submit(s, ENTRY, now).state.books == s.books["ES" := Book([], [])];
  }

  // ---------- the desk's answers ----------

  lemma PlainWireHasNoBars()
    ensures NoBars(PLAIN_WIRE)
  {
    forall symbol: string, ticks: int
      ensures '|' !in PLAIN_WIRE.priceText(symbol, ticks)
    {
      DecimalHasNoBar(ticks);
    }
  }

  /** The desk as it is before it hears of the entry's fills. */
  const SHOWN_DESK := C.Desk(map["E1" := C.PolicyOf(BODY)], {}, map[])

  lemma BodyIsRemembered()
    ensures C.HandleStep(C.FRESH_DESK, C.Remember(BODY)) == C.Handled(SHOWN_DESK, [])
    ensures var p := C.PolicyOf(BODY); C.Usable(p) && p.quantity == 2 && p.coverTicks == 4.0 && p.tickSize == 0.25
  {
    C.RoundedWhole(2);
    assert 2 as real == 2.0;
    hide C.Rounded;
  }

  /** A cover of one contract: an offer one point above the fill. */
  predicate OnePointUp(o: C.CoverOrder, now: nat) {
    && o.id == "E1-COVER-" + Decimal(now) && o.parent == "E1" && o.market == "ES" && o.side == "offer"
    && o.price == 20001.0 && o.quantity == 1
  }

  /** The desk answers a fill of the entry that it has not seen, as long as one more contract is within the policy. */
  lemma EntryFillAnswered(d: C.Desk, r: ExecutionReport, now: nat)
    requires EntryFill(r) && d.policies == SHOWN_DESK.policies && C.Covered(d, "E1") <= 1
    requires C.Key(ReportEvent(PLAIN_WIRE, r)) !in d.processed
    ensures var h := C.HandleFill(d, ReportEvent(PLAIN_WIRE, r), now);
      && |h.orders| == 1 && OnePointUp(h.orders[0], now)
      && h.desk.policies == d.policies && C.Covered(h.desk, "E1") == C.Covered(d, "E1") + 1
      && h.desk.processed == d.processed + {C.Key(ReportEvent(PLAIN_WIRE, r))}
  {
    BodyIsRemembered();
    var p := C.PolicyOf(BODY);
    hide C.PolicyOf, C.Key;
    EntryFillIsCovered(PLAIN_WIRE, d, r, now, p);
    C.CoverIsTicksAway(true, 80000, p, 4);
    assert 4 as real == 4.0 && C.OnGrid(80000, 0.25) == 20000.0 && C.OnGrid(80004, 0.25) == 20001.0;
    hide C.HandleFill, C.CoverPrice, C.OnGrid, Decimal;
  }

  /** A partial fill of one contract: one cover. */
  lemma OneFillAnswered(reports: seq<ExecutionReport>, now: nat)
    requires |reports| == 4 && reports[0].fill == 0 == reports[3].fill && reports[2].metadata == ""
      && EntryFill(reports[1])
    ensures var h := C.Handle(SHOWN_DESK, AsSteps(ResponseEvents(PLAIN_WIRE, reports), now));
      |h.orders| == 1 && OnePointUp(h.orders[0], now)
  {
    hide C.HandleFill, C.Key, C.PolicyOf, ReportEvent, ResponseEvents, EntryFill, OnePointUp, C.Handle;
    var w := PLAIN_WIRE;
    PacketIsSilent(w, SHOWN_DESK, reports, now);
    assert reports == [reports[0]] + ([reports[1]] + ([reports[2]] + ([reports[3]] + [])));
    ReportsUnfold(w, SHOWN_DESK, reports[0], [reports[1]] + ([reports[2]] + ([reports[3]] + [])), now);
    NoFillNoCover(w, SHOWN_DESK, reports[0], now);
    ReportsUnfold(w, SHOWN_DESK, reports[1], [reports[2]] + ([reports[3]] + []), now);
    EntryFillAnswered(SHOWN_DESK, reports[1], now);
    var d := C.HandleFill(SHOWN_DESK, ReportEvent(w, reports[1]), now).desk;
    ReportsUnfold(w, d, reports[2], [reports[3]] + [], now);
    OtherFillNoCover(w, d, reports[2], now);
    var e := C.HandleFill(d, ReportEvent(w, reports[2]), now).desk;
    ReportsUnfold(w, e, reports[3], [], now);
    NoFillNoCover(w, e, reports[3], now);
    NoReports(w, e, now);
  }

  lemma NoReports(w: Wire, d: C.Desk, now: nat)
    ensures C.Handle(d, AsSteps(Reports(w, []), now)) == C.Handled(d, [])
  {
  }

  /** Two fills of one contract each: two covers under one id. */
  lemma TwoFillsAnswered(reports: seq<ExecutionReport>, now: nat)
    requires |reports| == 5 && reports[0].fill == 0 && reports[2].metadata == reports[4].metadata == ""
    requires EntryFill(reports[1]) && EntryFill(reports[3]) && reports[1].sequence != reports[3].sequence
    requires reports[2].sequence != reports[3].sequence
    ensures var h := C.Handle(SHOWN_DESK, AsSteps(ResponseEvents(PLAIN_WIRE, reports), now));
      |h.orders| == 2 && OnePointUp(h.orders[0], now) && OnePointUp(h.orders[1], now)
  {
    hide C.HandleFill, C.Key, C.PolicyOf, ReportEvent, ResponseEvents, EntryFill, OnePointUp, C.Handle;
    var w := PLAIN_WIRE;
    PacketIsSilent(w, SHOWN_DESK, reports, now);
    assert reports == [reports[0]] + ([reports[1]] + ([reports[2]] + ([reports[3]] + ([reports[4]] + []))));
    ReportsUnfold(w, SHOWN_DESK, reports[0], [reports[1]] + ([reports[2]] + ([reports[3]] + ([reports[4]] + []))), now);
    NoFillNoCover(w, SHOWN_DESK, reports[0], now);
    ReportsUnfold(w, SHOWN_DESK, reports[1], [reports[2]] + ([reports[3]] + ([reports[4]] + [])), now);
    EntryFillAnswered(SHOWN_DESK, reports[1], now);
    var d := C.HandleFill(SHOWN_DESK, ReportEvent(w, reports[1]), now).desk;
    ReportsUnfold(w, d, reports[2], [reports[3]] + ([reports[4]] + []), now);
    OtherFillNoCover(w, d, reports[2], now);
    var e := C.HandleFill(d, ReportEvent(w, reports[2]), now).desk;
    ReportsUnfold(w, e, reports[3], [reports[4]] + [], now);
    DifferentKeys(reports[1], reports[3]);
    DifferentKeys(reports[2], reports[3]);
    EntryFillAnswered(e, reports[3], now);
    var f := C.HandleFill(e, ReportEvent(w, reports[3]), now).desk;
    ReportsUnfold(w, f, reports[4], [], now);
    OtherFillNoCover(w, f, reports[4], now);
    NoReports(w, C.HandleFill(f, ReportEvent(w, reports[4]), now).desk, now);
  }

  lemma DifferentKeys(r: ExecutionReport, q: ExecutionReport)
    requires r.sequence != q.sequence
    ensures C.Key(ReportEvent(PLAIN_WIRE, r)) != C.Key(ReportEvent(PLAIN_WIRE, q))
  {
    PlainWireHasNoBars();
    hide C.Key, ReportEvent;
    if C.Key(ReportEvent(PLAIN_WIRE, r)) == C.Key(ReportEvent(PLAIN_WIRE, q)) {
      KeyNamesReport(PLAIN_WIRE, r, q);
    }
  }

  // ---------- the two runs ----------

  /** What is posted past the gateway is posted, and nothing else comes of it. */
  lemma TraceDirect(w: Wire, p: Reader, s: State, d: C.Desk, i: Input, later: seq<Request>)
    requires WellFormed(s)
    ensures Trace(w, p, s, d, [Direct(i)] + later) == [Direct(i)] + Trace(w, p, Next(s, i).state, d, later)
    ensures Documents(w, s, [Direct(i)] + Trace(w, p, Next(s, i).state, d, later))
      == Documents(w, Next(s, i).state, Trace(w, p, Next(s, i).state, d, later))
  {
    hide *;
    var r, calls := Direct(i), [Direct(i)] + later;
    assert calls[0] == r && calls[1..] == later;
    var trace := Trace(w, p, Next(s, i).state, d, later);
    DirectIsServed(w, p, s, d, i);
    NothingShown(w, r, Next(s, i).batch.reports);
    DocumentsUnfold(w, s, r, trace);
    assert [] + Documents(w, Next(s, i).state, trace) == Documents(w, Next(s, i).state, trace);
    TraceUnfolds(w, p, s, d, calls);
  }

  lemma DirectIsServed(w: Wire, p: Reader, s: State, d: C.Desk, i: Input)
    requires WellFormed(s)
    ensures Served(w, p, s, d, Direct(i)) == [Direct(i)] && Answered(w, s, d, Direct(i)).desk == d
    ensures Run(s, Inputs([Direct(i)])).state == Next(s, i).state && Direct(i).Posted() == i
  {
    hide WellFormed, Next, StepsOf;
    var r := Direct(i);
    NothingShown(w, r, Next(s, r.Posted()).batch.reports);
    assert Answered(w, s, d, r) == C.Handled(d, []);
    assert [r] + [] == [r];
    DocumentsUnfold(w, s, r, []);
    NoDocuments(w, Next(s, i).state);
  }

  lemma NothingShown(w: Wire, r: Request, reports: seq<ExecutionReport>)
    requires r.Direct?
    ensures StepsOf(w, r, reports) == []
  {
  }

  /** The last call: it and what the gateway posts in answer to it. */
  lemma TraceLast(w: Wire, p: Reader, s: State, d: C.Desk, r: Request)
    requires WellFormed(s)
    ensures var own := Posts(p, Answered(w, s, d, r).orders, r.Posted().now);
      Trace(w, p, s, d, [r]) == [r] + own
    ensures C.Handle(d, Documents(w, s, Trace(w, p, s, d, [r]))) == Answered(w, s, d, r)
  {
    hide *;
    TraceUnfolds(w, p, s, d, [r]);
    ServedIs(w, p, s, d, r);
    AnsweredIs(w, s, d, r);
    ServedDocuments(w, p, s, d, r);
    var served := Served(w, p, s, d, r);
    NoCalls(w, p, Run(s, Inputs(served)).state, Answered(w, s, d, r).desk);
    assert [r][0] == r && [r][1..] == [] && served + [] == served;
  }

  lemma NoCalls(w: Wire, p: Reader, s: State, d: C.Desk)
    requires WellFormed(s)
    ensures Trace(w, p, s, d, []) == []
  {
  }

  lemma HeardUnfolds(s: State, r: Request, later: seq<Request>, heard: bool, id: string)
    requires WellFormed(s)
    ensures FilledQuantity(Heard(s, [r] + later, heard), id)
      == (if r.HandsOver() == heard then FilledQuantity(Next(s, r.Posted()).batch.reports, id) else 0)
         + FilledQuantity(Heard(Next(s, r.Posted()).state, later, heard), id)
  {
    var o := Next(s, r.Posted());
    assert ([r] + later)[0] == r && ([r] + later)[1..] == later;
    FilledAppend(if r.HandsOver() == heard then o.batch.reports else [], Heard(o.state, later, heard), id);
    hide WellFormed, Next, FilledQuantity;
  }

  lemma EmptyBook()
    ensures BookIs(Fresh({"ES"}), [], [])
  {
    FreshOk({"ES"});
  }

  /** The entry, forwarded in a state with offers at its reach. */
  lemma EntryAnswered(s: State, now: Clock)
    requires WellFormed(s)
    ensures var r := Forwarded(BODY, ENTRY, now);
      Answered(PLAIN_WIRE, s, C.FRESH_DESK, r)
      == C.Handle(SHOWN_DESK, AsSteps(ResponseEvents(PLAIN_WIRE, Next(s, r.Posted()).batch.reports), now))
  {
    hide WellFormed, Next, ResponseEvents, C.Handle, C.PolicyOf, C.Remembered;
    BodyIsRemembered();
    AnsweredByResponse(PLAIN_WIRE, s, C.FRESH_DESK, Forwarded(BODY, ENTRY, now));
  }

  /** The cover is read as a limit order to sell one contract at 20001. */
  lemma CoverCommand(o: C.CoverOrder, now: Clock)
    requires OnePointUp(o, now)
    ensures CommandOf(PLAIN_READER, o)
      == OrderCommand("E1-COVER-" + Decimal(now), "ES", Sell, Limit, Day, Ticks(20001), 1, 0, "cover")
    ensures |"E1-COVER-" + Decimal(now)| > 2
  {
    hide Decimal;
    assert 20001.0.Floor == 20001;
  }

  /** What the desk makes of an entry whose fills it answers with these covers, is posted behind it. */
  lemma EntryTrace(s: State, reports: seq<ExecutionReport>, now: Clock) returns (orders: seq<C.CoverOrder>)
    requires WellFormed(s) && Next(s, Input(SubmitOrder(ENTRY), now)).batch.reports == reports
    ensures orders == C.Handle(SHOWN_DESK, AsSteps(ResponseEvents(PLAIN_WIRE, reports), now)).orders
    ensures var entry := Forwarded(BODY, ENTRY, now);
      var trace := Trace(PLAIN_WIRE, PLAIN_READER, s, C.FRESH_DESK, [entry]);
      && trace == [entry] + Posts(PLAIN_READER, orders, now)
      && C.Handle(C.FRESH_DESK, Documents(PLAIN_WIRE, s, trace)).orders == orders
  {
    hide WellFormed, Next, Trace, Answered, Documents, ResponseEvents, StepsOf, C.Handle, CommandOf, C.PolicyOf;
    var entry := Forwarded(BODY, ENTRY, now);
    TraceLast(PLAIN_WIRE, PLAIN_READER, s, C.FRESH_DESK, entry);
    EntryAnswered(s, now);
    orders := Answered(PLAIN_WIRE, s, C.FRESH_DESK, entry).orders;
  }

  /** Fills of the entry by each of the commands of these runs. */
  lemma OfferFillsNothing(s: State, asks: seq<Order>, id: string, now: Clock)
    requires BookIs(s, [], asks) && id != "" && id != "E1" && !HasId(asks, id) && !HasId([], id)
    ensures FilledQuantity(Next(s, Input(SubmitOrder(Offer(id)), now)).batch.reports, "E1") == 0
  {
    Unregistered(s, [], asks, id);
    SubmitIsNext(s, Offer(id), now);
    hide WellFormed, Next, Submit, FilledQuantity;
    SubmitFills(s, Offer(id), now, "E1");
  }

  lemma EntryFills(s: State, asks: seq<Order>, now: Clock)
    requires BookIs(s, [], asks) && !HasId(asks, "E1") && !HasId([], "E1")
    requires forall i :: 0 <= i < |asks| ==> asks[i].price == 20000 && asks[i].remaining == 1
    ensures FilledQuantity(Next(s, Input(SubmitOrder(ENTRY), now)).batch.reports, "E1") == Min(2, |asks|)
  {
    Unregistered(s, [], asks, "E1");
    SubmitIsNext(s, ENTRY, now);
    SumOfOnes(asks);
    hide WellFormed, Next, Submit, FilledQuantity, Crossing;
    SubmitFills(s, ENTRY, now, "E1");
  }

  lemma {:induction false} SumOfOnes(asks: seq<Order>)
    requires forall i :: 0 <= i < |asks| ==> asks[i].price == 20000 && asks[i].remaining == 1
    ensures Crossing(asks, Buy, 20010) == |asks|
  {
    if asks != [] {
      SumOfOnes(asks[1..]);
    }
  }

  lemma CoverFills(s: State, o: Order, c: OrderCommand, now: Clock)
    requires BookIs(s, [o], []) && o.id == "E1" && o.price == 20010 && o.remaining == 1
    requires c == OrderCommand(c.id, "ES", Sell, Limit, Day, Ticks(20001), 1, 0, "cover") && |c.id| > 2
    ensures FilledQuantity(Next(s, Input(SubmitOrder(c), now)).batch.reports, "E1") == 1
  {
    assert |"E1"| == 2;
    assert !HasId([o], c.id) && !HasId([], c.id);
    Unregistered(s, [o], [], c.id);
    SubmitIsNext(s, c, now);
    hide WellFormed, Next, Submit, FilledQuantity;
    SubmitFills(s, c, now, "E1");
    assert [o][..0] == [] && OtherSide(s, c)[0] == o;
  }

  lemma OneCover(o: C.CoverOrder)
    ensures C.CoverQuantity([o], o.parent) == o.quantity
  {
    assert C.Init([o]) == [];
  }

  /**
    One contract is on offer, and the entry buys two: it gets one and bids for
    the other. The cover that the desk sends meets that bid: two contracts of
    the entry are filled, the desk hears of one, and covers one.
   */
  lemma CoverMeetsItsEntry() returns (requests: seq<Request>)
    ensures WellFormed(Fresh({"ES"}))
    ensures requests == Trace(PLAIN_WIRE, PLAIN_READER, Fresh({"ES"}), C.FRESH_DESK,
                              [Direct(Input(SubmitOrder(Offer("A")), 1)), Forwarded(BODY, ENTRY, 1)])
    ensures |requests| == 3 && requests[2].Own? && requests[2].order.side == Sell
      && requests[2].order.price == Ticks(20001)
    ensures FilledQuantity(Heard(Fresh({"ES"}), requests, true), "E1") == 1
    ensures FilledQuantity(Heard(Fresh({"ES"}), requests, false), "E1") == 1
    ensures C.CoverQuantity(C.Handle(C.FRESH_DESK, Documents(PLAIN_WIRE, Fresh({"ES"}), requests)).orders, "E1") == 1
  {
    hide WellFormed, Next, Trace, Documents, Heard, FilledQuantity, ResponseEvents, C.Handle, C.CoverQuantity,
      CommandOf;
    hide Fresh, BookIs, Decimal, C.PolicyOf, EntryFill;
    var s0, w, p, d := Fresh({"ES"}), PLAIN_WIRE, PLAIN_READER, C.FRESH_DESK;
    var offer, entry := Direct(Input(SubmitOrder(Offer("A")), 1)), Forwarded(BODY, ENTRY, 1);
    EmptyBook();
    BookIsOk(s0, [], []);
    var a := OfferRests(s0, [], "A", 1);
    assert [] + [a] == [a];
    var s1 := Next(s0, offer.input).state;
    BookIsOk(s1, [], [a]);
    var reports, o := EntryMeetsOne(s1, a, 1);
    OneFillAnswered(reports, 1);
    var orders := EntryTrace(s1, reports, 1);
    TraceDirect(w, p, s0, d, offer.input, [entry]);
    assert [Direct(offer.input)] + [entry] == [offer, entry];
    CoverCommand(orders[0], 1);
    OneCover(orders[0]);
    var own := Own(CommandOf(p, orders[0]), 1);
    assert orders == [orders[0]] && Posts(p, orders, 1) == [own] + [];
    requests := [offer] + ([entry] + ([own] + []));
    OfferFillsNothing(s0, [], "A", 1);
    assert [a][0] == a && !HasId([a], "E1");
    EntryFills(s1, [a], 1);
    var s2 := Next(s1, entry.Posted()).state;
    CoverFills(s2, o, own.order, 1);
    var s3 := Next(s2, own.Posted()).state;
    forall heard: bool
      ensures FilledQuantity(Heard(s0, requests, heard), "E1") == 1
    {
      HeardUnfolds(s0, offer, [entry] + ([own] + []), heard, "E1");
      HeardUnfolds(s1, entry, [own] + [], heard, "E1");
      HeardUnfolds(s2, own, [], heard, "E1");
      NothingHeard(s3, heard, "E1");
    }
  }

  lemma BookIsOk(s: State, bids: seq<Order>, asks: seq<Order>)
    requires BookIs(s, bids, asks)
    ensures WellFormed(s)
  {
  }

  lemma NothingHeard(s: State, heard: bool, id: string)
    requires WellFormed(s)
    ensures FilledQuantity(Heard(s, [], heard), id) == 0
  {
  }

  /**
    Two contracts are on offer by two orders, and the entry buys both. The desk
    answers the one response with two covers under one id: the first rests, the
    second is refused.
   */
  lemma SecondCoverIsLost() returns (requests: seq<Request>, s: State)
    ensures WellFormed(Fresh({"ES"})) && WellFormed(s)
    ensures requests == Trace(PLAIN_WIRE, PLAIN_READER, Fresh({"ES"}), C.FRESH_DESK,
                              [Direct(Input(SubmitOrder(Offer("A")), 1)), Direct(Input(SubmitOrder(Offer("B")), 1)),
                               Forwarded(BODY, ENTRY, 1)])
    ensures |requests| == 5 && requests[3].Own? && requests[4].Own? && requests[3].order.id == requests[4].order.id
    ensures s == Run(Fresh({"ES"}), Inputs(requests[..4])).state
    ensures Refusal(s, requests[4].order) == Some("duplicate_order_id")
  {
    hide WellFormed, Next, Trace, Documents, Heard, FilledQuantity, ResponseEvents, C.Handle, C.CoverQuantity,
      CommandOf;
    hide Fresh, BookIs, Decimal, C.PolicyOf, EntryFill, Run;
    var s0, w, p, d := Fresh({"ES"}), PLAIN_WIRE, PLAIN_READER, C.FRESH_DESK;
    var first, second := Direct(Input(SubmitOrder(Offer("A")), 1)), Direct(Input(SubmitOrder(Offer("B")), 1));
    var entry := Forwarded(BODY, ENTRY, 1);
    EmptyBook();
    BookIsOk(s0, [], []);
    var a := OfferRests(s0, [], "A", 1);
    assert [] + [a] == [a];
    var s1 := Next(s0, first.input).state;
    BookIsOk(s1, [], [a]);
    var b := OfferRests(s1, [a], "B", 1);
    assert [a] + [b] == [a, b];
    var s2 := Next(s1, second.input).state;
    BookIsOk(s2, [], [a, b]);
    var reports := EntryMeetsTwo(s2, a, b, 1);
    TwoFillsAnswered(reports, 1);
    var orders := EntryTrace(s2, reports, 1);
    TraceDirect(w, p, s0, d, first.input, [second, entry]);
    TraceDirect(w, p, s1, d, second.input, [entry]);
    assert [first] + [second, entry] == [first, second, entry] && [second] + [entry] == [second, entry];
    CoverCommand(orders[0], 1);
    CoverCommand(orders[1], 1);
    var own, other := Own(CommandOf(p, orders[0]), 1), Own(CommandOf(p, orders[1]), 1);
    assert Posts(p, orders, 1) == [own, other];
    requests := [first] + ([second] + ([entry] + [own, other]));
    var s3 := Next(s2, entry.Posted()).state;
    BookIsOk(s3, [], []);
    s := Next(s3, own.Posted()).state;
    FirstCoverRests(s3, orders[0], orders[1]);
    assert requests[..4] == [first] + ([second] + ([entry] + ([own] + [])));
    AfterFour(s0, first, second, entry, own);
  }

  lemma AfterFour(s: State, a: Request, b: Request, c: Request, d: Request)
    requires WellFormed(s)
    ensures var s1 := Next(s, a.Posted()).state; var s2 := Next(s1, b.Posted()).state;
      var s3 := Next(s2, c.Posted()).state;
      Run(s, Inputs([a] + ([b] + ([c] + ([d] + []))))).state == Next(s3, d.Posted()).state
  {
    hide *;
    var s1 := Next(s, a.Posted()).state;
    var s2 := Next(s1, b.Posted()).state;
    var s3 := Next(s2, c.Posted()).state;
    DocumentsUnfold(PLAIN_WIRE, s, a, [b] + ([c] + ([d] + [])));
    DocumentsUnfold(PLAIN_WIRE, s1, b, [c] + ([d] + []));
    DocumentsUnfold(PLAIN_WIRE, s2, c, [d] + []);
    DocumentsUnfold(PLAIN_WIRE, s3, d, []);
    NoDocuments(PLAIN_WIRE, Next(s3, d.Posted()).state);
  }

  lemma FirstCoverRests(s: State, a: C.CoverOrder, b: C.CoverOrder)
    requires BookIs(s, [], []) && OnePointUp(a, 1) && OnePointUp(b, 1)
    ensures Refusal(Next(s, Own(CommandOf(PLAIN_READER, a), 1).Posted()).state, CommandOf(PLAIN_READER, b))
      == Some("duplicate_order_id")
  {
    CoverCommand(a, 1);
    var c := CommandOf(PLAIN_READER, a);
    assert !HasId([], c.id);
    Unregistered(s, [], [], c.id);
    SubmitIsNext(s, c, 1);
    SecondCoverIsRefused(PLAIN_READER, s, a, b, 1);
    assert Crossing([], Sell, 20001) == 0;
    hide WellFormed, Next, Submit, CommandOf, Decimal;
  }
}
