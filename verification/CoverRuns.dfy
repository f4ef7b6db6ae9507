/**
  The covering desk beside the exchange: over a whole run whose responses
  reach the desk, every contract of an entry that fills is covered once.
 */
module CoverRuns {
  import opened Orders
  import opened BookSpec
  import opened BookInvariant
  import opened Runs
  import opened ReportLog
  import opened Responses
  import opened Reach
  import C = Covers
  import N = Numbering

  /**
    What is posted to the exchange. An order that the gateway forwards is shown
    to the desk before it is posted, and its response afterwards; so is the
    response to market data that the gateway publishes. The responses to the
    cover orders that the gateway posts of its own, to cancels, and to whatever
    reaches the exchange directly, the desk never sees.
   */
  datatype Request =
    | Forwarded(body: C.AlgoOrder, order: OrderCommand, now: Clock)
    | Published(tick: MarketDataTick, now: Clock)
    | Own(order: OrderCommand, now: Clock)
    | Direct(input: Input)
  {
    function Posted(): Input {
      match this
      case Forwarded(_, c, t) => Input(SubmitOrder(c), t)
      case Published(tick, t) => Input(MarketData(tick), t)
      case Own(c, t) => Input(SubmitOrder(c), t)
      case Direct(i) => i
    }

    predicate HandsOver() {
      Forwarded? || Published?
    }
  }

  function Inputs(requests: seq<Request>): seq<Input> {
    seq(|requests|, i requires 0 <= i < |requests| => requests[i].Posted())
  }

  function AsSteps(events: seq<C.FillEvent>, now: nat): seq<C.Step> {
    seq(|events|, i requires 0 <= i < |events| => C.Fill(events[i], now))
  }

  /** What the desk gets to see of one request, answered by these reports. */
  function StepsOf(w: Wire, r: Request, reports: seq<ExecutionReport>): seq<C.Step> {
    (if r.Forwarded? then [C.Remember(r.body)] else [])
    + (if r.HandsOver() then AsSteps(ResponseEvents(w, reports), r.now) else [])
  }

  /** What the desk gets to see over a run. */
  function Documents(w: Wire, s: State, requests: seq<Request>): seq<C.Step>
    requires WellFormed(s)
    decreases |requests|
  {
    if requests == [] then []
    else
      var o := Next(s, requests[0].Posted());
      StepsOf(w, requests[0], o.batch.reports) + Documents(w, o.state, requests[1..])
  }

  /** The reports of a run that reach the desk, or those that do not. */
  function Heard(s: State, requests: seq<Request>, heard: bool): seq<ExecutionReport>
    requires WellFormed(s)
    decreases |requests|
  {
    if requests == [] then []
    else
      var o := Next(s, requests[0].Posted());
      (if requests[0].HandsOver() == heard then o.batch.reports else []) + Heard(o.state, requests[1..], heard)
  }

  /** No request of a run that is heard, or none that is not, reaches the order. */
  predicate NoneReaches(s: State, requests: seq<Request>, heard: bool, id: string)
    requires WellFormed(s)
    decreases |requests|
  {
    requests == []
    || (&& (requests[0].HandsOver() == heard ==> !Reaches(s, requests[0].Posted(), id))
        && NoneReaches(Next(s, requests[0].Posted()).state, requests[1..], heard, id))
  }

  /** What the desk sees beside fills are the bodies of forwarded orders. */
  ghost predicate RemembersFrom(steps: seq<C.Step>, requests: seq<Request>) {
    forall s :: s in steps && s.Remember? ==>
      exists i :: 0 <= i < |requests| && requests[i].Forwarded? && requests[i].body == s.order
  }

  // ---------- one response tells all its fills ----------

  lemma {:induction false} PacketIs(w: Wire, reports: seq<ExecutionReport>, filled: bool)
    ensures forall e :: e in Packet(w, reports, filled) ==> IsPrint(w, reports, e)
  {
    hide ReportEvent, PacketFill, PacketOrder;
    if reports != [] {
      var n := |reports| - 1;
      PacketIs(w, reports[..n], filled);
      forall e | e in Packet(w, reports, filled)
        ensures IsPrint(w, reports, e)
      {
        if e in Packet(w, reports[..n], filled) {
          var i :| 0 <= i < n && Prints(w, reports[..n][i], e);
          assert Prints(w, reports[i], e);
        } else {
          assert Prints(w, reports[n], e);
        }
      }
    }
  }

  lemma ResponseIsPrinted(w: Wire, reports: seq<ExecutionReport>, now: nat)
    ensures PrintedFrom(w, reports, AsSteps(ResponseEvents(w, reports), now))
    ensures forall s :: s in AsSteps(ResponseEvents(w, reports), now) ==> s.Fill?
  {
    var events := ResponseEvents(w, reports);
    PacketIs(w, reports, false);
    PacketIs(w, reports, true);
    hide ReportEvent, PacketFill, PacketOrder, Packet;
    forall e | e in events
      ensures IsPrint(w, reports, e)
    {
      if e in Reports(w, reports) {
        var i :| 0 <= i < |reports| && Reports(w, reports)[i] == e;
        assert Prints(w, reports[i], e);
      }
    }
    hide ResponseEvents, IsPrint;
    forall s | s in AsSteps(events, now)
      ensures s.Fill? && s.event in events
    {
      var i :| 0 <= i < |events| && AsSteps(events, now)[i] == s;
    }
  }

  lemma ResponseTells(w: Wire, reports: seq<ExecutionReport>, now: nat, id: string)
    ensures TellsAll(w, reports, AsSteps(ResponseEvents(w, reports), now), id)
  {
    hide ReportEvent, Packet;
    var steps := AsSteps(ResponseEvents(w, reports), now);
    forall i | 0 <= i < |reports|
      ensures Tells(w, reports[i], steps)
    {
      assert steps[i] == C.Fill(ReportEvent(w, reports[i]), now);
    }
  }

  // ---------- longer logs, longer histories ----------

  lemma PrintsBoth(w: Wire, a: seq<ExecutionReport>, b: seq<ExecutionReport>, x: seq<C.Step>, y: seq<C.Step>)
    requires PrintedFrom(w, a, x) && PrintedFrom(w, b, y)
    ensures PrintedFrom(w, a + b, x + y)
  {
    hide Prints;
    forall s | s in x + y && s.Fill?
      ensures IsPrint(w, a + b, s.event)
    {
      if s in x {
        assert IsPrint(w, a, s.event);
        var i :| 0 <= i < |a| && Prints(w, a[i], s.event);
        assert Prints(w, (a + b)[i], s.event);
      } else {
        assert s in y && IsPrint(w, b, s.event);
        var i :| 0 <= i < |b| && Prints(w, b[i], s.event);
        assert Prints(w, (a + b)[|a| + i], s.event);
      }
    }
  }

  lemma TellsBoth(w: Wire, a: seq<ExecutionReport>, b: seq<ExecutionReport>, x: seq<C.Step>, y: seq<C.Step>, id: string)
    requires TellsAll(w, a, x, id) && TellsAll(w, b, y, id)
    ensures TellsAll(w, a + b, x + y, id)
  {
    hide ReportEvent, PacketFill;
    forall i | 0 <= i < |a + b| && (a + b)[i].id == id && (a + b)[i].fill > 0
      ensures Tells(w, (a + b)[i], x + y)
    {
      var r := (a + b)[i];
      if i < |a| {
        assert Tells(w, a[i], x);
        var k :| 0 <= k < |x| && x[k].Fill? && (x[k].event == ReportEvent(w, r) || x[k].event == PacketFill(w, r));
        assert (x + y)[k] == x[k];
      } else {
        assert Tells(w, b[i - |a|], y);
        var k :| 0 <= k < |y| && y[k].Fill? && (y[k].event == ReportEvent(w, r) || y[k].event == PacketFill(w, r));
        assert (x + y)[|x| + k] == y[k];
      }
    }
  }

  // ---------- a run ----------

  /** One request: what is heard of it is printed, and every fill in it is told. */
  lemma RequestTells(w: Wire, r: Request, reports: seq<ExecutionReport>, id: string)
    ensures var log, steps := if r.HandsOver() then reports else [], StepsOf(w, r, reports);
      PrintedFrom(w, log, steps) && TellsAll(w, log, steps, id) && RemembersFrom(steps, [r])
  {
    hide ResponseEvents, IsPrint, Tells;
    var log, steps := if r.HandsOver() then reports else [], StepsOf(w, r, reports);
    assert [r][0] == r;
    if r.HandsOver() {
      var first: seq<C.Step> := if r.Forwarded? then [C.Remember(r.body)] else [];
      var told := AsSteps(ResponseEvents(w, reports), r.now);
      ResponseIsPrinted(w, reports, r.now);
      ResponseTells(w, reports, r.now, id);
      assert steps == first + told && reports == [] + reports;
      PrintsBoth(w, [], reports, first, told);
      TellsBoth(w, [], reports, first, told, id);
    }
  }

  /** The documents print what is heard of the run, and tell every fill in it. */
  lemma {:induction false} DocumentsTell(w: Wire, s: State, requests: seq<Request>, id: string)
    requires WellFormed(s)
    ensures var log, steps := Heard(s, requests, true), Documents(w, s, requests);
      PrintedFrom(w, log, steps) && TellsAll(w, log, steps, id) && RemembersFrom(steps, requests)
    decreases |requests|
  {
    if requests != [] {
      var o, r := Next(s, requests[0].Posted()), requests[0];
      DocumentsTell(w, o.state, requests[1..], id);
      RequestTells(w, r, o.batch.reports, id);
      hide WellFormed, PrintedFrom, TellsAll, StepsOf, Next;
      var log, docs := Heard(o.state, requests[1..], true), Documents(w, o.state, requests[1..]);
      var now := if r.HandsOver() then o.batch.reports else [];
      PrintsBoth(w, now, log, StepsOf(w, r, o.batch.reports), docs);
      TellsBoth(w, now, log, StepsOf(w, r, o.batch.reports), docs, id);
      RemembersBoth(StepsOf(w, r, o.batch.reports), docs, r, requests[1..]);
      assert [r] + requests[1..] == requests;
    }
  }

  lemma RemembersBoth(a: seq<C.Step>, b: seq<C.Step>, r: Request, later: seq<Request>)
    requires RemembersFrom(a, [r]) && RemembersFrom(b, later)
    ensures RemembersFrom(a + b, [r] + later)
  {
    var requests := [r] + later;
    forall s | s in a + b && s.Remember?
      ensures exists i :: 0 <= i < |requests| && requests[i].Forwarded? && requests[i].body == s.order
    {
      if s in a {
        assert requests[0] == [r][0];
      } else {
        var i :| 0 <= i < |later| && later[i].Forwarded? && later[i].body == s.order;
        assert requests[i + 1] == later[i];
      }
    }
  }

  /** The first request's documents, and then those of the rest. */
  lemma DocumentsUnfold(w: Wire, s: State, r: Request, later: seq<Request>)
    requires WellFormed(s)
    ensures Documents(w, s, [r] + later)
      == StepsOf(w, r, Next(s, r.Posted()).batch.reports) + Documents(w, Next(s, r.Posted()).state, later)
    ensures Run(s, Inputs([r] + later)).state == Run(Next(s, r.Posted()).state, Inputs(later)).state
  {
    hide WellFormed, StepsOf, Next;
    assert ([r] + later)[0] == r && ([r] + later)[1..] == later;
    assert Inputs([r] + later)[0] == r.Posted() && Inputs([r] + later)[1..] == Inputs(later);
  }

  lemma {:induction false} DocumentsAppend(w: Wire, s: State, a: seq<Request>, b: seq<Request>)
    requires WellFormed(s)
    ensures Documents(w, s, a + b) == Documents(w, s, a) + Documents(w, Run(s, Inputs(a)).state, b)
    decreases |a|
  {
    hide *;
    if a == [] {
      assert a + b == b;
      NoDocuments(w, s);
    } else {
      var r, o := a[0], Next(s, a[0].Posted());
      assert a == [r] + a[1..] && a + b == [r] + (a[1..] + b);
      DocumentsUnfold(w, s, r, a[1..]);
      DocumentsUnfold(w, s, r, a[1..] + b);
      DocumentsAppend(w, o.state, a[1..], b);
      var first, second := StepsOf(w, r, o.batch.reports), Documents(w, o.state, a[1..]);
      var third := Documents(w, Run(o.state, Inputs(a[1..])).state, b);
      assert (first + second) + third == first + (second + third);
    }
  }

  lemma NoDocuments(w: Wire, s: State)
    requires WellFormed(s)
    ensures Documents(w, s, []) == [] && Run(s, Inputs([])).state == s
  {
    hide WellFormed;
  }

  /** What is heard is numbered like the run, and is part of its log. */
  lemma {:induction false} HeardIsPart(s: State, requests: seq<Request>, heard: bool)
    requires WellFormed(s)
    ensures N.Numbered(Heard(s, requests, heard), s.sequence, Run(s, Inputs(requests)).state.sequence)
    ensures forall r :: r in Heard(s, requests, heard) ==> r in Run(s, Inputs(requests)).batch.reports
    decreases |requests|
  {
    hide WellFormed, N.Numbered;
    if requests == [] {
      N.NothingNumbered(s.sequence, s.sequence);
    } else {
      var o, last := Next(s, requests[0].Posted()), Run(s, Inputs(requests)).state.sequence;
      N.StepNumbered(s, requests[0].Posted());
      HeardIsPart(o.state, requests[1..], heard);
      assert Inputs(requests)[1..] == Inputs(requests[1..]);
      var now := if requests[0].HandsOver() == heard then o.batch.reports else [];
      NumberedOrNothing(o.batch.reports, now, s.sequence, o.state.sequence);
      N.NumberedAppend(now, Heard(o.state, requests[1..], heard), s.sequence, o.state.sequence, last);
      hide Next;
    }
  }

  lemma NumberedOrNothing(a: seq<ExecutionReport>, b: seq<ExecutionReport>, lo: nat, hi: nat)
    requires N.Numbered(a, lo, hi) && (b == a || b == [])
    ensures N.Numbered(b, lo, hi)
  {
  }

  /** What is filled is filled within hearing or out of it. */
  lemma {:induction false} HeardOrNot(s: State, requests: seq<Request>, id: string)
    requires WellFormed(s)
    ensures FilledQuantity(Run(s, Inputs(requests)).batch.reports, id)
            == FilledQuantity(Heard(s, requests, true), id) + FilledQuantity(Heard(s, requests, false), id)
    decreases |requests|
  {
    hide WellFormed;
    if requests != [] {
      var o := Next(s, requests[0].Posted());
      HeardOrNot(o.state, requests[1..], id);
      assert Inputs(requests)[1..] == Inputs(requests[1..]);
      FilledAppend(o.batch.reports, Run(o.state, Inputs(requests[1..])).batch.reports, id);
      FilledAppend(o.batch.reports, Heard(o.state, requests[1..], requests[0].HandsOver()), id);
      var other := Heard(o.state, requests[1..], !requests[0].HandsOver());
      assert [] + other == other;
      hide Next, FilledQuantity;
    }
  }

  /** Nothing of an order is filled within hearing, or out of it, exactly if no such request reaches it. */
  lemma {:induction false} FilledIfReached(s: State, requests: seq<Request>, heard: bool, id: string)
    requires WellFormed(s)
    ensures FilledQuantity(Heard(s, requests, heard), id) >= 0
    ensures FilledQuantity(Heard(s, requests, heard), id) == 0 <==> NoneReaches(s, requests, heard, id)
    decreases |requests|
  {
    hide WellFormed, Reaches;
    if requests != [] {
      var o := Next(s, requests[0].Posted());
      FilledIfReached(o.state, requests[1..], heard, id);
      StepReaches(s, requests[0].Posted(), id);
      var now := if requests[0].HandsOver() == heard then o.batch.reports else [];
      FilledAppend(now, Heard(o.state, requests[1..], heard), id);
      hide Next;
    }
  }

  /** Runs in which only cancels and resets go unheard. */
  ghost predicate OnlyCancelsUnheard(requests: seq<Request>) {
    forall i :: 0 <= i < |requests| ==>
      || requests[i].HandsOver()
      || requests[i].Posted().command.CancelOrder? || requests[i].Posted().command.ResetBooks?
  }

  lemma {:induction false} EveryFillIsHeard(s: State, requests: seq<Request>, id: string)
    requires WellFormed(s) && OnlyCancelsUnheard(requests)
    ensures NoneReaches(s, requests, false, id)
    decreases |requests|
  {
    if requests != [] {
      assert requests[0].HandsOver() || !Reaches(s, requests[0].Posted(), id);
      EveryFillIsHeard(Next(s, requests[0].Posted()).state, requests[1..], id);
    }
  }

  lemma {:induction false} ConsistentFills(v: Working, log: seq<ExecutionReport>)
    requires Consistent(v, log)
    ensures OnlyRealFills(log)
    decreases |log|
  {
    if log != [] {
      ConsistentFills(Read(v, log[0]), log[1..]);
      forall i | 0 <= i < |log|
        ensures log[i].fill >= 0 && (log[i].fill > 0 ==> Fillish(log[i]))
      {
        if i > 0 { assert log[i] == log[1..][i - 1]; }
      }
    }
  }

  ghost predicate AllHeld(v: Working) {
    forall id :: id in v ==> v[id] > 0
  }

  lemma {:induction false} WithdrawnNotNegative(v: Working, log: seq<ExecutionReport>, id: string)
    requires Consistent(v, log) && AllHeld(v)
    ensures WithdrawnQuantity(log, id) >= 0
    decreases |log|
  {
    if log != [] {
      WithdrawnNotNegative(Read(v, log[0]), log[1..], id);
    }
  }

  lemma {:induction false} LargestIsPart(log: seq<ExecutionReport>, id: string)
    requires OnlyRealFills(log)
    ensures FilledQuantity(log, id) >= LargestFill(log, id) >= 0
  {
    if log != [] {
      var n := |log| - 1;
      LargestIsPart(log[..n], id);
      FilledSnoc(log[..n], log[n], id);
      assert log[n].fill >= 0;
      assert log == log[..n] + [log[n]];
    }
  }

  /** What a run has in it: fills that are fills, no more heard than filled, and no more filled than accepted. */
  lemma RunFills(symbols: set<string>, requests: seq<Request>, id: string)
    requires "" !in symbols && NoReset(Inputs(requests))
    ensures var log, heard := Run(Fresh(symbols), Inputs(requests)).batch.reports,
      Heard(Fresh(symbols), requests, true);
      && Numbered(heard) && OnlyRealFills(heard)
      && FilledQuantity(log, id) == FilledQuantity(heard, id)
        + FilledQuantity(Heard(Fresh(symbols), requests, false), id)
      && AcceptedQuantity(log, id) >= FilledQuantity(log, id) >= FilledQuantity(heard, id)
      && FilledQuantity(heard, id) >= LargestFill(heard, id) >= 0
  {
    var s := Fresh(symbols);
    var r := Run(s, Inputs(requests));
    var v: Working := map[];
    assert Tracks(v, s);
    RunReplays(v, s, Inputs(requests));
    RunConserves(symbols, Inputs(requests), id);
    assert Consistent(v, r.batch.reports);
    ConsistentFills(v, r.batch.reports);
    WithdrawnNotNegative(v, r.batch.reports, id);
    if id in r.state.registry {
      LocatedIsLive(r.state, id);
    }
    hide Run, Consistent, Tracks, WellFormed, OnlyRealFills;
    HeardIsPart(s, requests, true);
    HeardOrNot(s, requests, id);
    FilledIfReached(s, requests, false, id);
    RunIsNumbered(Heard(s, requests, true), s.sequence, r.state.sequence);
    PartsAreReal(Heard(s, requests, true), r.batch.reports);
    LargestIsPart(Heard(s, requests, true), id);
  }

  ghost predicate OnlyRealFills(log: seq<ExecutionReport>) {
    forall i :: 0 <= i < |log| ==> log[i].fill >= 0 && (log[i].fill > 0 ==> Fillish(log[i]))
  }

  lemma PartsAreReal(part: seq<ExecutionReport>, log: seq<ExecutionReport>)
    requires OnlyRealFills(log) && forall r :: r in part ==> r in log
    ensures OnlyRealFills(part)
  {
    forall i | 0 <= i < |part|
      ensures part[i].fill >= 0 && (part[i].fill > 0 ==> Fillish(part[i]))
    {
      assert part[i] in log;
      var j :| 0 <= j < |log| && log[j] == part[i];
    }
  }

  lemma RunIsNumbered(log: seq<ExecutionReport>, lo: nat, hi: nat)
    requires N.Numbered(log, lo, hi)
    ensures Numbered(log)
  {
    hide N.Within;
  }

  lemma LocatedIsLive(s: State, id: string)
    requires WellFormed(s) && Locatable(s) && id in s.registry
    ensures Located(s, id).remaining > 0
  {
    WellFormedIsSound(s);
    hide WellFormed, Locatable;
    FindIsMember(s.books[s.registry[id].symbol].Orders(s.registry[id].side), id);
  }

  /** The fills of the order in the log carry the tags of an algo entry. */
  ghost predicate Tagged(w: Wire, log: seq<ExecutionReport>, id: string) {
    forall i :: 0 <= i < |log| && log[i].id == id && log[i].fill > 0 ==>
      w.tags(log[i].metadata).source == "algo" && w.tags(log[i].metadata).role == "entry"
  }

  /** Later documents may repeat earlier ones, and the policy may be remembered again. */
  ghost predicate Repeats(w: Wire, log: seq<ExecutionReport>, o: C.AlgoOrder, more: seq<C.Step>) {
    && PrintedFrom(w, log, more)
    && OnePolicy(more, o)
  }

  ghost predicate OnePolicy(steps: seq<C.Step>, o: C.AlgoOrder) {
    forall s :: s in steps && s.Remember? && s.order.id == o.id ==> C.PolicyOf(s.order) == C.PolicyOf(o)
  }

  /** The policy shown with an order is not changed by later requests. */
  ghost predicate KeepsPolicy(requests: seq<Request>, o: C.AlgoOrder) {
    forall i :: 0 <= i < |requests| && requests[i].Forwarded? && requests[i].body.id == o.id ==>
      C.PolicyOf(requests[i].body) == C.PolicyOf(o)
  }

  /**
    A run without a reset in which the gateway forwards an algo's entry that
    nothing has reached before. The entry is covered by the lesser of the
    policy quantity and what the desk hears to be filled of it, exactly if no
    fill is larger than the policy. If no more was accepted under its id than
    the policy allows, every contract heard to be filled is covered once, and
    every filled contract exactly if no unheard request reaches the entry.
    Documents may be handed over again in any order.
   */
  lemma EntryIsCovered(w: Wire, symbols: set<string>, early: seq<Request>, entry: Request, late: seq<Request>,
                       more: seq<C.Step>)
    requires "" !in symbols && NoReset(Inputs(early + [entry] + late)) && NoBars(w)
    requires entry.Forwarded? && C.Remembered(entry.body) && KeepsPolicy(late, entry.body)
    requires NoneReaches(Fresh(symbols), early, true, entry.body.id)
    requires Tagged(w, Heard(Fresh(symbols), early + [entry] + late, true), entry.body.id)
    requires Repeats(w, Heard(Fresh(symbols), early + [entry] + late, true), entry.body, more)
    ensures var requests, id := early + [entry] + late, entry.body.id;
      var log, heard := Run(Fresh(symbols), Inputs(requests)).batch.reports, Heard(Fresh(symbols), requests, true);
      var covers := C.CoverQuantity(C.Handle(C.FRESH_DESK, Documents(w, Fresh(symbols), requests) + more).orders, id);
      var quantity := C.PolicyOf(entry.body).quantity;
      && covers == Max(Min(quantity, FilledQuantity(heard, id)), LargestFill(heard, id))
      && (covers == Min(quantity, FilledQuantity(heard, id)) <==> LargestFill(heard, id) <= quantity)
      && (AcceptedQuantity(log, id) <= quantity ==>
            && covers == FilledQuantity(heard, id)
            && (covers == FilledQuantity(log, id) <==> NoneReaches(Fresh(symbols), requests, false, id)))
  {
    hide *;
    var s, requests, o := Fresh(symbols), early + [entry] + late, entry.body;
    var log, heard, docs := Run(s, Inputs(requests)).batch.reports, Heard(s, requests, true), Documents(w, s, requests);
    RunFills(symbols, requests, o.id);
    FilledIfReached(s, requests, false, o.id);
    EntryLogIs(w, heard, o.id);
    DocumentsTell(w, s, requests, o.id);
    StepsPrinted(w, heard, docs, more, o);
    IdAndQuantity(o);
    DocumentsGovern(w, symbols, early, entry, late, more);
    LogIsCovered(w, heard, docs + more, o.id, C.PolicyOf(o).quantity);
    WithinPolicy(C.PolicyOf(o).quantity, AcceptedQuantity(log, o.id), FilledQuantity(heard, o.id),
                 LargestFill(heard, o.id));
  }

  /** The policy shown with the entry governs all its fills. */
  lemma DocumentsGovern(w: Wire, symbols: set<string>, early: seq<Request>, entry: Request, late: seq<Request>,
                        more: seq<C.Step>)
    requires "" !in symbols && NoReset(Inputs(early + [entry] + late))
    requires entry.Forwarded? && C.Remembered(entry.body) && KeepsPolicy(late, entry.body)
    requires NoneReaches(Fresh(symbols), early, true, entry.body.id) && OnePolicy(more, entry.body)
    ensures C.Governed(Documents(w, Fresh(symbols), early + [entry] + late) + more, entry.body.id,
                       C.PolicyOf(entry.body).quantity)
  {
    hide *;
    var s, o, requests := Fresh(symbols), entry.body, early + [entry] + late;
    var s1 := Run(s, Inputs(early)).state;
    var before := Documents(w, s, early);
    FreshIsWellFormed(symbols);
    assert early + ([entry] + late) == requests;
    FrontHasNoReset(early, [entry] + late);
    RunFills(symbols, early, o.id);
    FilledIfReached(s, early, true, o.id);
    DocumentsTell(w, s, early, o.id);
    NothingTold(w, Heard(s, early, true), before, o.id);
    DocumentsAppend(w, s, early, [entry] + late);
    var after := EntryDocuments(w, s1, entry, late);
    PoliciesBoth(after, more, o);
    C.RememberedGoverns(before, o, after + more);
    assert before + [C.Remember(o)] + (after + more) == Documents(w, s, requests) + more;
  }

  lemma PoliciesBoth(a: seq<C.Step>, b: seq<C.Step>, o: C.AlgoOrder)
    requires OnePolicy(a, o) && OnePolicy(b, o)
    ensures forall s :: s in a + b && s.Remember? && s.order.id == o.id ==> C.PolicyOf(s.order) == C.PolicyOf(o)
  {
    hide C.PolicyOf;
  }

  lemma FreshIsWellFormed(symbols: set<string>)
    requires "" !in symbols
    ensures WellFormed(Fresh(symbols))
  {
  }

  lemma FrontHasNoReset(a: seq<Request>, b: seq<Request>)
    requires NoReset(Inputs(a + b))
    ensures NoReset(Inputs(a))
  {
    forall i | 0 <= i < |a|
      ensures !Inputs(a)[i].command.ResetBooks?
    {
      assert Inputs(a + b)[i] == Inputs(a)[i];
    }
  }

  /** The desk sees the entry's policy first, and no other one later. */
  lemma EntryDocuments(w: Wire, s: State, entry: Request, late: seq<Request>) returns (after: seq<C.Step>)
    requires WellFormed(s) && entry.Forwarded? && KeepsPolicy(late, entry.body)
    ensures Documents(w, s, [entry] + late) == [C.Remember(entry.body)] + after
    ensures OnePolicy(after, entry.body)
  {
    hide *;
    var o := Next(s, entry.Posted());
    var told, later := AsSteps(ResponseEvents(w, o.batch.reports), entry.now), Documents(w, o.state, late);
    after := told + later;
    ResponseIsPrinted(w, o.batch.reports, entry.now);
    DocumentsTell(w, o.state, late, entry.body.id);
    DocumentsUnfold(w, s, entry, late);
    EntrySteps(w, entry, o.batch.reports);
    LateBodies(later, late, entry.body);
    FillsThenPolicies(told, later, entry.body);
  }

  lemma FillsThenPolicies(told: seq<C.Step>, later: seq<C.Step>, o: C.AlgoOrder)
    requires (forall s :: s in told ==> s.Fill?) && OnePolicy(later, o)
    ensures OnePolicy(told + later, o)
  {
    hide C.PolicyOf;
  }

  lemma EntrySteps(w: Wire, entry: Request, reports: seq<ExecutionReport>)
    requires entry.Forwarded?
    ensures StepsOf(w, entry, reports) == [C.Remember(entry.body)] + AsSteps(ResponseEvents(w, reports), entry.now)
  {
    hide ResponseEvents;
  }

  lemma LateBodies(steps: seq<C.Step>, late: seq<Request>, o: C.AlgoOrder)
    requires RemembersFrom(steps, late) && KeepsPolicy(late, o)
    ensures OnePolicy(steps, o)
  {
    hide C.PolicyOf;
  }

  /** Where nothing of an order is filled, no step tells a fill of it. */
  lemma NothingTold(w: Wire, log: seq<ExecutionReport>, steps: seq<C.Step>, id: string)
    requires PrintedFrom(w, log, steps) && OnlyRealFills(log) && FilledQuantity(log, id) == 0
    ensures forall s :: s in steps ==> !C.EntryFill(s, id)
  {
    hide Prints, C.Reported, C.IsEntry, ReportEvent;
    forall s | s in steps && C.EntryFill(s, id)
      ensures false
    {
      assert IsPrint(w, log, s.event);
      var i :| 0 <= i < |log| && Prints(w, log[i], s.event);
      PrintedTwice(w, log[i], s.event);
      NothingFilledAt(log, i, id);
    }
  }

  lemma {:induction false} NothingFilledAt(log: seq<ExecutionReport>, i: nat, id: string)
    requires OnlyRealFills(log) && i < |log|
    ensures FilledQuantity(log, id) >= 0 && (log[i].id == id ==> FilledQuantity(log, id) >= log[i].fill)
    decreases |log|
  {
    LogNotNegative(log, id);
    LogNotNegative(log[1..], id);
    assert log[0].fill >= 0;
    if i > 0 {
      NothingFilledAt(log[1..], i - 1, id);
    }
  }

  lemma {:induction false} LogNotNegative(log: seq<ExecutionReport>, id: string)
    requires forall r :: r in log ==> r.fill >= 0
    ensures FilledQuantity(log, id) >= 0
  {
    if log != [] {
      LogNotNegative(log[1..], id);
    }
  }

  lemma EntryLogIs(w: Wire, log: seq<ExecutionReport>, id: string)
    requires Tagged(w, log, id) && OnlyRealFills(log)
    ensures EntryLog(w, log, id)
  {
  }

  lemma IdAndQuantity(o: C.AlgoOrder)
    requires C.Remembered(o)
    ensures o.id != "" && C.PolicyOf(o).quantity >= 1
  {
  }

  lemma WithinPolicy(quantity: int, accepted: int, filled: int, largest: int)
    requires accepted >= filled >= largest >= 0
    ensures accepted <= quantity ==> Max(Min(quantity, filled), largest) == filled
  {
  }

  lemma StepsPrinted(w: Wire, log: seq<ExecutionReport>, docs: seq<C.Step>, more: seq<C.Step>, o: C.AlgoOrder)
    requires PrintedFrom(w, log, docs) && TellsAll(w, log, docs, o.id) && Repeats(w, log, o, more)
    ensures PrintedFrom(w, log, docs + more) && TellsAll(w, log, docs + more, o.id) && OnePolicy(more, o)
  {
    hide IsPrint, ReportEvent, PacketFill, C.PolicyOf;
    forall i | 0 <= i < |log| && log[i].id == o.id && log[i].fill > 0
      ensures Tells(w, log[i], docs + more)
    {
      assert Tells(w, log[i], docs);
      var k :| 0 <= k < |docs| && docs[k].Fill?
               && (docs[k].event == ReportEvent(w, log[i]) || docs[k].event == PacketFill(w, log[i]));
      assert (docs + more)[k] == docs[k];
    }
  }
}
