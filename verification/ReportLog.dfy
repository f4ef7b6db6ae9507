/**
  The execution reports alone determine which orders are working and how much
  of each is left, and no quantity is lost between them.
 */
module ReportLog {
  import opened Orders
  import opened BookSpec
  import opened BookInvariant
  import opened Runs

  type Working = map<string, int>

  /** A reader of the report log. */
  function Read(w: Working, r: ExecutionReport): Working {
    match r.status
    case Accepted => w[r.id := r.remaining]
    case PartialFill => w[r.id := r.remaining]
    case Filled => w - {r.id}
    case Canceled => w - {r.id}
    case Replaced => w - {r.id}
    case Rejected => w
    case Resting => w
  }

  function Replay(w: Working, log: seq<ExecutionReport>): Working
    decreases |log|
  {
    if log == [] then w else Replay(Read(w, log[0]), log[1..])
  }

  /** A report that adds up with what the reader has. */
  predicate Fits(w: Working, r: ExecutionReport) {
    match r.status
    case Accepted => r.id !in w && r.fill == 0 && r.remaining > 0
    case PartialFill => r.id in w && r.fill > 0 && r.remaining > 0 && w[r.id] == r.fill + r.remaining
    case Filled => r.id in w && r.fill > 0 && r.remaining == 0 && w[r.id] == r.fill
    case Canceled => r.id in w && r.fill == 0 && w[r.id] == r.remaining
    case Replaced => r.id in w && r.fill == 0 && w[r.id] == r.remaining
    case Rejected => r.fill == 0
    case Resting => r.id in w && r.fill == 0 && w[r.id] == r.remaining
  }

  predicate Consistent(w: Working, log: seq<ExecutionReport>)
    decreases |log|
  {
    log == [] || (Fits(w, log[0]) && Consistent(Read(w, log[0]), log[1..]))
  }

  lemma {:induction false} ReplayAppend(w: Working, a: seq<ExecutionReport>, b: seq<ExecutionReport>)
    ensures Replay(w, a + b) == Replay(Replay(w, a), b)
    ensures Consistent(w, a + b) == (Consistent(w, a) && Consistent(Replay(w, a), b))
    decreases |a|
  {
    if a == [] {
      assert a + b == b;
    } else {
      ReplayAppend(Read(w, a[0]), a[1..], b);
      assert (a + b)[1..] == a[1..] + b;
    }
  }

  lemma ReplaySnoc(w: Working, a: seq<ExecutionReport>, r: ExecutionReport)
    ensures Replay(w, a + [r]) == Read(Replay(w, a), r)
    ensures Consistent(w, a + [r]) == (Consistent(w, a) && Fits(Replay(w, a), r))
  {
    ReplayAppend(w, a, [r]);
  }

  // ---------- conservation, order by order ----------

  function Held(w: Working, id: string): int {
    if id in w then w[id] else 0
  }

  function AcceptedQuantity(log: seq<ExecutionReport>, id: string): int {
    if log == [] then 0
    else (if log[0].id == id && log[0].status.Accepted? then log[0].remaining else 0) + AcceptedQuantity(log[1..], id)
  }

  function FilledQuantity(log: seq<ExecutionReport>, id: string): int {
    if log == [] then 0
    else (if log[0].id == id then log[0].fill else 0) + FilledQuantity(log[1..], id)
  }

  lemma {:induction false} FilledAppend(a: seq<ExecutionReport>, b: seq<ExecutionReport>, id: string)
    ensures FilledQuantity(a + b, id) == FilledQuantity(a, id) + FilledQuantity(b, id)
  {
    if a == [] {
      assert a + b == b;
    } else {
      FilledAppend(a[1..], b, id);
      assert (a + b)[1..] == a[1..] + b;
    }
  }

  /** What cancels and replaces took out of the book. */
  function WithdrawnQuantity(log: seq<ExecutionReport>, id: string): int {
    if log == [] then 0
    else (if log[0].id == id && (log[0].status.Canceled? || log[0].status.Replaced?) then log[0].remaining else 0)
         + WithdrawnQuantity(log[1..], id)
  }

  lemma {:induction false} ConsistentLogConserves(w: Working, log: seq<ExecutionReport>, id: string)
    requires Consistent(w, log)
    ensures Held(w, id) + AcceptedQuantity(log, id)
         == FilledQuantity(log, id) + WithdrawnQuantity(log, id) + Held(Replay(w, log), id)
    decreases |log|
  {
    if log != [] {
      ConsistentLogConserves(Read(w, log[0]), log[1..], id);
    }
  }

  // ---------- what the reader should have ----------

  ghost predicate TracksSide(w: Working, f: seq<Order>) {
    forall i :: 0 <= i < |f| ==> f[i].id in w && w[f[i].id] == f[i].remaining
  }

  /** w is the working set: the registered ids, with what is left of each order. */
  ghost predicate Tracks(w: Working, s: State) {
    && w.Keys == s.registry.Keys
    && forall symbol :: symbol in s.books ==>
         TracksSide(w, s.books[symbol].bids) && TracksSide(w, s.books[symbol].asks)
  }

  /** The registry's id-to-remaining map. */
  ghost function WorkingSet(s: State): Working
    requires Locatable(s)
  {
    map id | id in s.registry :: Located(s, id).remaining
  }

  lemma SideOfWorkingSet(s: State, symbol: string, d: Side)
    requires WellFormed(s) && Locatable(s) && symbol in s.books
    ensures TracksSide(WorkingSet(s), s.books[symbol].Orders(d))
  {
    var f := s.books[symbol].Orders(d);
    assert BookOk(s, symbol);
    forall i | 0 <= i < |f|
      ensures f[i].id in WorkingSet(s) && WorkingSet(s)[f[i].id] == f[i].remaining
    {
      FindsItself(f, i, symbol, d, s.registry);
    }
  }

  /** In a well-formed state there is one working set. */
  lemma TracksIsUnique(w: Working, s: State)
    requires WellFormed(s) && Locatable(s)
    ensures Tracks(w, s) <==> w == WorkingSet(s)
  {
    hide WellFormed, Locatable, TracksSide, Located;
    if Tracks(w, s) {
      forall id | id in s.registry
        ensures w[id] == Located(s, id).remaining
      {
        TrackedIsLocated(w, s, id);
      }
    }
    forall symbol | symbol in s.books
      ensures TracksSide(WorkingSet(s), s.books[symbol].bids) && TracksSide(WorkingSet(s), s.books[symbol].asks)
    {
      SideOfWorkingSet(s, symbol, Buy);
      SideOfWorkingSet(s, symbol, Sell);
    }
  }

  lemma TrackedIsLocated(w: Working, s: State, id: string)
    requires Locatable(s) && Tracks(w, s) && id in s.registry
    ensures w[id] == Located(s, id).remaining
  {
    hide Find, HasId;
    var at := s.registry[id];
    var f := s.books[at.symbol].Orders(at.side);
    FindIsMember(f, id);
    assert TracksSide(w, f);
  }

  /** Entries not on side d of `symbol` are as in `base`. */
  ghost predicate Elsewhere(w: Working, base: Working, registry: Registry, symbol: string, d: Side) {
    forall id :: id in registry && !On(registry[id], symbol, d) ==> id in w && id in base && w[id] == base[id]
  }

  lemma TracksElsewhere(base: Working, w: Working, f: seq<Order>, symbol': string, d': Side,
                        r: Registry, r': Registry, symbol: string, d: Side)
    requires TracksSide(base, f) && Lists(r, symbol', d', f) && (symbol' != symbol || d' != d)
    requires SameElsewhere(r, r', symbol, d) && Elsewhere(w, base, r', symbol, d)
    ensures TracksSide(w, f)
  {
  }

  // ---------- matching ----------

  ghost predicate TracksMatch(w: Working, m: Matching, base: Working) {
    && w.Keys == m.registry.Keys + (if m.incoming.remaining > 0 then {m.incoming.id} else {})
    && (m.incoming.remaining > 0 ==> w[m.incoming.id] == m.incoming.remaining)
    && TracksSide(w, m.resting)
    && Elsewhere(w, base, m.registry, m.incoming.symbol, Opposite(m.incoming.side))
  }

  lemma TradeTracks(w: Working, m: Matching, next: Matching, base: Working, symbol: string,
                    a: ExecutionReport, b: ExecutionReport, q: int)
    requires CanMatch(m) && Tradable(m) && MatchOk(m, symbol) && TradesHead(m, next)
    requires TracksMatch(w, m, base) && q == Min(m.incoming.remaining, m.resting[0].remaining)
    requires a.id == m.incoming.id && a.fill == q && a.remaining == m.incoming.remaining - q
    requires a.status == if a.remaining == 0 then Filled else PartialFill
    requires b.id == m.resting[0].id && b.fill == q && b.remaining == m.resting[0].remaining - q
    requires b.status == if b.remaining == 0 then Filled else PartialFill
    ensures Fits(w, a) && Fits(Read(w, a), b)
    ensures TracksMatch(Read(Read(w, a), b), next, base)
  {
    var f := m.resting;
    var w' := Read(Read(w, a), b);
    assert f[0].id in m.registry;
    forall i | 0 < i < |f|
      ensures f[i].id != f[0].id && f[i].id != m.incoming.id && f[i].id in w' && w'[f[i].id] == f[i].remaining
    {
      assert Distinct(f[0], f[i]);
    }
    assert next.incoming.remaining == a.remaining;
    assert w'.Keys == next.registry.Keys + (if a.remaining > 0 then {a.id} else {});
  }

  lemma {:induction false} MatchReplays(w: Working, m: Matching, base: Working, symbol: string, time: nat)
    requires Tradable(m) && MatchOk(m, symbol)
    requires Consistent(w, m.batch.reports) && TracksMatch(Replay(w, m.batch.reports), m, base)
    ensures var r := Matched(m, time);
      Consistent(w, r.batch.reports) && TracksMatch(Replay(w, r.batch.reports), r, base)
    decreases m.incoming.remaining
  {
    hide Consistent, Replay, TracksMatch, MatchOk, TradesHead, Fits, Read;
    if CanMatch(m) {
      var next, head := MatchStep(m, time), m.resting[0];
      var q := Min(m.incoming.remaining, head.remaining);
      var a := FillReport(m.incoming.(remaining := m.incoming.remaining - q), head.id, q, head.price, time,
                          m.sequence + 1);
      var b := FillReport(head.(remaining := head.remaining - q), m.incoming.id, q, head.price, time, m.sequence + 2);
      StepReports(m, time);
      MatchStepShape(m, time);
      TradesHeadOk(m, next, symbol);
      TradeTracks(Replay(w, m.batch.reports), m, next, base, symbol, a, b, q);
      ReplayAppend(w, m.batch.reports, [a, b]);
      ReplayPair(Replay(w, m.batch.reports), a, b);
      MatchReplays(w, next, base, symbol, time);
    }
  }

  lemma ReplayPair(w: Working, a: ExecutionReport, b: ExecutionReport)
    ensures Replay(w, [a, b]) == Read(Read(w, a), b)
    ensures Consistent(w, [a, b]) == (Fits(w, a) && Fits(Read(w, a), b))
  {
    assert [a, b] == [a] + [b];
    ReplayAppend(w, [a], [b]);
  }

  // ---------- one side changed, the rest of the state as before ----------

  lemma TracksPutSide(base: Working, w: Working, s: State, symbol: string, d: Side, f: seq<Order>,
                      registry: Registry, sequence: nat)
    requires (forall other :: other in s.books ==> BookOk(s, other)) && Tracks(base, s) && symbol in s.books
    requires SameElsewhere(s.registry, registry, symbol, d) && Elsewhere(w, base, registry, symbol, d)
    requires TracksSide(w, f)
    ensures var t := PutSide(s, symbol, d, f, registry, sequence);
      forall other :: other in t.books ==> TracksSide(w, t.books[other].bids) && TracksSide(w, t.books[other].asks)
  {
    var t := PutSide(s, symbol, d, f, registry, sequence);
    forall other | other in t.books
      ensures TracksSide(w, t.books[other].bids) && TracksSide(w, t.books[other].asks)
    {
      assert BookOk(s, other);
      if other == symbol {
        TracksElsewhere(base, w, s.books[symbol].Orders(Opposite(d)), symbol, Opposite(d), s.registry, registry, symbol,
                        d);
      } else {
        TracksElsewhere(base, w, s.books[other].bids, other, Buy, s.registry, registry, symbol, d);
        TracksElsewhere(base, w, s.books[other].asks, other, Sell, s.registry, registry, symbol, d);
      }
    }
  }

  lemma {:induction false} TracksInsert(w: Working, d: Side, f: seq<Order>, o: Order)
    requires TracksSide(w, f) && o.id in w && w[o.id] == o.remaining
    ensures TracksSide(w, Insert(d, f, o))
  {
    var k := InsertAt(d, f, o);
    var g := Insert(d, f, o);
    assert forall i :: 0 <= i < |g| ==> g[i] == if i < k then f[i] else if i == k then o else f[i - 1];
  }

  // ---------- the commands ----------

  ghost predicate Explains(w: Working, o: Outcome) {
    Consistent(w, o.batch.reports) && Tracks(Replay(w, o.batch.reports), o.state)
  }

  lemma SubmitReplays(w: Working, s: State, c: OrderCommand, now: Clock)
    requires WellFormed(s) && Sound(s) && Tracks(w, s)
    ensures Explains(w, Submit(s, c, now))
  {
    var time := EffectiveTime(c.time, now);
    match Refusal(s, c)
    case Some(reason) =>
      RefusedReplays(w, s, RejectReport(c, reason, time, s.sequence + 1));
    case None =>
      AcceptedReplays(w, s, c, now);
  }

  lemma RefusedReplays(w: Working, s: State, r: ExecutionReport)
    requires Tracks(w, s) && r.status.Rejected? && r.fill == 0
    ensures Explains(w, Outcome(s.(sequence := s.sequence + 1), EMPTY.Report(r)))
  {
    ReplaySnoc(w, [], r);
  }

  lemma AcceptedReplays(w: Working, s: State, c: OrderCommand, now: Clock)
    requires WellFormed(s) && Sound(s) && Tracks(w, s) && Refusal(s, c).None?
    ensures Explains(w, Submit(s, c, now))
  {
    hide Consistent, Replay, MatchOk;
    var time := EffectiveTime(c.time, now);

    var m0 := StartMatch(s, c, now);
    var d := Opposite(c.side);
    StartTracks(w, s, c, now);
    MatchReplays(w, m0, w, c.symbol, time);
    MatchKeepsSide(m0, c.symbol, time);
    MatchKeepsOrder(m0, time);
    var m := Matched(m0, time);
    IncomingStaysOut(m, c.symbol);
    var t := AfterMatch(s, c, m);
    TracksPutSide(w, Replay(w, m.batch.reports), s, c.symbol, d, m.resting, m.registry, m.sequence);
    MatchedOk(s, c, now);
    IdsRegistered(t);
    RemainderReplays(w, t, m, time);
  }

  lemma IncomingStaysOut(m: Matching, symbol: string)
    requires MatchOk(m, symbol)
    ensures m.incoming.id !in m.registry && m.incoming.remaining >= 0
  {
  }

  lemma IdsRegistered(s: State)
    requires WellFormed(s)
    ensures forall other, d: Side, i :: other in s.books && 0 <= i < |s.books[other].Orders(d)| ==>
      s.books[other].Orders(d)[i].id in s.registry
  {
    forall other, d: Side, i | other in s.books && 0 <= i < |s.books[other].Orders(d)|
      ensures s.books[other].Orders(d)[i].id in s.registry
    {
      assert BookOk(s, other);
    }
  }

  /** An accepted order is tracked before it trades. */
  lemma StartTracks(w: Working, s: State, c: OrderCommand, now: Clock)
    requires WellFormed(s) && Sound(s) && Tracks(w, s) && Refusal(s, c).None?
    ensures var m := StartMatch(s, c, now);
      MatchOk(m, c.symbol) && Consistent(w, m.batch.reports) && TracksMatch(Replay(w, m.batch.reports), m, w)
  {
    var m := StartMatch(s, c, now);
    var d := Opposite(c.side);
    var accepted := ReportFor(m.incoming, Accepted, 0, 0, "accepted", EffectiveTime(c.time, now), s.sequence + 2);
    assert m.batch.reports == [] + [accepted];
    ReplaySnoc(w, [], accepted);
    assert BookOk(s, c.symbol);
    LaterBound(s.books[c.symbol].Orders(d), c.symbol, d, s.sequence, s.sequence + 2);
    IdsRegistered(s);
  }

  lemma RemainderReplays(w: Working, s: State, m: Matching, time: nat)
    requires m.incoming.symbol in s.books && Priced(m.incoming) && m.incoming.remaining >= 0
    requires m.incoming.id !in s.registry && Consistent(w, m.batch.reports)
    requires var v := Replay(w, m.batch.reports);
      && v.Keys == s.registry.Keys + (if m.incoming.remaining > 0 then {m.incoming.id} else {})
      && (m.incoming.remaining > 0 ==> v[m.incoming.id] == m.incoming.remaining)
      && forall other :: other in s.books ==> TracksSide(v, s.books[other].bids) && TracksSide(v, s.books[other].asks)
    requires forall other, d: Side, i :: other in s.books && 0 <= i < |s.books[other].Orders(d)| ==>
      s.books[other].Orders(d)[i].id in s.registry
    ensures Explains(w, Remainder(s, m, time))
  {
    var o := m.incoming;
    var v := Replay(w, m.batch.reports);
    if o.remaining > 0 && o.kind.Limit? && !o.tif.Ioc? {
      ReplaySnoc(w, m.batch.reports, ReportFor(o, Resting, 0, 0, "resting", time, s.sequence + 1));
      TracksInsert(v, o.side, s.books[o.symbol].Orders(o.side), o);
    } else if o.remaining > 0 {
      var r := ReportFor(o, Canceled, 0, 0, "unfilled_ioc_or_market_remainder", time, s.sequence + 1);
      ReplaySnoc(w, m.batch.reports, r);
      forall other, d: Side | other in s.books
        ensures TracksSide(v - {o.id}, s.books[other].Orders(d))
      {
        assert s.books[other].Orders(d) == s.books[other].bids || s.books[other].Orders(d) == s.books[other].asks;
      }
      assert forall other :: other in s.books ==>
        s.books[other].bids == s.books[other].Orders(Buy) && s.books[other].asks == s.books[other].Orders(Sell);
    }
  }

  /** A report that withdraws a registered order, after the order has left its queue. */
  lemma WithdrawReplays(w: Working, s: State, id: string, time: nat, r: ExecutionReport)
    requires WellFormed(s) && Locatable(s) && Tracks(w, s) && id in s.registry
    requires r.id == id && (r.status.Canceled? || r.status.Replaced?) && r.fill == 0
    requires r.remaining == Located(s, id).remaining
    ensures Fits(w, r) && Tracks(Read(w, r), Remove(s, id, time).state)
  {
    var at := s.registry[id];
    var f := s.books[at.symbol].Orders(at.side);
    assert BookOk(s, at.symbol);
    FindIsMember(f, id);
    WithoutOk(f, id, at.symbol, at.side, s.registry, s.sequence);
    var v, g := w - {id}, Without(f, id);
    assert Elsewhere(v, w, s.registry - {id}, at.symbol, at.side);
    forall i | 0 <= i < |g|
      ensures g[i].id in v && v[g[i].id] == g[i].remaining
    {
      WithoutKeepsMembers(f, id);
      assert g[i] in f && g[i].id in s.registry - {id};
    }
    TracksPutSide(w, v, s, at.symbol, at.side, g, s.registry - {id}, s.sequence);
  }

  lemma CancelReplays(w: Working, s: State, c: CancelCommand, now: Clock)
    requires WellFormed(s) && Sound(s) && Locatable(s) && Tracks(w, s)
    ensures Explains(w, Cancel(s, c, now))
  {
    var time := EffectiveTime(c.time, now);
    if c.id !in s.registry {
      ReplaySnoc(w, [], NotFoundReport(c.id, time, s.sequence + 1));
    } else {
      var o := Located(s, c.id);
      FindIsMember(s.books[s.registry[c.id].symbol].Orders(s.registry[c.id].side), c.id);
      var r := ReportFor(o, Canceled, 0, 0, CancelReason(c.reason), time, s.sequence + 1);
      ReplaySnoc(w, [], r);
      WithdrawReplays(w, s, c.id, time, r);
    }
  }

  lemma ReplaceReplays(w: Working, s: State, c: ReplaceCommand, now: Clock)
    requires WellFormed(s) && Sound(s) && Locatable(s) && Tracks(w, s)
    ensures Explains(w, Replace(s, c, now))
  {
    hide WellFormed, Tracks, Submit;
    var time := EffectiveTime(c.time, now);
    if c.id !in s.registry {
      RefusedReplays(w, s, NotFoundReport(c.id, time, s.sequence + 1));
    } else {
      var o := Located(s, c.id);
      FindIsMember(s.books[s.registry[c.id].symbol].Orders(s.registry[c.id].side), c.id);
      var r := ReportFor(o, Replaced, 0, 0, "cancel_replace", time, s.sequence + 1);
      WithdrawReplays(w, s, c.id, time, r);
      RemoveKeepsSound(s, c.id, time);
      RemoveOk(s, c.id, time);
      var t := Remove(s, c.id, time).state.(sequence := s.sequence + 1);
      SequenceOk(Remove(s, c.id, time).state, s.sequence + 1);
      WellFormedIsSound(t);
      SubmitReplays(Read(w, r), t, ReplacementOf(o, c, time), now);
      AfterWithdrawal(w, r, Submit(t, ReplacementOf(o, c, time), now));
    }
  }

  lemma AfterWithdrawal(w: Working, r: ExecutionReport, again: Outcome)
    requires Fits(w, r) && Explains(Read(w, r), again)
    ensures Consistent(w, [r] + again.batch.reports)
    ensures Tracks(Replay(w, [r] + again.batch.reports), again.state)
  {
    ReplayAppend(w, [r], again.batch.reports);
    ReplaySnoc(w, [], r);
    assert [] + [r] == [r];
  }

  ghost predicate TracksSweep(w: Working, v: Sweeping, base: Working, symbol: string, d: Side) {
    && w.Keys == v.registry.Keys
    && TracksSide(w, v.resting)
    && Elsewhere(w, base, v.registry, symbol, d)
  }

  lemma {:induction false} SweepReplays(w: Working, v: Sweeping, base: Working, symbol: string, d: Side,
                                        tick: MarketDataTick, time: nat)
    requires LiveSide(v.resting) && SideOk(v.resting, symbol, d, v.registry, v.sequence)
    requires Consistent(w, v.batch.reports) && TracksSweep(Replay(w, v.batch.reports), v, base, symbol, d)
    ensures var r := Sweep(v, symbol, d, tick, time);
      Consistent(w, r.batch.reports) && TracksSweep(Replay(w, r.batch.reports), r, base, symbol, d)
    decreases |v.resting|
  {
    hide TracksSweep, SideOk, Consistent, Replay;
    if v.resting != [] && Triggered(d, tick, v.resting[0].price) {
      var next := SweepStep(v, symbol, d, time);
      TailOk(v.resting, symbol, d, v.registry, v.sequence);
      LaterSide(next.resting, symbol, d, next.registry, v.sequence, next.sequence);
      SweepStepReports(v, symbol, d, time);
      FillReplays(w, v, next, base, symbol, d, time);
      SweepReplays(w, next, base, symbol, d, tick, time);
    }
  }

  lemma SweepStepReports(v: Sweeping, symbol: string, d: Side, time: nat)
    requires LiveSide(v.resting) && v.resting != []
    ensures SweepStep(v, symbol, d, time).batch.reports == v.batch.reports +
      [FillReport(v.resting[0].(remaining := 0), "MARKET_DATA", v.resting[0].remaining, v.resting[0].price, time,
                  v.sequence + 1)]
  {
  }

  lemma FillReplays(w: Working, v: Sweeping, next: Sweeping, base: Working, symbol: string, d: Side, time: nat)
    requires LiveSide(v.resting) && SideOk(v.resting, symbol, d, v.registry, v.sequence) && v.resting != []
    requires Consistent(w, v.batch.reports) && TracksSweep(Replay(w, v.batch.reports), v, base, symbol, d)
    requires next.resting == v.resting[1..] && next.registry == v.registry - {v.resting[0].id}
    requires next.batch.reports == v.batch.reports + [FillReport(v.resting[0].(remaining := 0), "MARKET_DATA",
               v.resting[0].remaining, v.resting[0].price, time, v.sequence + 1)]
    ensures Consistent(w, next.batch.reports) && TracksSweep(Replay(w, next.batch.reports), next, base, symbol, d)
  {
    var f, head := v.resting, v.resting[0];
    var r := FillReport(head.(remaining := 0), "MARKET_DATA", head.remaining, head.price, time, v.sequence + 1);
    ReplaySnoc(w, v.batch.reports, r);
    assert MayRest(head, symbol, d, v.sequence);
    forall i | 0 < i < |f|
      ensures f[i].id != head.id
    {
      assert Distinct(f[0], f[i]);
    }
  }

  lemma SweepSideReplays(w: Working, s: State, symbol: string, d: Side, tick: MarketDataTick, time: nat, batch: Batch)
    requires WellFormed(s) && symbol in s.books && LiveSide(s.books[symbol].Orders(d))
    requires Consistent(w, batch.reports) && Tracks(Replay(w, batch.reports), s)
    ensures var r := Sweep(Sweeping(s.books[symbol].Orders(d), s.registry, s.sequence, batch), symbol, d, tick, time);
      && Consistent(w, r.batch.reports)
      && Tracks(Replay(w, r.batch.reports), PutSide(s, symbol, d, r.resting, r.registry, r.sequence))
  {
    assert BookOk(s, symbol);
    var v := Sweeping(s.books[symbol].Orders(d), s.registry, s.sequence, batch);
    var base := Replay(w, batch.reports);
    SweepReplays(w, v, base, symbol, d, tick, time);
    SweepKeepsSide(v, symbol, d, tick, time);
    var r := Sweep(v, symbol, d, tick, time);
    TracksPutSide(base, Replay(w, r.batch.reports), s, symbol, d, r.resting, r.registry, r.sequence);
  }

  lemma TickReplays(w: Working, s: State, tick: MarketDataTick, now: Clock)
    requires WellFormed(s) && Sound(s) && Tracks(w, s)
    ensures Explains(w, ApplyTick(s, tick, now))
  {
    if tick.symbol in s.books {
      var symbol, time := tick.symbol, EffectiveTime(tick.time, now);
      var b := s.books[symbol];
      SweepSideOk(s, symbol, Sell, tick, time, EMPTY);
      SweepSideReplays(w, s, symbol, Sell, tick, time, EMPTY);
      var asks := Sweep(Sweeping(b.asks, s.registry, s.sequence, EMPTY), symbol, Sell, tick, time);
      var t := PutSide(s, symbol, Sell, asks.resting, asks.registry, asks.sequence);
      SweepSideReplays(w, t, symbol, Buy, tick, time, asks.batch);
      var bids := Sweep(Sweeping(b.bids, asks.registry, asks.sequence, asks.batch), symbol, Buy, tick, time);
      assert ApplyTick(s, tick, now).state.books == PutSide(t, symbol, Buy, bids.resting, bids.registry,
                                                            bids.sequence).books;
    }
  }

  /** Between resets, reading a command's reports takes the working set before it to the working set after it. */
  lemma StepReplays(w: Working, s: State, input: Input)
    requires WellFormed(s) && Tracks(w, s) && !input.command.ResetBooks?
    ensures Sound(s) && Locatable(s)
    ensures Explains(w, Step(s, input))
  {
    WellFormedIsSound(s);
    match input.command
    case SubmitOrder(c) => SubmitReplays(w, s, c, input.now);
    case CancelOrder(c) => CancelReplays(w, s, c, input.now);
    case ReplaceOrder(c) => ReplaceReplays(w, s, c, input.now);
    case MarketData(t) => TickReplays(w, s, t, input.now);
  }

  ghost predicate NoReset(inputs: seq<Input>) {
    forall i :: 0 <= i < |inputs| ==> !inputs[i].command.ResetBooks?
  }

  /** The report log of a run between resets explains its final state. */
  lemma {:induction false} RunReplays(w: Working, s: State, inputs: seq<Input>)
    requires WellFormed(s) && Tracks(w, s) && NoReset(inputs)
    ensures Explains(w, Run(s, inputs))
    decreases |inputs|
  {
    if inputs != [] {
      StepReplays(w, s, inputs[0]);
      var o := Next(s, inputs[0]);
      RunReplays(Replay(w, o.batch.reports), o.state, inputs[1..]);
      ReplayAppend(w, o.batch.reports, Run(o.state, inputs[1..]).batch.reports);
    }
  }

  /** For every order id: what was accepted is what was filled, withdrawn, or still rests. */
  lemma RunConserves(symbols: set<string>, inputs: seq<Input>, id: string)
    requires "" !in symbols && NoReset(inputs)
    ensures WellFormed(Fresh(symbols))
    ensures var r := Run(Fresh(symbols), inputs); var log := r.batch.reports;
      Locatable(r.state) &&
      AcceptedQuantity(log, id) == FilledQuantity(log, id) + WithdrawnQuantity(log, id)
        + (if id in r.state.registry then Located(r.state, id).remaining else 0)
  {
    FreshOk(symbols);
    var r := Run(Fresh(symbols), inputs);
    var w := map[];
    RunReplays(w, Fresh(symbols), inputs);
    ConsistentLogConserves(w, r.batch.reports, id);
    WellFormedIsSound(r.state);
    TracksIsUnique(Replay(w, r.batch.reports), r.state);
  }
}
