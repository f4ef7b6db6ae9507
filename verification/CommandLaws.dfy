/**
  What each command does to a well-formed exchange, said of orders, queues and
  reports themselves: what a cancel takes out, what a replace puts back, what a
  submit leaves where, and whom a tick fills.
 */
module CommandLaws {
  import opened Orders
  import opened BookSpec
  import opened BookInvariant
  import opened Levels
  import opened Priority
  import opened Reach
  import opened Runs

  /** t's queues are those of s, but for side d of `symbol`, which is g. */
  ghost predicate OnlySide(s: State, t: State, symbol: string, d: Side, g: seq<Order>)
    requires symbol in s.books
  {
    && t.books.Keys == s.books.Keys
    && t.books[symbol].Orders(d) == g
    && t.books[symbol].Orders(Opposite(d)) == s.books[symbol].Orders(Opposite(d))
    && forall other :: other in s.books && other != symbol ==> t.books[other] == s.books[other]
  }

  /** A time in a command, or the clock if there is none. */
  function TimeOr(time: nat, now: Clock): nat {
    if time > 0 then time else now
  }

  // ---------- cancel ----------

  /** The queue in which the registry says an order rests. */
  function QueueOf(s: State, id: string): seq<Order>
    requires id in s.registry && s.registry[id].symbol in s.books
  {
    s.books[s.registry[id].symbol].Orders(s.registry[id].side)
  }

  function TakeAt(f: seq<Order>, k: nat): seq<Order>
    requires k < |f|
  {
    f[..k] + f[k + 1..]
  }

  /** The registered order is at place k of its queue; t is s without it, one number later. */
  ghost predicate TakenOut(s: State, t: State, id: string, k: nat)
    requires id in s.registry && s.registry[id].symbol in s.books && k < |QueueOf(s, id)|
  {
    var at, o := s.registry[id], QueueOf(s, id)[k];
    && o.id == id && o.symbol == at.symbol && o.side == at.side && o.price == at.price
    && OnlySide(s, t, at.symbol, at.side, TakeAt(QueueOf(s, id), k))
    && t.registry == s.registry - {id} && t.sequence == s.sequence + 1
  }

  /** A registered order is taken out of its queue and of the registry, and nothing else happens. */
  lemma CancelTakesOneOut(s: State, c: CancelCommand, now: Clock) returns (k: nat)
    requires WellFormed(s) && c.id in s.registry
    ensures Sound(s) && Locatable(s) && s.registry[c.id].symbol in s.books
    ensures k < |QueueOf(s, c.id)| && TakenOut(s, Cancel(s, c, now).state, c.id, k)
    ensures var r, o := Cancel(s, c, now), QueueOf(s, c.id)[k];
      && Priced(o)
      && r.batch.reports == [
           OwnReport(o, Canceled, if c.reason == "" then "cancelled" else c.reason, TimeOr(c.time, now),
                     s.sequence + 1)]
      && r.batch.deltas == [LevelDelta(o.symbol, o.side, o.price, TakeAt(QueueOf(s, c.id), k), TimeOr(c.time, now),
                                       s.sequence)]
  {
    hide *;
    k := RemovedIsTakenOut(s, c.id, TimeOr(c.time, now));
    RemoveTells(s, c.id, TimeOr(c.time, now), k);
    CancelParts(s, c, now);
  }

  /** Cancelling is removing, and one report on what was there. */
  lemma CancelParts(s: State, c: CancelCommand, now: Clock)
    requires Sound(s) && Locatable(s) && c.id in s.registry && Priced(Located(s, c.id))
    ensures var r, removed := Cancel(s, c, now), Remove(s, c.id, TimeOr(c.time, now));
      && r.state == removed.state.(sequence := s.sequence + 1)
      && r.batch.deltas == removed.batch.deltas
      && r.batch.reports == removed.batch.reports
           + [OwnReport(Located(s, c.id), Canceled, if c.reason == "" then "cancelled" else c.reason,
                        TimeOr(c.time, now), s.sequence + 1)]
  {
    assert EffectiveTime(c.time, now) == TimeOr(c.time, now);
    hide Remove, Located, Sound, Locatable;
  }

  /** Removing a registered order takes it out of its queue and of the registry. */
  lemma RemovedIsTakenOut(s: State, id: string, time: nat) returns (k: nat)
    requires WellFormed(s) && id in s.registry
    ensures Sound(s) && Locatable(s) && s.registry[id].symbol in s.books
    ensures k < |QueueOf(s, id)| && TakenOut(s, Remove(s, id, time).state.(sequence := s.sequence + 1), id, k)
    ensures var o := QueueOf(s, id)[k];
      && Priced(o) && o.kind.Limit? && !o.tif.Ioc? && o.remaining > 0
      && o.symbol == s.registry[id].symbol && o.side == s.registry[id].side && o.price == s.registry[id].price
      && o == Located(s, id) && Without(QueueOf(s, id), id) == TakeAt(QueueOf(s, id), k)
  {
    WellFormedIsSound(s);
    OrderIsPlaced(s, id);
    k := WithoutAt(QueueOf(s, id), id);
    hide WellFormed, LevelQuantity, LevelCount, Find, Without, HasId;
  }

  lemma {:induction false} NothingAtALevel(g: seq<Order>, price: int)
    ensures LevelCount(g, price) == 0 ==> LevelQuantity(g, price) == 0
  {
    if g != [] {
      NothingAtALevel(g[1..], price);
    }
  }

  /** A registered order rests where the registry says, as an order of that side and symbol. */
  lemma OrderIsPlaced(s: State, id: string)
    requires WellFormed(s) && Locatable(s) && id in s.registry
    ensures var at, o := s.registry[id], Located(s, id);
      && o.id == id && o.symbol == at.symbol && o.side == at.side && o.price == at.price && Priced(o)
      && o.kind.Limit? && !o.tif.Ioc? && o.remaining > 0
  {
    var at := s.registry[id];
    var f := s.books[at.symbol].Orders(at.side);
    assert BookOk(s, at.symbol);
    FindIsMember(f, id);
    var i :| 0 <= i < |f| && f[i] == Find(f, id);
    assert MayRest(f[i], at.symbol, at.side, s.sequence);
    hide Find;
  }

  /** An id that is not registered changes nothing. */
  lemma CancelOfNothing(s: State, c: CancelCommand, now: Clock)
    requires WellFormed(s) && c.id !in s.registry
    ensures Sound(s) && Locatable(s)
    ensures var r := Cancel(s, c, now);
      && r.state == State(s.books, s.registry, s.sequence + 1)
      && r.batch == Batch([NothingFound(c.id, TimeOr(c.time, now), s.sequence + 1)], [])
  {
    WellFormedIsSound(s);
  }

  function NothingFound(id: string, time: nat, sequence: nat): ExecutionReport {
    ExecutionReport(id, "", "", Buy, Rejected, Ticks(0), 0, 0, 0, time, sequence, "order_not_found", "")
  }

  // ---------- reset ----------

  /** Every queue and the registry are empty, the products stay. */
  lemma ResetEmptiesAll(s: State)
    ensures Reset(s).books.Keys == s.books.Keys && Reset(s).registry == map[] && Reset(s).sequence == s.sequence + 1
    ensures forall symbol, d: Side :: symbol in s.books ==> Reset(s).books[symbol].Orders(d) == []
  {
  }

  // ---------- submit ----------

  /** A good order: a known symbol, a new id, a quantity, and for a limit order a price. */
  predicate Good(s: State, c: OrderCommand) {
    c.symbol in s.books && c.id != "" && c.id !in s.registry && c.quantity > 0 && (c.kind.Market? || c.price.Ticks?)
  }

  /** An order that is not good changes nothing; the one report names the first thing that is wrong with it. */
  lemma BadOrderIsRefused(s: State, c: OrderCommand, now: Clock)
    requires WellFormed(s) && !Good(s, c)
    ensures Sound(s)
    ensures var r := Submit(s, c, now);
      && r.state == State(s.books, s.registry, s.sequence + 1) && r.batch.deltas == [] && |r.batch.reports| == 1
      && var reason := r.batch.reports[0].reason;
      && r.batch.reports[0] == ExecutionReport(c.id, "", c.symbol, c.side, Rejected, c.price, 0, 0, 0,
                                               TimeOr(c.time, now), s.sequence + 1, reason, c.metadata)
      && (reason == "unknown_symbol" <==> c.symbol !in s.books)
      && (reason == "order_id_required" <==> c.symbol in s.books && c.id == "")
      && (reason == "duplicate_order_id" <==> c.symbol in s.books && c.id != "" && c.id in s.registry)
      && (reason == "quantity_must_be_positive" <==>
            c.symbol in s.books && c.id != "" && c.id !in s.registry && c.quantity <= 0)
      && (reason == "limit_price_required" <==>
            c.symbol in s.books && c.id != "" && c.id !in s.registry && c.quantity > 0)
  {
    WellFormedIsSound(s);
    Reasons();
    hide WellFormed;
  }

  lemma Reasons()
    ensures |"unknown_symbol"| == 14 && |"order_id_required"| == 17 && |"duplicate_order_id"| == 18
    ensures |"quantity_must_be_positive"| == 25 && |"limit_price_required"| == 20
  {
  }

  /** The price an order trades up to: the command's, or the end of the range for a market order. */
  function PriceOf(c: OrderCommand): int
    requires c.kind.Market? || c.price.Ticks?
  {
    if c.kind.Limit? then c.price.ticks
    else if c.side.Buy? then 0x7FFF_FFFF_FFFF_FFFF
    else -0x8000_0000_0000_0000
  }

  /** The order that a good command becomes, with this much left of it. */
  function OrderOf(c: OrderCommand, remaining: int, time: nat, sequence: nat): Order
    requires c.kind.Market? || c.price.Ticks?
  {
    Order(c.id, c.symbol, c.side, c.kind, c.tif, PriceOf(c), c.quantity, remaining, time, sequence, c.metadata)
  }

  function OwnReport(o: Order, status: ExecStatus, reason: string, time: nat, sequence: nat): ExecutionReport
    requires Priced(o)
  {
    ExecutionReport(o.id, "", o.symbol, o.side, status, Ticks(o.price), 0, 0, o.remaining, time, sequence, reason,
                    o.metadata)
  }

  /** o has joined the queue behind everything of its price or better, and ahead of everything worse. */
  ghost predicate Joined(d: Side, f: seq<Order>, g: seq<Order>, o: Order) {
    exists k :: 0 <= k <= |f| && JoinedAt(d, f, g, o, k)
  }

  ghost predicate JoinedAt(d: Side, f: seq<Order>, g: seq<Order>, o: Order, k: nat)
    requires k <= |f|
  {
    && g == f[..k] + [o] + f[k..]
    && (forall i :: 0 <= i < k ==> if d.Buy? then f[i].price >= o.price else f[i].price <= o.price)
    && (k < |f| ==> if d.Buy? then f[k].price < o.price else f[k].price > o.price)
  }

  /** A good order may rest: it is a limit order and not immediate-or-cancel. */
  predicate MayStay(c: OrderCommand) {
    c.kind.Limit? && (c.tif.Day? || c.tif.Gtc?)
  }

  /** n orders and `part` of the next are all that the order may take of the other side. */
  ghost predicate Takes(f: seq<Order>, n: nat, part: int, d: Side, limit: int, quantity: int) {
    && n <= |f| && 0 <= part && (part > 0 ==> n < |f| && part < f[n].remaining)
    && 0 <= Total(f[..n]) + part <= quantity
    && (forall i :: 0 <= i < n + (if part > 0 then 1 else 0) ==> Crosses(d, limit, f[i].price))
    && (Total(f[..n]) + part < quantity ==> part == 0 && (n == |f| || !Crosses(d, limit, f[n].price)))
  }

  /** What is left of the books: the other side without what was taken, the own side with what stays. */
  ghost predicate BooksAfter(s: State, t: State, c: OrderCommand, n: nat, part: int, stays: Option<Order>)
    requires c.symbol in s.books && n <= |OtherSide(s, c)| && (part > 0 ==> n < |OtherSide(s, c)|) && part >= 0
  {
    && t.books.Keys == s.books.Keys
    && t.books[c.symbol].Orders(Opposite(c.side)) == AfterPrefix(OtherSide(s, c), n, part)
    && (if stays.Some?
        then Joined(c.side, s.books[c.symbol].Orders(c.side), t.books[c.symbol].Orders(c.side), stays.value)
        else t.books[c.symbol].Orders(c.side) == s.books[c.symbol].Orders(c.side))
    && forall other :: other in s.books && other != c.symbol ==> t.books[other] == s.books[other]
  }

  /** What a good order leaves behind and reports, having taken n orders and `part` of the next. */
  ghost predicate Traded(s: State, c: OrderCommand, r: Outcome, n: nat, part: int, time: nat)
    requires Good(s, c) && LiveSide(OtherSide(s, c))
  {
    var f := OtherSide(s, c);
    && Takes(f, n, part, c.side, PriceOf(c), c.quantity)
    && var left := c.quantity - Total(f[..n]) - part;
    && var o := OrderOf(c, left, time, s.sequence + 1);
    && var next := s.sequence + 2 + 2 * Touched(n, part);
    && Priced(o)
    && BooksAfter(s, r.state, c, n, part, if left > 0 && MayStay(c) then Some(o) else None)
    && r.state.registry == (if left > 0 && MayStay(c)
                            then (s.registry - Ids(f[..n]))[c.id := Location(c.symbol, c.side, o.price)]
                            else s.registry - Ids(f[..n]))
    && r.state.sequence == next + (if left > 0 then 1 else 0)
    && r.batch.reports
       == [OwnReport(o.(remaining := c.quantity), Accepted, "accepted", time, s.sequence + 2)]
          + PrefixReports(o.(remaining := c.quantity), f, n, part, time, s.sequence + 2)
          + (if left == 0 then []
             else if MayStay(c) then [OwnReport(o, Resting, "resting", time, next + 1)]
             else [OwnReport(o, Canceled, "unfilled_ioc_or_market_remainder", time, next + 1)])
    && r.batch.deltas
       == LevelDeltas(c.symbol, Opposite(c.side), f, Touched(n, part), AfterPrefix(f, n, part), time, s.sequence + 2, 2)
          + (if left > 0 && MayStay(c) then [JoinDelta(s, r.state, o, time, next)] else [])
  }

  /** The delta of an order that has joined its queue: an addition if its level was empty. */
  function JoinDelta(s: State, t: State, o: Order, time: nat, sequence: nat): BookDelta
    requires o.symbol in s.books && o.symbol in t.books
  {
    var g := t.books[o.symbol].Orders(o.side);
    BookDelta(o.symbol, if LevelCount(s.books[o.symbol].Orders(o.side), o.price) == 0 then Add else Modify,
              o.side, o.price,
              LevelQuantity(g, o.price), LevelCount(g, o.price), time, sequence)
  }

  /**
    A good order is accepted and takes a prefix of the other side in price-time
    order; what is left of it rests or is cancelled, and says so last.
   */
  lemma GoodOrderTrades(s: State, c: OrderCommand, now: Clock) returns (n: nat, part: int)
    requires WellFormed(s) && Good(s, c)
    ensures Sound(s) && LiveSide(OtherSide(s, c))
    ensures Traded(s, c, Submit(s, c, now), n, part, TimeOr(c.time, now))
  {
    WellFormedIsSound(s);
    hide *;
    GoodIsAccepted(s, c, now);
    var m, time := StartMatch(s, c, now), TimeOr(c.time, now);
    n, part := MatchIsPriceTime(m, time);
    MatchKeepsOrder(m, time);
    PrefixFits(m, Matched(m, time), n, part);
    SideIsOk(s, c.symbol, Opposite(c.side));
    PrefixIsReported(m, Matched(m, time), n, part, time);
    TakenPrefix(s, c, m, Matched(m, time), n, part, time);
    LeftOver(s, c, Matched(m, time), n, part, time);
    TradedBy(s, c, m, Matched(m, time), Submit(s, c, now), n, part, time);
  }

  lemma TradedBy(s: State, c: OrderCommand, m: Matching, r: Matching, t: Outcome, n: nat, part: int, time: nat)
    requires Good(s, c) && LiveSide(OtherSide(s, c)) && Takes(OtherSide(s, c), n, part, c.side, PriceOf(c), c.quantity)
    requires var f := OtherSide(s, c);
      r.incoming == OrderOf(c, c.quantity - Total(f[..n]) - part, time, s.sequence + 1) && Priced(r.incoming)
    requires r.sequence == s.sequence + 2 + 2 * Touched(n, part) && r.registry == s.registry - Ids(OtherSide(s, c)[..n])
    requires Priced(m.incoming) && m.incoming == OrderOf(c, c.quantity, time, s.sequence + 1)
    requires r.batch.reports == [OwnReport(m.incoming, Accepted, "accepted", time, s.sequence + 2)]
      + PrefixReports(m.incoming, OtherSide(s, c), n, part, time, s.sequence + 2)
    requires r.batch.deltas
      == LevelDeltas(c.symbol, Opposite(c.side), OtherSide(s, c), Touched(n, part),
                     AfterPrefix(OtherSide(s, c), n, part),
                     time, s.sequence + 2, 2)
    requires Settled(s, c, t, r, n, part, time)
    ensures Traded(s, c, t, n, part, time)
  {
    hide Good, LiveSide, Takes, Total, Ids, PriceOf, PrefixReports, BooksAfter, OwnReport, AfterPrefix;
  }

  lemma GoodIsAccepted(s: State, c: OrderCommand, now: Clock)
    requires WellFormed(s) && Sound(s) && Good(s, c)
    ensures Refusal(s, c).None? && EffectiveTime(c.time, now) == TimeOr(c.time, now)
    ensures var m, time := StartMatch(s, c, now), TimeOr(c.time, now);
      var o := OrderOf(c, c.quantity, time, s.sequence + 1);
      && Tradable(m) && m.incoming == o && Priced(o) && m.resting == OtherSide(s, c) && LiveSide(m.resting)
      && m.registry == s.registry && m.sequence == s.sequence + 2 && m.incoming.remaining >= 0
      && m.batch.reports == [OwnReport(o, Accepted, "accepted", time, s.sequence + 2)] && m.batch.deltas == []
      && Submit(s, c, now).batch == (MatchKeepsOrder(m, time);
                                     Remainder(AfterMatch(s, c, Matched(m, time)), Matched(m, time), time).batch)
      && Submit(s, c, now).state == Remainder(AfterMatch(s, c, Matched(m, time)), Matched(m, time), time).state
  {
    hide WellFormed, Matched;
  }

  lemma PrefixFits(m: Matching, r: Matching, n: nat, part: int)
    requires Tradable(m) && PriceTimeFill(m, r, n, part)
    ensures n <= |m.resting| && (part != 0 ==> n < |m.resting|)
  {
  }

  lemma PrefixIsReported(m: Matching, r: Matching, n: nat, part: int, time: nat)
    requires Tradable(m) && n <= |m.resting| && (part != 0 ==> n < |m.resting|) && part >= 0
    requires ReportsPrefix(m, r, n, part, time) && DeltasPrefix(m, r, n, part, time)
    ensures r.batch.reports == m.batch.reports + PrefixReports(m.incoming, m.resting, n, part, time, m.sequence)
    ensures r.batch.deltas == m.batch.deltas
      + LevelDeltas(m.incoming.symbol, Opposite(m.incoming.side), m.resting, Touched(n, part),
                    AfterPrefix(m.resting, n, part), time, m.sequence, 2)
  {
  }

  lemma TakenPrefix(s: State, c: OrderCommand, m: Matching, r: Matching, n: nat, part: int, time: nat)
    requires Good(s, c) && m.resting == OtherSide(s, c) && Tradable(m)
    requires m.incoming == OrderOf(c, c.quantity, time, s.sequence + 1) && PriceTimeFill(m, r, n, part)
    ensures Takes(OtherSide(s, c), n, part, c.side, PriceOf(c), c.quantity)
    ensures r.resting == AfterPrefix(OtherSide(s, c), n, part) && r.registry == m.registry - Ids(OtherSide(s, c)[..n])
    ensures r.incoming == OrderOf(c, c.quantity - Total(OtherSide(s, c)[..n]) - part, time, s.sequence + 1)
    ensures r.sequence == m.sequence + 2 * Touched(n, part)
  {
    FrontNotNegative(m.resting, n);
    hide Crosses, Ids, Total;
  }

  /** After matching: the remainder rests, or is cancelled, or there is none. */
  ghost predicate Settled(s: State, c: OrderCommand, t: Outcome, r: Matching, n: nat, part: int, time: nat)
    requires Good(s, c) && Takes(OtherSide(s, c), n, part, c.side, PriceOf(c), c.quantity) && Priced(r.incoming)
    requires r.incoming.symbol == c.symbol
  {
    var left, o := r.incoming.remaining, r.incoming;
    && BooksAfter(s, t.state, c, n, part, if left > 0 && MayStay(c) then Some(o) else None)
    && t.state.registry == (if left > 0 && MayStay(c) then r.registry[c.id := Location(c.symbol, c.side, o.price)]
                            else r.registry)
    && t.state.sequence == r.sequence + (if left > 0 then 1 else 0)
    && t.batch.reports == r.batch.reports
         + (if left == 0 then []
            else if MayStay(c) then [OwnReport(o, Resting, "resting", time, r.sequence + 1)]
            else [OwnReport(o, Canceled, "unfilled_ioc_or_market_remainder", time, r.sequence + 1)])
    && t.batch.deltas == r.batch.deltas
         + (if left > 0 && MayStay(c) then [JoinDelta(s, t.state, o, time, r.sequence)] else [])
  }

  lemma LeftOver(s: State, c: OrderCommand, r: Matching, n: nat, part: int, time: nat)
    requires WellFormed(s) && Sound(s) && Good(s, c) && LiveSide(OtherSide(s, c))
    requires Takes(OtherSide(s, c), n, part, c.side, PriceOf(c), c.quantity)
    requires r.resting == AfterPrefix(OtherSide(s, c), n, part) && r.registry == s.registry - Ids(OtherSide(s, c)[..n])
    requires r.incoming == OrderOf(c, c.quantity - Total(OtherSide(s, c)[..n]) - part, time, s.sequence + 1)
    requires Priced(r.incoming) && r.sequence == s.sequence + 2 + 2 * Touched(n, part)
    ensures r.incoming.symbol in AfterMatch(s, c, r).books
    ensures Settled(s, c, Remainder(AfterMatch(s, c, r), r, time), r, n, part, time)
  {
    hide WellFormed, Sound, LiveSide, Takes, Ids, Total, AfterPrefix, PriceOf, Insert, LevelCount, LevelQuantity;
    var own, o := s.books[c.symbol].Orders(c.side), r.incoming;
    JoinsBehind(c.side, own, o);
    assert r.batch.reports + [] == r.batch.reports;
    assert o.remaining >= 0 by { TakesAll(OtherSide(s, c), n, part, c.side, PriceOf(c), c.quantity); }
  }

  lemma TakesAll(f: seq<Order>, n: nat, part: int, d: Side, limit: int, quantity: int)
    requires Takes(f, n, part, d, limit, quantity)
    ensures n <= |f| && Total(f[..n]) + part <= quantity
  {
  }

  lemma JoinsBehind(d: Side, f: seq<Order>, o: Order)
    ensures Joined(d, f, Insert(d, f, o), o)
  {
    var k := InsertAt(d, f, o);
    hide Insert;
    assert JoinedAt(d, f, Insert(d, f, o), o, k);
  }

  // ---------- replace ----------

  /** The order as the command wants it back: price and quantity given or kept, everything else kept. */
  function Amended(o: Order, c: ReplaceCommand, time: nat): OrderCommand
    requires Priced(o)
  {
    OrderCommand(o.id, o.symbol, o.side, o.kind, o.tif, if c.price.Some? then c.price.value else Ticks(o.price),
                 if c.quantity.Some? then c.quantity.value else o.remaining, time, o.metadata)
  }

  /** A registered order is taken out and submitted again, amended; the first report says what was left of it. */
  lemma ReplaceResubmits(s: State, c: ReplaceCommand, now: Clock) returns (k: nat, t: State)
    requires WellFormed(s) && c.id in s.registry
    ensures Sound(s) && Locatable(s) && s.registry[c.id].symbol in s.books && WellFormed(t) && Sound(t)
    ensures k < |QueueOf(s, c.id)| && TakenOut(s, t, c.id, k)
    ensures var o, time := QueueOf(s, c.id)[k], TimeOr(c.time, now);
      && Priced(o) && o.kind.Limit? && !o.tif.Ioc? && o.remaining > 0
      && var r, again := Replace(s, c, now), Submit(t, Amended(o, c, time), now);
      && r.state == again.state
      && r.batch.reports == [OwnReport(o, Replaced, "cancel_replace", time, s.sequence + 1)] + again.batch.reports
      && r.batch.deltas == [LevelDelta(o.symbol, o.side, o.price, TakeAt(QueueOf(s, c.id), k), time, s.sequence)]
                           + again.batch.deltas
  {
    hide *;
    k := VacatedIsTakenOut(s, c, now);
    t := Vacated(s, c, now);
    VacatedOk(s, c, now);
    WellFormedIsSound(t);
    ResubmitIs(s, c, now, k);
  }

  lemma VacatedIsTakenOut(s: State, c: ReplaceCommand, now: Clock) returns (k: nat)
    requires WellFormed(s) && c.id in s.registry
    ensures Sound(s) && Locatable(s) && s.registry[c.id].symbol in s.books
    ensures k < |QueueOf(s, c.id)| && TakenOut(s, Vacated(s, c, now), c.id, k)
    ensures var o := QueueOf(s, c.id)[k];
      && Priced(o) && o.kind.Limit? && !o.tif.Ioc? && o.remaining > 0
      && o.symbol == s.registry[c.id].symbol && o.side == s.registry[c.id].side && o.price == s.registry[c.id].price
      && o == Located(s, c.id) && Without(QueueOf(s, c.id), c.id) == TakeAt(QueueOf(s, c.id), k)
  {
    hide QueueOf, TakenOut, Remove, WellFormed, Sound, Locatable, Located, Without, TakeAt;
    k := RemovedIsTakenOut(s, c.id, EffectiveTime(c.time, now));
  }

  lemma ResubmitIs(s: State, c: ReplaceCommand, now: Clock, k: nat)
    requires WellFormed(s) && Sound(s) && Locatable(s) && c.id in s.registry && s.registry[c.id].symbol in s.books
    requires Sound(Vacated(s, c, now)) && k < |QueueOf(s, c.id)| && TakenOut(s, Vacated(s, c, now), c.id, k)
    requires Priced(QueueOf(s, c.id)[k]) && QueueOf(s, c.id)[k] == Located(s, c.id)
    requires var at, o := s.registry[c.id], Located(s, c.id);
      o.symbol == at.symbol && o.side == at.side && o.price == at.price
    requires Without(QueueOf(s, c.id), c.id) == TakeAt(QueueOf(s, c.id), k)
    ensures var o, time := QueueOf(s, c.id)[k], TimeOr(c.time, now);
      && var r, again := Replace(s, c, now), Submit(Vacated(s, c, now), Amended(o, c, time), now);
      && r.state == again.state
      && r.batch.reports == [OwnReport(o, Replaced, "cancel_replace", time, s.sequence + 1)] + again.batch.reports
      && r.batch.deltas == [LevelDelta(o.symbol, o.side, o.price, TakeAt(QueueOf(s, c.id), k), time, s.sequence)]
                           + again.batch.deltas
  {
    hide *;
    var o, time := QueueOf(s, c.id)[k], TimeOr(c.time, now);
    var again := Submit(Vacated(s, c, now), Amended(o, c, time), now);
    ReplaceParts(s, c, now);
    RemoveTells(s, c.id, time, k);
    assert ([] + [OwnReport(o, Replaced, "cancel_replace", time, s.sequence + 1)]) + again.batch.reports
      == [OwnReport(o, Replaced, "cancel_replace", time, s.sequence + 1)] + again.batch.reports;
  }

  lemma ReplaceParts(s: State, c: ReplaceCommand, now: Clock)
    requires WellFormed(s) && Sound(s) && Locatable(s) && c.id in s.registry && Sound(Vacated(s, c, now))
    requires Priced(Located(s, c.id))
    ensures var o, time := Located(s, c.id), TimeOr(c.time, now);
      var r, removed := Replace(s, c, now), Remove(s, c.id, time).batch;
      var again := Submit(Vacated(s, c, now), Amended(o, c, time), now);
      && r.state == again.state
      && r.batch.reports == (removed.reports + [OwnReport(o, Replaced, "cancel_replace", time, s.sequence + 1)])
                            + again.batch.reports
      && r.batch.deltas == removed.deltas + again.batch.deltas
  {
    var time := TimeOr(c.time, now);
    assert EffectiveTime(c.time, now) == time;
    assert Amended(Located(s, c.id), c, time) == ReplacementOf(Located(s, c.id), c, time);
    hide Submit, WellFormed, Remove, Located, Sound, Locatable, Amended, ReplacementOf;
  }

  lemma RemoveTells(s: State, id: string, time: nat, k: nat)
    requires Locatable(s) && id in s.registry && s.registry[id].symbol in s.books && k < |QueueOf(s, id)|
    requires Without(QueueOf(s, id), id) == TakeAt(QueueOf(s, id), k)
    ensures var at, b := s.registry[id], Remove(s, id, time).batch;
      && b.reports == []
      && b.deltas == [LevelDelta(at.symbol, at.side, at.price, TakeAt(QueueOf(s, id), k), time, s.sequence)]
  {
    NothingAtALevel(TakeAt(QueueOf(s, id), k), s.registry[id].price);
    hide LevelQuantity, LevelCount, Without, Locatable, TakeAt;
  }

  /**
    A replacement that names no bad price and no bad quantity is accepted and
    trades like any good order, from the state without the old one.
   */
  lemma GoodReplacementTrades(s: State, c: ReplaceCommand, now: Clock) returns (k: nat, t: State, n: nat, part: int)
    requires WellFormed(s) && c.id in s.registry
    ensures Sound(s) && Locatable(s) && s.registry[c.id].symbol in s.books && WellFormed(t)
    ensures k < |QueueOf(s, c.id)| && TakenOut(s, t, c.id, k)
    ensures var o, time := QueueOf(s, c.id)[k], TimeOr(c.time, now);
      && Priced(o) && o.kind.Limit? && !o.tif.Ioc?
      && var again := Amended(o, c, time);
      && (Good(t, again) <==> !BadReplacement(c))
      && (Good(t, again) ==>
            && LiveSide(OtherSide(t, again))
            && exists r: Outcome ::
                 && Traded(t, again, r, n, part, time)
                 && Replace(s, c, now).state == r.state
                 && Replace(s, c, now).batch.deltas
                    == [LevelDelta(o.symbol, o.side, o.price, TakeAt(QueueOf(s, c.id), k), time, s.sequence)]
                      + r.batch.deltas
                 && Replace(s, c, now).batch.reports
                    == [OwnReport(o, Replaced, "cancel_replace", time, s.sequence + 1)] + r.batch.reports)
  {
    hide *;
    k, t := ReplaceResubmits(s, c, now);
    var o, time := QueueOf(s, c.id)[k], TimeOr(c.time, now);
    var again := Amended(o, c, time);
    AmendedIsGood(s, t, k, c, time);
    if Good(t, again) {
      n, part := GoodOrderTrades(t, again, now);
      SameTime(o, c, time, now);
    } else {
      n, part := 0, 0;
    }
  }

  lemma SameTime(o: Order, c: ReplaceCommand, time: nat, now: Clock)
    requires Priced(o) && time == TimeOr(c.time, now)
    ensures TimeOr(Amended(o, c, time).time, now) == time
  {
  }

  lemma AmendedIsGood(s: State, t: State, k: nat, c: ReplaceCommand, time: nat)
    requires WellFormed(s) && c.id in s.registry && s.registry[c.id].symbol in s.books && k < |QueueOf(s, c.id)|
    requires TakenOut(s, t, c.id, k) && Priced(QueueOf(s, c.id)[k])
    requires QueueOf(s, c.id)[k].kind.Limit? && QueueOf(s, c.id)[k].remaining > 0
    ensures Good(t, Amended(QueueOf(s, c.id)[k], c, time)) <==> !BadReplacement(c)
  {
    var at := s.registry[c.id];
    assert BookOk(s, at.symbol);
    assert MayRest(QueueOf(s, c.id)[k], at.symbol, at.side, s.sequence);
    hide WellFormed, BookOk;
  }

  /** The order that rests again: its price and quantity given or kept, its side, time in force and tags kept. */
  function Renewed(o: Order, c: ReplaceCommand, time: nat, sequence: nat): Order
    requires !BadReplacement(c)
  {
    var quantity := if c.quantity.Some? then c.quantity.value else o.remaining;
    Order(o.id, o.symbol, o.side, Limit, o.tif, if c.price.Some? then c.price.value.ticks else o.price,
          quantity, quantity, time, sequence, o.metadata)
  }

  /** A good replacement that crosses nothing rests again, and says so. */
  lemma ReplacementRests(s: State, c: ReplaceCommand, now: Clock) returns (k: nat)
    requires WellFormed(s) && c.id in s.registry && !BadReplacement(c)
    ensures Sound(s) && Locatable(s) && s.registry[c.id].symbol in s.books && k < |QueueOf(s, c.id)|
    ensures var at, old_, time := s.registry[c.id], QueueOf(s, c.id)[k], TimeOr(c.time, now);
      && old_.id == c.id && Priced(old_)
      && var o, other := Renewed(old_, c, time, s.sequence + 2), s.books[at.symbol].Orders(Opposite(at.side));
      && Priced(o)
      && (other == [] || !Crosses(at.side, o.price, other[0].price) ==>
            && Replace(s, c, now).batch.reports == [
                 OwnReport(old_, Replaced, "cancel_replace", time, s.sequence + 1),
                 OwnReport(o, Accepted, "accepted", time, s.sequence + 3),
                 OwnReport(o, Resting, "resting", time, s.sequence + 4)]
            && Replace(s, c, now).state.registry == s.registry[c.id := Location(at.symbol, at.side, o.price)]
            && at.symbol in Replace(s, c, now).state.books
            && Joined(at.side, TakeAt(QueueOf(s, c.id), k), Replace(s, c, now).state.books[at.symbol].Orders(at.side),
                      o)
            && Replace(s, c, now).state.books[at.symbol].Orders(Opposite(at.side)) == other)
  {
    hide *;
    var t, n, part;
    k, t, n, part := GoodReplacementTrades(s, c, now);
    var o, time := QueueOf(s, c.id)[k], TimeOr(c.time, now);
    RenewedIs(s, t, k, c, time);
    var again := Amended(o, c, time);
    var r :| && Traded(t, again, r, n, part, time)
             && Replace(s, c, now).state == r.state
             && Replace(s, c, now).batch.reports
                == [OwnReport(o, Replaced, "cancel_replace", time, s.sequence + 1)] + r.batch.reports;
    if OtherSide(t, again) == [] || !Crosses(again.side, PriceOf(again), OtherSide(t, again)[0].price) {
      TakesNothing(t, again, r, n, part, time);
    }
  }

  /** A replaced order's queues: the other side stays, the own side lacks the old order. */
  lemma RenewedIs(s: State, t: State, k: nat, c: ReplaceCommand, time: nat)
    requires c.id in s.registry && s.registry[c.id].symbol in s.books && k < |QueueOf(s, c.id)|
    requires TakenOut(s, t, c.id, k) && Priced(QueueOf(s, c.id)[k]) && !BadReplacement(c)
    requires QueueOf(s, c.id)[k].kind.Limit? && !QueueOf(s, c.id)[k].tif.Ioc?
    requires Good(t, Amended(QueueOf(s, c.id)[k], c, time))
    ensures var at, o := s.registry[c.id], QueueOf(s, c.id)[k];
      var again := Amended(o, c, time);
      && o.id == c.id && MayStay(again) && again.symbol in t.books && again.price.Ticks?
      && again.symbol == at.symbol && again.side == at.side && t.sequence == s.sequence + 1
      && OtherSide(t, again) == s.books[at.symbol].Orders(Opposite(at.side))
      && t.books[at.symbol].Orders(at.side) == TakeAt(QueueOf(s, c.id), k)
      && OrderOf(again, again.quantity, time, s.sequence + 2) == Renewed(o, c, time, s.sequence + 2)
      && Priced(Renewed(o, c, time, s.sequence + 2)) && PriceOf(again) == Renewed(o, c, time, s.sequence + 2).price
      && t.registry == s.registry - {c.id} && again.id == c.id
  {
  }

  /** An order that may stay, and that nothing crosses, rests whole. */
  lemma TakesNothing(t: State, c: OrderCommand, r: Outcome, n: nat, part: int, time: nat)
    requires Good(t, c) && LiveSide(OtherSide(t, c)) && Traded(t, c, r, n, part, time) && MayStay(c)
    requires OtherSide(t, c) == [] || !Crosses(c.side, PriceOf(c), OtherSide(t, c)[0].price)
    ensures var o := OrderOf(c, c.quantity, time, t.sequence + 1);
      && Priced(o)
      && r.batch.reports
         == [OwnReport(o, Accepted, "accepted", time, t.sequence + 2),
             OwnReport(o, Resting, "resting", time, t.sequence + 3)]
      && r.state.registry == t.registry[c.id := Location(c.symbol, c.side, o.price)]
      && c.symbol in r.state.books
      && Joined(c.side, t.books[c.symbol].Orders(c.side), r.state.books[c.symbol].Orders(c.side), o)
      && r.state.books[c.symbol].Orders(Opposite(c.side)) == OtherSide(t, c)
  {
    hide Crosses, Joined;
    assert n == 0 && part == 0;
    assert OtherSide(t, c)[..0] == [] && Ids([]) == {} && t.registry - {} == t.registry;
  }

  /** A replacement of an id that is not registered changes nothing. */
  lemma ReplaceOfNothing(s: State, c: ReplaceCommand, now: Clock)
    requires WellFormed(s) && c.id !in s.registry
    ensures Sound(s) && Locatable(s)
    ensures var r := Replace(s, c, now);
      && r.state == State(s.books, s.registry, s.sequence + 1)
      && r.batch == Batch([NothingFound(c.id, TimeOr(c.time, now), s.sequence + 1)], [])
  {
    WellFormedIsSound(s);
  }

  // ---------- market data ----------

  /** The market is above a resting bid: it has neither traded nor is it offered at the bid's price or below. */
  predicate BidStands(tick: MarketDataTick, price: int) {
    && (tick.last.Some? ==> tick.last.value > price)
    && (tick.bestAsk.Some? ==> tick.bestAsk.value > price)
  }

  /** The market is below a resting offer: it has neither traded nor is it bid at the offer's price or above. */
  predicate AskStands(tick: MarketDataTick, price: int) {
    && (tick.last.Some? ==> tick.last.value < price)
    && (tick.bestBid.Some? ==> tick.bestBid.value < price)
  }

  /** Exactly the bids from k on stand. */
  ghost predicate BidsSplit(tick: MarketDataTick, bids: seq<Order>, k: nat) {
    forall i :: 0 <= i < |bids| ==> (BidStands(tick, bids[i].price) <==> i >= k)
  }

  ghost predicate AsksSplit(tick: MarketDataTick, asks: seq<Order>, l: nat) {
    forall i :: 0 <= i < |asks| ==> (AskStands(tick, asks[i].price) <==> i >= l)
  }

  /** The first l offers and k bids are filled, in full and at their own prices; the others stay as they are. */
  ghost predicate Swept(s: State, symbol: string, r: Outcome, k: nat, l: nat, time: nat)
    requires symbol in s.books && k <= |s.books[symbol].bids| && l <= |s.books[symbol].asks|
    requires LiveSide(s.books[symbol].bids[..k]) && LiveSide(s.books[symbol].asks[..l])
  {
    var b := s.books[symbol];
    && r.state.books == s.books[symbol := Book(b.bids[k..], b.asks[l..])]
    && r.state.registry == s.registry - Ids(b.asks[..l]) - Ids(b.bids[..k])
    && r.state.sequence == s.sequence + l + k
    && r.batch.reports == SweepReports(b.asks[..l], time, s.sequence) + SweepReports(b.bids[..k], time, s.sequence + l)
    && r.batch.deltas == LevelDeltas(symbol, Sell, b.asks, l, b.asks[l..], time, s.sequence, 1)
                         + LevelDeltas(symbol, Buy, b.bids, k, b.bids[k..], time, s.sequence + l, 1)
  }

  /** A tick fills exactly the orders that do not stand, offers first. */
  lemma TickFillsThrough(s: State, tick: MarketDataTick, now: Clock) returns (k: nat, l: nat)
    requires WellFormed(s) && tick.symbol in s.books
    ensures Sound(s)
    ensures var b := s.books[tick.symbol];
      && k <= |b.bids| && l <= |b.asks| && LiveSide(b.bids[..k]) && LiveSide(b.asks[..l])
      && BidsSplit(tick, b.bids, k) && AsksSplit(tick, b.asks, l)
      && Swept(s, tick.symbol, ApplyTick(s, tick, now), k, l, TimeOr(tick.time, now))
  {
    WellFormedIsSound(s);
    SideIsOk(s, tick.symbol, Buy);
    SideIsOk(s, tick.symbol, Sell);
    hide *;
    var b, time := s.books[tick.symbol], TimeOr(tick.time, now);
    BothSides(b);
    var w := Sweeping(b.asks, s.registry, s.sequence, EMPTY);
    l := SideIsSwept(w, tick.symbol, Sell, tick, time);
    var asks := Sweep(w, tick.symbol, Sell, tick, time);
    var v := Sweeping(b.bids, asks.registry, asks.sequence, asks.batch);
    k := SideIsSwept(v, tick.symbol, Buy, tick, time);
    TickSweeps(s, tick, now);
    SweptBy(s, tick.symbol, asks, Sweep(v, tick.symbol, Buy, tick, time), ApplyTick(s, tick, now), k, l, time);
  }

  lemma SweptBy(s: State, symbol: string, asks: Sweeping, bids: Sweeping, r: Outcome, k: nat, l: nat, time: nat)
    requires symbol in s.books && k <= |s.books[symbol].bids| && l <= |s.books[symbol].asks|
    requires LiveSide(s.books[symbol].bids[..k]) && LiveSide(s.books[symbol].asks[..l])
    requires r.state == State(s.books[symbol := Book(bids.resting, asks.resting)], bids.registry, bids.sequence)
    requires r.batch == bids.batch && asks.resting == s.books[symbol].asks[l..]
      && bids.resting == s.books[symbol].bids[k..]
    requires asks.registry == s.registry - Ids(s.books[symbol].asks[..l]) && asks.sequence == s.sequence + l
    requires bids.registry == asks.registry - Ids(s.books[symbol].bids[..k]) && bids.sequence == asks.sequence + k
    requires asks.batch.reports == EMPTY.reports + SweepReports(s.books[symbol].asks[..l], time, s.sequence)
    requires bids.batch.reports == asks.batch.reports + SweepReports(s.books[symbol].bids[..k], time, asks.sequence)
    requires var b := s.books[symbol];
      && asks.batch.deltas == EMPTY.deltas + LevelDeltas(symbol, Sell, b.asks, l, b.asks[l..], time, s.sequence, 1)
      && bids.batch.deltas
         == asks.batch.deltas + LevelDeltas(symbol, Buy, b.bids, k, b.bids[k..], time, asks.sequence, 1)
    ensures Swept(s, symbol, r, k, l, time)
  {
    hide SweepReports, Ids, LiveSide, LevelDeltas;
    var sold := SweepReports(s.books[symbol].asks[..l], time, s.sequence);
    assert EMPTY.reports + sold == sold;
    var told := LevelDeltas(symbol, Sell, s.books[symbol].asks, l, s.books[symbol].asks[l..], time, s.sequence, 1);
    assert EMPTY.deltas + told == told;
  }

  lemma BothSides(b: Book)
    ensures b.Orders(Buy) == b.bids && b.Orders(Sell) == b.asks && EMPTY.reports == []
    ensures Opposite(Buy) == Sell && Opposite(Sell) == Buy
  {
  }

  /** One side: the orders in front that do not stand are filled, and all behind them stand. */
  lemma SideIsSwept(w: Sweeping, symbol: string, d: Side, tick: MarketDataTick, time: nat) returns (k: nat)
    requires LiveSide(w.resting) && InOrder(d, w.resting)
    ensures k <= |w.resting| && LiveSide(w.resting[..k])
    ensures var r, f := Sweep(w, symbol, d, tick, time), w.resting;
      && r.resting == f[k..] && r.registry == w.registry - Ids(f[..k]) && r.sequence == w.sequence + k
      && r.batch.reports == w.batch.reports + SweepReports(f[..k], time, w.sequence)
      && r.batch.deltas == w.batch.deltas + LevelDeltas(symbol, d, f, k, f[k..], time, w.sequence, 1)
    ensures d.Buy? ==> BidsSplit(tick, w.resting, k)
    ensures d.Sell? ==> AsksSplit(tick, w.resting, k)
  {
    k := SweepIsFilter(w, symbol, d, tick, time);
    FrontIsLive(w.resting, k);
    hide Sweep, Untriggered, LiveSide, InOrder, SweepReports, Ids;
  }

  lemma TickSweeps(s: State, tick: MarketDataTick, now: Clock)
    requires WellFormed(s) && Sound(s) && tick.symbol in s.books
    requires LiveSide(s.books[tick.symbol].bids) && LiveSide(s.books[tick.symbol].asks)
    ensures var time, b := TimeOr(tick.time, now), s.books[tick.symbol];
      var asks := Sweep(Sweeping(b.asks, s.registry, s.sequence, EMPTY), tick.symbol, Sell, tick, time);
      var bids := Sweep(Sweeping(b.bids, asks.registry, asks.sequence, asks.batch), tick.symbol, Buy, tick, time);
      && ApplyTick(s, tick, now).state
         == State(s.books[tick.symbol := Book(bids.resting, asks.resting)], bids.registry, bids.sequence)
      && ApplyTick(s, tick, now).batch == bids.batch
  {
    assert EffectiveTime(tick.time, now) == TimeOr(tick.time, now);
    hide WellFormed, Sound, Sweep, LiveSide;
  }

  lemma FrontIsLive(f: seq<Order>, n: nat)
    requires LiveSide(f) && n <= |f|
    ensures LiveSide(f[..n])
  {
    assert forall i :: 0 <= i < n ==> f[..n][i] == f[i];
  }

  /** A quote between the best bid and the best offer, without a trade, changes nothing. */
  lemma QuoteInsideTheSpread(s: State, tick: MarketDataTick, now: Clock)
    requires WellFormed(s) && tick.symbol in s.books && tick.last.None?
    requires var b := s.books[tick.symbol];
      && (tick.bestAsk.Some? && b.bids != [] ==> tick.bestAsk.value > b.bids[0].price)
      && (tick.bestBid.Some? && b.asks != [] ==> tick.bestBid.value < b.asks[0].price)
    ensures Sound(s) && ApplyTick(s, tick, now) == Outcome(s, EMPTY)
  {
    WellFormedIsSound(s);
    var b := s.books[tick.symbol];
    assert b.Orders(Buy) == b.bids && b.Orders(Sell) == b.asks;
    hide WellFormed, Sound;
    assert s.books[tick.symbol := Book(b.bids, b.asks)] == s.books;
  }

  /** A tick of an unknown symbol changes nothing. */
  lemma TickOfNothing(s: State, tick: MarketDataTick, now: Clock)
    requires WellFormed(s) && tick.symbol !in s.books
    ensures Sound(s) && ApplyTick(s, tick, now) == Outcome(s, EMPTY)
  {
    WellFormedIsSound(s);
  }
}
