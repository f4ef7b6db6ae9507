/**
  The deltas of the exchange, folded by the terminal, give back the exchange's
  aggregated book.
 */
module DeltaReplay {
  import opened Orders
  import opened BookSpec
  import opened BookInvariant
  import opened Levels
  import opened Runs
  import opened ReportLog
  import opened ClientBook
  import opened Priority

  /** A delta as the terminal receives it. */
  function Wire(d: BookDelta): GatewayBookDelta {
    GatewayBookDelta(Some(d.action), Some(if d.side.Buy? then CodeB else CodeS),
                     Some(if d.side.Buy? then WireBuy else WireSell),
                     Some(d.price), Some(d.quantity), Some(d.orders))
  }

  /** The stream of one symbol. */
  function StreamOf(symbol: string, deltas: seq<BookDelta>): seq<GatewayBookDelta> {
    if deltas == [] then []
    else
      var n := |deltas| - 1;
      StreamOf(symbol, deltas[..n]) + if deltas[n].symbol == symbol then [Wire(deltas[n])] else []
  }

  lemma {:induction false} StreamAppend(symbol: string, a: seq<BookDelta>, b: seq<BookDelta>)
    ensures StreamOf(symbol, a + b) == StreamOf(symbol, a) + StreamOf(symbol, b)
  {
    if b == [] {
      assert a + b == a;
    } else {
      var n := |b| - 1;
      StreamAppend(symbol, a, b[..n]);
      assert (a + b)[..|a + b| - 1] == a + b[..n];
    }
  }

  function Keys(f: seq<Order>): set<PriceKey> {
    set i | 0 <= i < |f| :: Key(f[i].price)
  }

  /** One side, level by level. */
  function Aggregate(f: seq<Order>): LevelMap {
    map k | k in Keys(f) :: OrderBookLevel(k.price, LevelQuantity(f, k.price), LevelCount(f, k.price))
  }

  function AggregateBook(b: Book): GatewayBookState {
    GatewayBookState(Aggregate(b.bids), Aggregate(b.asks))
  }

  /** m shows the level at `price` exactly as f has it. */
  predicate ShowsAt(m: LevelMap, f: seq<Order>, price: int) {
    if LevelCount(f, price) > 0 then
      Key(price) in m && m[Key(price)] == OrderBookLevel(price, LevelQuantity(f, price), LevelCount(f, price))
    else Key(price) !in m
  }

  ghost predicate Shows(m: LevelMap, f: seq<Order>) {
    forall price {:trigger ShowsAt(m, f, price)} :: ShowsAt(m, f, price)
  }

  lemma {:induction false} CountedIsPresent(f: seq<Order>, price: int)
    ensures LevelCount(f, price) > 0 <==> Key(price) in Keys(f)
  {
    if f != [] {
      CountedIsPresent(f[1..], price);
      if Key(price) in Keys(f[1..]) {
        var i :| 0 <= i < |f[1..]| && Key(f[1..][i].price) == Key(price);
        assert f[i + 1].price == price;
      }
      if Key(price) in Keys(f) && f[0].price != price {
        var i :| 0 <= i < |f| && Key(f[i].price) == Key(price);
        assert f[1..][i - 1].price == price;
      }
    }
  }

  /** There is one map that shows a side: its aggregate. */
  lemma ShowsIsAggregate(m: LevelMap, f: seq<Order>)
    ensures Shows(m, f) <==> m == Aggregate(f)
  {
    forall price
      ensures ShowsAt(Aggregate(f), f, price)
    {
      CountedIsPresent(f, price);
    }
    if Shows(m, f) {
      forall k: PriceKey
        ensures k in m <==> k in Aggregate(f)
        ensures k in m ==> m[k] == Aggregate(f)[k]
      {
        assert ShowsAt(m, f, k.price);
        CountedIsPresent(f, k.price);
        assert k == Key(k.price);
      }
      SameEntries(m, Aggregate(f));
    }
  }

  // ---------- the effect of one delta ----------

  /** The orders of every level are positive in number and in quantity. */
  lemma {:induction false} LevelsArePositive(f: seq<Order>, price: int)
    requires LiveSide(f)
    ensures LevelCount(f, price) > 0 <==> LevelQuantity(f, price) > 0
    ensures LevelCount(f, price) == 0 ==> LevelQuantity(f, price) == 0
  {
    if f != [] {
      assert Live(f[0]);
      LevelsArePositive(f[1..], price);
    }
  }

  /** A delta with the level's totals makes the level right and touches no other. */
  lemma DeltaShows(m: LevelMap, f: seq<Order>, symbol: string, d: Side, price: int, action: BookDeltaAction,
                   time: nat, sequence: nat, book: GatewayBookState)
    requires LiveSide(f) && (action.Delete? <==> LevelCount(f, price) == 0) && book.Levels(d) == m
    requires forall other {:trigger ShowsAt(m, f, other)} :: other != price ==> ShowsAt(m, f, other)
    ensures var r := ApplyDelta(book, Wire(DeltaFor(symbol, d, price, f, action, time, sequence)));
      Shows(r.Levels(d), f) && r.Levels(Opposite(d)) == book.Levels(Opposite(d))
  {
    var delta := DeltaFor(symbol, d, price, f, action, time, sequence);
    assert SideTarget(Wire(delta)) == d;
    LevelsArePositive(f, price);
    var r := ApplyDelta(book, Wire(delta)).Levels(d);
    forall other
      ensures ShowsAt(r, f, other)
    {
      if other != price { assert ShowsAt(m, f, other); }
    }
  }

  // ---------- matching ----------

  /** Exact except for the level being worked on. */
  ghost predicate ShowsBut(m: LevelMap, f: seq<Order>, price: int) {
    forall other {:trigger ShowsAt(m, f, other)} :: other != price ==> ShowsAt(m, f, other)
  }

  lemma OtherLevelsStay(m: LevelMap, f: seq<Order>, g: seq<Order>, price: int)
    requires ShowsBut(m, f, price) && f != [] && f[0].price == price
    requires g == f[1..] || (g != [] && g[0].price == price && g[1..] == f[1..])
    ensures ShowsBut(m, g, price)
  {
    forall other | other != price
      ensures ShowsAt(m, g, other)
    {
      assert ShowsAt(m, f, other);
    }
  }

  /** When the next order has another price, nothing of the level is left. */
  lemma LevelIsGone(f: seq<Order>, d: Side)
    requires f != [] && InOrder(d, f) && (|f| == 1 || f[1].price != f[0].price)
    ensures LevelCount(f[1..], f[0].price) == 0
  {
    forall i | 0 <= i < |f[1..]|
      ensures f[1..][i].price != f[0].price
    {
      assert Before(d, f[0], f[1]);
      if i > 0 { assert Before(d, f[1], f[i + 1]); }
    }
    LevelSumsNone(f[1..], f[0].price);
  }

  /** What the terminal has while an order matches. */
  ghost predicate MatchShown(base: GatewayBookState, m: Matching) {
    var d := Opposite(m.incoming.side);
    var c := ApplyDeltas(base, StreamOf(m.incoming.symbol, m.batch.deltas));
    && c.Levels(m.incoming.side) == base.Levels(m.incoming.side)
    && (Shows(c.Levels(d), m.resting)
        || (CanMatch(m) && ShowsBut(c.Levels(d), m.resting, m.resting[0].price)))
  }

  lemma StreamSnoc(symbol: string, a: seq<BookDelta>, d: BookDelta, base: GatewayBookState)
    requires d.symbol == symbol
    ensures ApplyDeltas(base, StreamOf(symbol, a + [d])) == ApplyDelta(ApplyDeltas(base, StreamOf(symbol, a)), Wire(d))
  {
    StreamAppend(symbol, a, [d]);
    assert StreamOf(symbol, [d]) == [Wire(d)];
    ApplyDeltasAppend(base, StreamOf(symbol, a), [Wire(d)]);
  }

  /** A step emits nothing inside a level, and the level's totals at its end. */
  lemma StepDeltas(m: Matching, time: nat)
    requires CanMatch(m) && Tradable(m)
    ensures var n, price := MatchStep(m, time), m.resting[0].price;
      var gone := n.resting == [] || n.resting[0].price != price;
      if n.incoming.remaining <= 0 || gone then
        n.batch.deltas == m.batch.deltas + [DeltaFor(m.incoming.symbol, Opposite(m.incoming.side), price, n.resting,
                                                     if gone then Delete else Modify, time, n.sequence)]
      else n.batch.deltas == m.batch.deltas
  {
  }

  /** The level is over: its totals go out and the side is exact again. */
  lemma LevelShown(base: GatewayBookState, c: GatewayBookState, f: seq<Order>, g: seq<Order>, deltas: seq<BookDelta>,
                   symbol: string, d: Side, time: nat, sequence: nat)
    requires f != [] && InOrder(d, f) && LiveSide(g) && ShowsBut(c.Levels(d), g, f[0].price)
    requires g == f[1..] || (g != [] && g[0].price == f[0].price)
    requires c == ApplyDeltas(base, StreamOf(symbol, deltas))
    ensures var action := if g == [] || g[0].price != f[0].price then Delete else Modify;
      var delta := DeltaFor(symbol, d, f[0].price, g, action, time, sequence);
      var c' := ApplyDeltas(base, StreamOf(symbol, deltas + [delta]));
      Shows(c'.Levels(d), g) && c'.Levels(Opposite(d)) == c.Levels(Opposite(d))
  {
    var price := f[0].price;
    var gone := g == [] || g[0].price != price;
    var action := if gone then Delete else Modify;
    if gone { LevelIsGone(f, d); }
    StreamSnoc(symbol, deltas, DeltaFor(symbol, d, price, g, action, time, sequence), base);
    DeltaShows(c.Levels(d), g, symbol, d, price, action, time, sequence, c);
  }

  lemma StepShown(base: GatewayBookState, m: Matching, n: Matching, symbol: string, time: nat)
    requires CanMatch(m) && MatchShown(base, m) && m.incoming.symbol == symbol
    requires LiveSide(n.resting) && InOrder(Opposite(m.incoming.side), m.resting)
    requires n.incoming == m.incoming.(remaining := n.incoming.remaining)
    requires n.resting == m.resting[1..]
      || (n.resting != [] && n.resting[0].price == m.resting[0].price && n.resting[1..] == m.resting[1..])
    requires var price := m.resting[0].price;
      var gone := n.resting == [] || n.resting[0].price != price;
      if n.incoming.remaining <= 0 || gone then
        n.batch.deltas == m.batch.deltas + [DeltaFor(symbol, Opposite(m.incoming.side), price, n.resting,
                                                     if gone then Delete else Modify, time, n.sequence)]
      else n.batch.deltas == m.batch.deltas
    ensures MatchShown(base, n)
  {
    hide ApplyDeltas, StreamOf, InOrder, LiveSide, ShowsBut;
    var d, price := Opposite(m.incoming.side), m.resting[0].price;
    var c := ApplyDeltas(base, StreamOf(symbol, m.batch.deltas));
    ShowsWeaker(c.Levels(d), m.resting, price);
    OtherLevelsStay(c.Levels(d), m.resting, n.resting, price);
    if n.incoming.remaining <= 0 || n.resting == [] || n.resting[0].price != price {
      LevelShown(base, c, m.resting, n.resting, m.batch.deltas, symbol, d, time, n.sequence);
    }
  }

  lemma ShowsWeaker(m: LevelMap, f: seq<Order>, price: int)
    ensures Shows(m, f) ==> ShowsBut(m, f, price)
  {
  }

  lemma HeadTraded(m: Matching, n: Matching)
    requires m.resting != [] && TradesHead(m, n)
    ensures n.incoming == m.incoming.(remaining := n.incoming.remaining)
    ensures n.resting == m.resting[1..]
      || (n.resting != [] && n.resting[0].price == m.resting[0].price && n.resting[1..] == m.resting[1..])
  {
  }

  lemma {:induction false} MatchReplaysDeltas(base: GatewayBookState, m: Matching, symbol: string, time: nat)
    requires Tradable(m) && MatchOk(m, symbol) && MatchShown(base, m)
    ensures MatchShown(base, Matched(m, time))
    decreases m.incoming.remaining
  {
    hide MatchShown, MatchOk, TradesHead;
    if CanMatch(m) {
      var n := MatchStep(m, time);
      MatchStepShape(m, time);
      TradesHeadOk(m, n, symbol);
      StepDeltas(m, time);
      SymbolOfMatch(m, symbol);
      HeadTraded(m, n);
      StepShown(base, m, n, symbol, time);
      MatchReplaysDeltas(base, n, symbol, time);
    }
  }

  lemma SymbolOfMatch(m: Matching, symbol: string)
    requires MatchOk(m, symbol)
    ensures m.incoming.symbol == symbol && InOrder(Opposite(m.incoming.side), m.resting)
  {
  }

  // ---------- resting and removing ----------

  lemma {:induction false} InsertLevels(d: Side, f: seq<Order>, o: Order, price: int)
    ensures LevelQuantity(Insert(d, f, o), price)
      == LevelQuantity(f, price) + if o.price == price then o.remaining else 0
    ensures LevelCount(Insert(d, f, o), price) == LevelCount(f, price) + if o.price == price then 1 else 0
  {
    if f != [] && !Ahead(d, o.price, f[0].price) {
      InsertLevels(d, f[1..], o, price);
    }
  }

  lemma {:induction false} WithoutLevels(f: seq<Order>, id: string, price: int)
    requires HasId(f, id) && Find(f, id).price != price
    ensures LevelQuantity(Without(f, id), price) == LevelQuantity(f, price)
    ensures LevelCount(Without(f, id), price) == LevelCount(f, price)
  {
    if f[0].id != id {
      var i :| 0 <= i < |f| && f[i].id == id;
      assert f[1..][i - 1].id == id;
      WithoutLevels(f[1..], id, price);
    }
  }

  /** What a terminal that has the aggregated book of `symbol` has after reading the deltas. */
  ghost predicate Delivers(s: State, o: Outcome, symbol: string)
    requires symbol in s.books
  {
    && symbol in o.state.books
    && ApplyDeltas(AggregateBook(s.books[symbol]), StreamOf(symbol, o.batch.deltas))
      == AggregateBook(o.state.books[symbol])
  }

  ghost predicate OnlyFor(deltas: seq<BookDelta>, symbol: string) {
    forall i :: 0 <= i < |deltas| ==> deltas[i].symbol == symbol
  }

  lemma {:induction false} OtherSymbol(symbol: string, deltas: seq<BookDelta>)
    requires forall i :: 0 <= i < |deltas| ==> deltas[i].symbol != symbol
    ensures StreamOf(symbol, deltas) == []
  {
    if deltas != [] {
      OtherSymbol(symbol, deltas[..|deltas| - 1]);
    }
  }

  lemma AggregateShows(c: GatewayBookState, b: Book)
    ensures c == AggregateBook(b) <==> Shows(c.bids, b.bids) && Shows(c.asks, b.asks)
  {
    ShowsIsAggregate(c.bids, b.bids);
    ShowsIsAggregate(c.asks, b.asks);
  }

  lemma RestDelivers(base: GatewayBookState, s: State, o: Order, batch: Batch, time: nat, c: GatewayBookState)
    requires o.symbol in s.books && Live(o) && Sound(s)
    requires c == ApplyDeltas(base, StreamOf(o.symbol, batch.deltas)) && c == AggregateBook(s.books[o.symbol])
    ensures var r := Rest(s, o, batch, time);
      && o.symbol in r.state.books
      && ApplyDeltas(base, StreamOf(o.symbol, r.batch.deltas)) == AggregateBook(r.state.books[o.symbol])
  {
    var symbol, d := o.symbol, o.side;
    var r := Rest(s, o, batch, time);
    var f := s.books[symbol].Orders(d);
    var g := Insert(d, f, o);
    InsertLive(d, f, o);
    var action := if LevelCount(f, o.price) == 0 then Add else Modify;
    var delta := DeltaFor(symbol, d, o.price, g, action, time, s.sequence);
    StreamSnoc(symbol, batch.deltas, delta, base);
    AggregateShows(c, s.books[symbol]);
    InsertShows(c.Levels(d), d, f, o);
    DeltaShows(c.Levels(d), g, symbol, d, o.price, action, time, s.sequence, c);
    AggregateShows(ApplyDelta(c, Wire(delta)), r.state.books[symbol]);
  }

  lemma InsertLive(d: Side, f: seq<Order>, o: Order)
    requires LiveSide(f) && Live(o)
    ensures LiveSide(Insert(d, f, o))
  {
    var k := InsertAt(d, f, o);
    var g := Insert(d, f, o);
    assert forall i :: 0 <= i < |g| ==> g[i] == if i < k then f[i] else if i == k then o else f[i - 1];
  }

  lemma InsertShows(m: LevelMap, d: Side, f: seq<Order>, o: Order)
    requires Shows(m, f)
    ensures ShowsBut(m, Insert(d, f, o), o.price) && LevelCount(Insert(d, f, o), o.price) == LevelCount(f, o.price) + 1
  {
    InsertLevels(d, f, o, o.price);
    forall price | price != o.price
      ensures ShowsAt(m, Insert(d, f, o), price)
    {
      assert ShowsAt(m, f, price);
      InsertLevels(d, f, o, price);
    }
  }

  lemma WithoutShows(m: LevelMap, f: seq<Order>, id: string)
    requires Shows(m, f) && HasId(f, id)
    ensures ShowsBut(m, Without(f, id), Find(f, id).price)
  {
    forall price | price != Find(f, id).price
      ensures ShowsAt(m, Without(f, id), price)
    {
      assert ShowsAt(m, f, price);
      WithoutLevels(f, id, price);
    }
  }

  lemma WithoutLive(f: seq<Order>, id: string)
    requires LiveSide(f)
    ensures LiveSide(Without(f, id))
  {
    WithoutKeepsMembers(f, id);
    assert forall i :: 0 <= i < |Without(f, id)| ==> Without(f, id)[i] in f;
  }

  lemma RemoveDelivers(base: GatewayBookState, s: State, id: string, time: nat)
    requires WellFormed(s) && Sound(s) && Locatable(s) && id in s.registry
    requires base == AggregateBook(s.books[s.registry[id].symbol])
    ensures var at := s.registry[id]; var r := Remove(s, id, time);
      && |r.batch.deltas| == 1 && r.batch.deltas[0].symbol == at.symbol
      && ApplyDeltas(base, StreamOf(at.symbol, r.batch.deltas)) == AggregateBook(r.state.books[at.symbol])
  {
    var at := s.registry[id];
    var symbol, d := at.symbol, at.side;
    var f := s.books[symbol].Orders(d);
    var g := Without(f, id);
    var r := Remove(s, id, time);
    var action := if LevelCount(g, at.price) == 0 then Delete else Modify;
    var delta := DeltaFor(symbol, d, at.price, g, action, time, s.sequence);
    assert r.batch.deltas == [] + [delta];
    RegisteredPrice(s, id);
    hide WellFormed, Locatable;
    StreamSnoc(symbol, [], delta, base);
    WithoutLive(f, id);
    AggregateShows(base, s.books[symbol]);
    WithoutShows(base.Levels(d), f, id);
    DeltaShows(base.Levels(d), g, symbol, d, at.price, action, time, s.sequence, base);
    AggregateShows(ApplyDelta(base, Wire(delta)), r.state.books[symbol]);
  }

  lemma RegisteredPrice(s: State, id: string)
    requires WellFormed(s) && Locatable(s) && id in s.registry
    ensures var at := s.registry[id]; var f := s.books[at.symbol].Orders(at.side);
      HasId(f, id) && Find(f, id).price == at.price
  {
    var at := s.registry[id];
    FindIsMember(s.books[at.symbol].Orders(at.side), id);
    assert BookOk(s, at.symbol);
  }

  // ---------- sweeping ----------

  ghost predicate SweepShown(base: GatewayBookState, other: LevelMap, v: Sweeping, symbol: string, d: Side,
                             tick: MarketDataTick)
  {
    var c := ApplyDeltas(base, StreamOf(symbol, v.batch.deltas));
    && c.Levels(Opposite(d)) == other
    && (Shows(c.Levels(d), v.resting)
        || (v.resting != [] && Triggered(d, tick, v.resting[0].price)
            && ShowsBut(c.Levels(d), v.resting, v.resting[0].price)))
  }

  lemma SweepStepShown(base: GatewayBookState, other: LevelMap, v: Sweeping, symbol: string, d: Side,
                       tick: MarketDataTick, time: nat)
    requires LiveSide(v.resting) && v.resting != [] && InOrder(d, v.resting) && Triggered(d, tick, v.resting[0].price)
    requires SweepShown(base, other, v, symbol, d, tick)
    ensures SweepShown(base, other, SweepStep(v, symbol, d, time), symbol, d, tick)
  {
    var f, price, n := v.resting, v.resting[0].price, SweepStep(v, symbol, d, time);
    var c := ApplyDeltas(base, StreamOf(symbol, v.batch.deltas));
    assert ShowsBut(c.Levels(d), f, price);
    OtherLevelsStay(c.Levels(d), f, f[1..], price);
    if f[1..] == [] || f[1..][0].price != price {
      var delta := DeltaFor(symbol, d, price, f[1..], Delete, time, v.sequence + 1);
      assert n.batch.deltas == v.batch.deltas + [delta];
      LevelShown(base, c, f, f[1..], v.batch.deltas, symbol, d, time, v.sequence + 1);
    } else {
      assert n.batch.deltas == v.batch.deltas;
    }
  }

  lemma {:induction false} SweepReplaysDeltas(base: GatewayBookState, other: LevelMap, v: Sweeping, symbol: string,
                                              d: Side, tick: MarketDataTick, time: nat)
    requires LiveSide(v.resting) && InOrder(d, v.resting) && SweepShown(base, other, v, symbol, d, tick)
    ensures SweepShown(base, other, Sweep(v, symbol, d, tick, time), symbol, d, tick)
    decreases |v.resting|
  {
    hide SweepShown;
    if v.resting != [] && Triggered(d, tick, v.resting[0].price) {
      SweepStepShown(base, other, v, symbol, d, tick, time);
      TailInOrder(d, v.resting);
      SweepReplaysDeltas(base, other, SweepStep(v, symbol, d, time), symbol, d, tick, time);
    }
  }

  /** The sweep stops only at an order that is not triggered. */
  lemma {:induction false} SweepStops(v: Sweeping, symbol: string, d: Side, tick: MarketDataTick, time: nat)
    requires LiveSide(v.resting)
    ensures var r := Sweep(v, symbol, d, tick, time); r.resting == [] || !Triggered(d, tick, r.resting[0].price)
    decreases |v.resting|
  {
    if v.resting != [] && Triggered(d, tick, v.resting[0].price) {
      SweepStops(SweepStep(v, symbol, d, time), symbol, d, tick, time);
    }
  }

  lemma SweepSideDelivers(base: GatewayBookState, v: Sweeping, b: Book, symbol: string, d: Side,
                          tick: MarketDataTick, time: nat)
    requires v.resting == b.Orders(d) && LiveSide(v.resting) && InOrder(d, v.resting)
    requires ApplyDeltas(base, StreamOf(symbol, v.batch.deltas)) == AggregateBook(b)
    ensures var r := Sweep(v, symbol, d, tick, time);
      ApplyDeltas(base, StreamOf(symbol, r.batch.deltas)) == AggregateBook(b.With(d, r.resting))
  {
    var c := ApplyDeltas(base, StreamOf(symbol, v.batch.deltas));
    var r := Sweep(v, symbol, d, tick, time);
    AggregateShows(c, b);
    SweepReplaysDeltas(base, c.Levels(Opposite(d)), v, symbol, d, tick, time);
    SweepStops(v, symbol, d, tick, time);
    AggregateShows(ApplyDeltas(base, StreamOf(symbol, r.batch.deltas)), b.With(d, r.resting));
  }

  // ---------- the commands ----------

  lemma {:induction false} MatchDeltasOnlyFor(m: Matching, time: nat)
    requires Tradable(m) && OnlyFor(m.batch.deltas, m.incoming.symbol)
    ensures OnlyFor(Matched(m, time).batch.deltas, m.incoming.symbol)
    decreases m.incoming.remaining
  {
    if CanMatch(m) {
      StepDeltas(m, time);
      MatchStepShape(m, time);
      MatchDeltasOnlyFor(MatchStep(m, time), time);
    }
  }

  lemma {:induction false} SweepDeltasOnlyFor(v: Sweeping, symbol: string, d: Side, tick: MarketDataTick, time: nat)
    requires LiveSide(v.resting) && OnlyFor(v.batch.deltas, symbol)
    ensures OnlyFor(Sweep(v, symbol, d, tick, time).batch.deltas, symbol)
    decreases |v.resting|
  {
    if v.resting != [] && Triggered(d, tick, v.resting[0].price) {
      SweepDeltasOnlyFor(SweepStep(v, symbol, d, time), symbol, d, tick, time);
    }
  }

  /** A command for one symbol leaves the terminals of the others alone. */
  lemma OtherBooksStay(s: State, o: Outcome, touched: string, symbol: string)
    requires symbol in s.books && symbol in o.state.books && symbol != touched
    requires o.state.books[symbol] == s.books[symbol] && OnlyFor(o.batch.deltas, touched)
    ensures Delivers(s, o, symbol)
  {
    OtherSymbol(symbol, o.batch.deltas);
  }

  lemma MatchDelivers(s: State, c: OrderCommand, now: Clock)
    requires WellFormed(s) && Sound(s) && Refusal(s, c).None?
    ensures var m := Matched(StartMatch(s, c, now), EffectiveTime(c.time, now));
      ApplyDeltas(AggregateBook(s.books[c.symbol]), StreamOf(c.symbol, m.batch.deltas))
        == AggregateBook(AfterMatch(s, c, m).books[c.symbol])
  {
    var time := EffectiveTime(c.time, now);
    var m0, b := StartMatch(s, c, now), s.books[c.symbol];
    var base, d := AggregateBook(b), Opposite(c.side);
    assert BookOk(s, c.symbol);
    LaterBound(b.Orders(d), c.symbol, d, s.sequence, s.sequence + 2);
    assert StreamOf(c.symbol, m0.batch.deltas) == [];
    AggregateShows(base, b);
    MatchReplaysDeltas(base, m0, c.symbol, time);
    MatchKeepsOrder(m0, time);
    var m := Matched(m0, time);
    AggregateShows(ApplyDeltas(base, StreamOf(c.symbol, m.batch.deltas)), b.With(d, m.resting));
  }

  lemma SubmitDelivers(s: State, c: OrderCommand, now: Clock, symbol: string)
    requires WellFormed(s) && Sound(s) && symbol in s.books
    ensures Delivers(s, Submit(s, c, now), symbol)
  {
    var time := EffectiveTime(c.time, now);
    match Refusal(s, c)
    case Some(_) =>
      assert StreamOf(symbol, []) == [];
    case None =>
      var m0 := StartMatch(s, c, now);
      var m := Matched(m0, time);
      var t := AfterMatch(s, c, m);
      MatchKeepsOrder(m0, time);
      if symbol == c.symbol {
        MatchDelivers(s, c, now);
        MatchedOk(s, c, now);
        WellFormedIsSound(t);
        RemainderDelivers(AggregateBook(s.books[symbol]), t, m, time);
      } else {
        MatchDeltasOnlyFor(m0, time);
        OtherBooksStay(s, Submit(s, c, now), c.symbol, symbol);
      }
  }

  lemma RemainderDelivers(base: GatewayBookState, s: State, m: Matching, time: nat)
    requires Sound(s) && m.incoming.symbol in s.books && Priced(m.incoming)
    requires ApplyDeltas(base, StreamOf(m.incoming.symbol, m.batch.deltas)) == AggregateBook(s.books[m.incoming.symbol])
    ensures var r := Remainder(s, m, time);
      && m.incoming.symbol in r.state.books
      && ApplyDeltas(base, StreamOf(m.incoming.symbol, r.batch.deltas))
        == AggregateBook(r.state.books[m.incoming.symbol])
  {
    if m.incoming.remaining > 0 && m.incoming.kind.Limit? && !m.incoming.tif.Ioc? {
      RestDelivers(base, s, m.incoming, m.batch, time, AggregateBook(s.books[m.incoming.symbol]));
    }
  }

  lemma WithdrawDelivers(s: State, id: string, time: nat, symbol: string)
    requires WellFormed(s) && Sound(s) && Locatable(s) && id in s.registry && symbol in s.books
    ensures Delivers(s, Remove(s, id, time), symbol)
  {
    RemoveDelivers(AggregateBook(s.books[s.registry[id].symbol]), s, id, time);
    if symbol != s.registry[id].symbol {
      OtherBooksStay(s, Remove(s, id, time), s.registry[id].symbol, symbol);
    }
  }

  lemma CancelDelivers(s: State, c: CancelCommand, now: Clock, symbol: string)
    requires WellFormed(s) && Sound(s) && Locatable(s) && symbol in s.books
    ensures Delivers(s, Cancel(s, c, now), symbol)
  {
    if c.id in s.registry {
      WithdrawDelivers(s, c.id, EffectiveTime(c.time, now), symbol);
    } else {
      assert StreamOf(symbol, []) == [];
    }
  }

  lemma ReplaceDelivers(s: State, c: ReplaceCommand, now: Clock, symbol: string)
    requires WellFormed(s) && Sound(s) && Locatable(s) && symbol in s.books
    ensures Delivers(s, Replace(s, c, now), symbol)
  {
    hide WellFormed, Submit;
    if c.id in s.registry {
      var time := EffectiveTime(c.time, now);
      var o := Located(s, c.id);
      FindIsMember(s.books[s.registry[c.id].symbol].Orders(s.registry[c.id].side), c.id);
      WithdrawDelivers(s, c.id, time, symbol);
      RemoveKeepsSound(s, c.id, time);
      RemoveOk(s, c.id, time);
      var r := Remove(s, c.id, time);
      var t := r.state.(sequence := s.sequence + 1);
      SequenceOk(r.state, s.sequence + 1);
      WellFormedIsSound(t);
      SubmitDelivers(t, ReplacementOf(o, c, time), now, symbol);
      DeliversThen(s, r, t, Submit(t, ReplacementOf(o, c, time), now), symbol);
    } else {
      assert StreamOf(symbol, []) == [];
    }
  }

  lemma DeliversThen(s: State, r: Outcome, t: State, again: Outcome, symbol: string)
    requires symbol in s.books && Delivers(s, r, symbol) && t.books == r.state.books && Delivers(t, again, symbol)
    ensures Delivers(s, Outcome(again.state, r.batch.Then(again.batch)), symbol)
  {
    StreamAppend(symbol, r.batch.deltas, again.batch.deltas);
    ApplyDeltasAppend(AggregateBook(s.books[symbol]), StreamOf(symbol, r.batch.deltas),
                      StreamOf(symbol, again.batch.deltas));
  }

  lemma TickDelivers(s: State, tick: MarketDataTick, now: Clock, symbol: string)
    requires WellFormed(s) && Sound(s) && symbol in s.books
    ensures Delivers(s, ApplyTick(s, tick, now), symbol)
  {
    if tick.symbol in s.books {
      var time := EffectiveTime(tick.time, now);
      var b := s.books[tick.symbol];
      assert BookOk(s, tick.symbol);
      var v := Sweeping(b.asks, s.registry, s.sequence, EMPTY);
      var asks := Sweep(v, tick.symbol, Sell, tick, time);
      var u := Sweeping(b.bids, asks.registry, asks.sequence, asks.batch);
      if symbol == tick.symbol {
        assert StreamOf(symbol, EMPTY.deltas) == [];
        SweepSideDelivers(AggregateBook(b), v, b, symbol, Sell, tick, time);
        SweepSideDelivers(AggregateBook(b), u, Book(b.bids, asks.resting), symbol, Buy, tick, time);
      } else {
        SweepDeltasOnlyFor(v, tick.symbol, Sell, tick, time);
        SweepDeltasOnlyFor(u, tick.symbol, Buy, tick, time);
        OtherBooksStay(s, ApplyTick(s, tick, now), tick.symbol, symbol);
      }
    } else {
      assert StreamOf(symbol, []) == [];
    }
  }

  /** Between resets, a command's deltas take every aggregated book to the next one. */
  lemma StepDelivers(s: State, input: Input, symbol: string)
    requires WellFormed(s) && symbol in s.books && !input.command.ResetBooks?
    ensures Sound(s) && Locatable(s)
    ensures Delivers(s, Step(s, input), symbol)
  {
    WellFormedIsSound(s);
    match input.command
    case SubmitOrder(c) => SubmitDelivers(s, c, input.now, symbol);
    case CancelOrder(c) => CancelDelivers(s, c, input.now, symbol);
    case ReplaceOrder(c) => ReplaceDelivers(s, c, input.now, symbol);
    case MarketData(t) => TickDelivers(s, t, input.now, symbol);
  }

  // ---------- runs ----------

  /** One packet per command, as one terminal sees them. */
  function PacketsOf(s: State, inputs: seq<Input>, symbol: string): seq<seq<GatewayBookDelta>>
    requires WellFormed(s)
    decreases |inputs|
  {
    if inputs == [] then []
    else
      var o := Next(s, inputs[0]);
      [StreamOf(symbol, o.batch.deltas)] + PacketsOf(o.state, inputs[1..], symbol)
  }

  predicate Fits(b: Book, maxLevels: nat) {
    |Aggregate(b.bids)| <= maxLevels && |Aggregate(b.asks)| <= maxLevels
  }

  /** No side has more than maxLevels levels after any command. */
  predicate StaysWithin(s: State, inputs: seq<Input>, symbol: string, maxLevels: nat)
    requires WellFormed(s)
    decreases |inputs|
  {
    inputs == [] ||
    var t := Next(s, inputs[0]).state;
    symbol in t.books && Fits(t.books[symbol], maxLevels) && StaysWithin(t, inputs[1..], symbol, maxLevels)
  }

  /** While no side outgrows the bound, the terminal has exactly the exchange's book. */
  lemma {:induction false} TerminalIsExact(s: State, inputs: seq<Input>, symbol: string, maxLevels: nat)
    requires WellFormed(s) && symbol in s.books && NoReset(inputs) && StaysWithin(s, inputs, symbol, maxLevels)
    ensures symbol in Run(s, inputs).state.books
    ensures ApplyPackets(AggregateBook(s.books[symbol]), PacketsOf(s, inputs, symbol), maxLevels)
         == AggregateBook(Run(s, inputs).state.books[symbol])
    decreases |inputs|
  {
    if inputs != [] {
      StepDelivers(s, inputs[0], symbol);
      var o := Next(s, inputs[0]);
      var b := o.state.books[symbol];
      BoundKeepsSmall(Aggregate(b.bids), Buy, maxLevels);
      BoundKeepsSmall(Aggregate(b.asks), Sell, maxLevels);
      assert PacketsOf(s, inputs, symbol)[1..] == PacketsOf(o.state, inputs[1..], symbol);
      TerminalIsExact(o.state, inputs[1..], symbol, maxLevels);
    }
  }

  ghost predicate Part(m: LevelMap, n: LevelMap) {
    forall k :: k in m ==> k in n && m[k] == n[k]
  }

  /** Every level c shows is a level of a, exactly. */
  ghost predicate PartOf(c: GatewayBookState, a: GatewayBookState) {
    Part(c.bids, a.bids) && Part(c.asks, a.asks)
  }

  lemma {:induction false} DeltasKeepPart(c: GatewayBookState, a: GatewayBookState, deltas: seq<GatewayBookDelta>)
    requires PartOf(c, a)
    ensures PartOf(ApplyDeltas(c, deltas), ApplyDeltas(a, deltas))
  {
    if deltas != [] {
      DeltasKeepPart(c, a, deltas[..|deltas| - 1]);
    }
  }

  /** Whatever the bound cuts away, every level still shown is exact. */
  lemma {:induction false} ShownLevelsAreExact(s: State, c: GatewayBookState, inputs: seq<Input>, symbol: string,
                                               maxLevels: nat)
    requires WellFormed(s) && symbol in s.books && NoReset(inputs) && PartOf(c, AggregateBook(s.books[symbol]))
    ensures symbol in Run(s, inputs).state.books
    ensures PartOf(ApplyPackets(c, PacketsOf(s, inputs, symbol), maxLevels),
                   AggregateBook(Run(s, inputs).state.books[symbol]))
    decreases |inputs|
  {
    if inputs != [] {
      StepDelivers(s, inputs[0], symbol);
      var o := Next(s, inputs[0]);
      var packet := StreamOf(symbol, o.batch.deltas);
      DeltasKeepPart(c, AggregateBook(s.books[symbol]), packet);
      var next := ApplyDeltas(c, packet);
      BoundKeepsBest(next.bids, Buy, maxLevels);
      BoundKeepsBest(next.asks, Sell, maxLevels);
      assert PacketsOf(s, inputs, symbol)[1..] == PacketsOf(o.state, inputs[1..], symbol);
      ShownLevelsAreExact(o.state, ApplyPacket(c, packet, maxLevels), inputs[1..], symbol, maxLevels);
    }
  }
}
