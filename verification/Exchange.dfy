/**
  The matching engine: books of price levels, an id registry and a sequence
  counter, all updated in place. Every command is proved to do to the flat
  view exactly what BookSpec says, batch included.
 */
module Exchange {
  import opened Orders
  import opened BookSpec
  import opened BookInvariant
  import opened Levels
  import opened Working

  datatype InstrumentBook = InstrumentBook(bids: seq<Level>, asks: seq<Level>)
  {
    function Side(d: Side): seq<Level> { if d.Buy? then bids else asks }
    function With(d: Side, ls: seq<Level>): InstrumentBook {
      if d.Buy? then this.(bids := ls) else this.(asks := ls)
    }
    function View(): Book { Book(Flat(bids), Flat(asks)) }
    ghost predicate SidesSorted() { Sorted(Buy, bids) && Sorted(Sell, asks) }
  }

  /** One line of a book snapshot. */
  datatype BookLevel = BookLevel(price: int, quantity: int, orders: nat)

  datatype BookSnapshot = BookSnapshot(symbol: string, time: nat, sequence: nat, bids: seq<BookLevel>,
                                       asks: seq<BookLevel>)

  class DeterministicExchange {
    var books: map<string, InstrumentBook>
    var registry: Registry
    var sequence: nat

    /** The state without levels. */
    ghost function View(): State
      reads this
    {
      State(ViewOf(books), registry, sequence)
    }

    ghost predicate AllSorted()
      reads this`books
    {
      BooksSorted(books)
    }

    static ghost predicate BooksSorted(books: map<string, InstrumentBook>) {
      forall symbol :: symbol in books ==> books[symbol].SidesSorted()
    }

    ghost predicate Valid()
      reads this
    {
      AllSorted() && WellFormed(View()) && Sound(View()) && Locatable(View())
    }

    /** An exchange for the given products, with nothing in it. */
    constructor (symbols: set<string>)
      requires "" !in symbols
      ensures Valid() && View() == State(map symbol | symbol in symbols :: Book([], []), map[], 0)
    {
      books := map symbol | symbol in symbols :: InstrumentBook([], []);
      registry := map[];
      sequence := 0;
    }

    // ---------- level bookkeeping ----------

    method AggregateQuantity(ls: seq<Level>, price: int) returns (total: int)
      ensures total == if LevelIndex(ls, price) < |ls| then Total(ls[LevelIndex(ls, price)].queue) else 0
    {
      var k := LevelIndex(ls, price);
      if k == |ls| { return 0; }
      var q := ls[k].queue;
      total := 0;
      for i := 0 to |q|
        invariant total == Total(q[..i])
      {
        TotalSnoc(q, i);
        total := total + q[i].remaining;
      }
      assert q[..|q|] == q;
    }

    /** The delta carries the level's totals as the flat view has them. */
    method AppendBookDelta(symbol: string, d: Side, price: int, ls: seq<Level>, action: BookDeltaAction,
                           batch: Batch, time: nat)
      returns (out: Batch)
      requires Sorted(d, ls)
      ensures out == batch.Delta(DeltaFor(symbol, d, price, Flat(ls), action, time, sequence))
    {
      LevelTotals(d, ls, price);
      if action.Delete? {
        out := batch.Delta(BookDelta(symbol, action, d, price, 0, 0, time, sequence));
      } else {
        var k := LevelIndex(ls, price);
        var total := AggregateQuantity(ls, price);
        var count := if k < |ls| then |ls[k].queue| else 0;
        out := batch.Delta(BookDelta(symbol, action, d, price, total, count, time, sequence));
      }
    }

    // ---------- matching ----------

    /** One trade: both orders shrink, both sides are reported, a filled resting order leaves the registry. */
    method TradeWith(order: Order, resting: Order, batch: Batch, time: nat, ghost now: Matching)
      returns (incoming: Order, left: Order, out: Batch)
      requires now.resting != [] && now.resting[0] == resting && CanMatch(now) && Priced(order) && Priced(resting)
      requires now.incoming == order && now.registry == registry && now.sequence == sequence && now.batch == batch
      modifies this`registry, this`sequence
      ensures var t := Trade(now, time);
        incoming == t.incoming && registry == t.registry && sequence == t.sequence && out == t.batch
      ensures left == resting.(remaining := resting.remaining - Min(order.remaining, resting.remaining))
    {
      var quantity := Min(order.remaining, resting.remaining);
      incoming := order.(remaining := order.remaining - quantity);
      left := resting.(remaining := resting.remaining - quantity);
      out := batch.Report(FillReport(incoming, resting.id, quantity, resting.price, time, sequence + 1));
      sequence := sequence + 1;
      out := out.Report(FillReport(left, incoming.id, quantity, resting.price, time, sequence + 1));
      sequence := sequence + 1;
      if left.remaining == 0 {
        registry := registry - {resting.id};
      }
    }

    /** The queue of the best level, `rest` being what lies behind it, trades until it or the order is used up. */
    method MatchQueue(order: Order, orders: seq<Order>, ghost rest: seq<Order>, price: int, batch: Batch, time: nat)
      returns (incoming: Order, queue: seq<Order>, out: Batch)
      requires orders != [] && order.remaining > 0 && Crosses(order.side, order.price, price)
      requires AtPrice(orders, price) && NonePriced(rest, price)
      requires Tradable(Matching(order, orders + rest, registry, sequence, batch))
      modifies this`registry, this`sequence
      ensures incoming == order.(remaining := incoming.remaining) && incoming.remaining < order.remaining
      ensures AtPrice(queue, price) && (queue == [] || incoming.remaining <= 0)
      ensures Tradable(Matching(incoming, queue + rest, registry, sequence, out))
      ensures Matched(Announce(Matching(incoming, queue + rest, registry, sequence, out), price, time), time)
           == Matched(Matching(order, orders + rest, old(registry), old(sequence), batch), time)
    {
      hide *;
      incoming, queue, out := order, orders, batch;
      ghost var start := Matching(order, orders + rest, registry, sequence, batch);
      ghost var goal := Matched(start, time);
      OwedIs(start, queue, price, time);
      var j := 0;
      while j < |queue| && incoming.remaining > 0
        invariant incoming == order.(remaining := incoming.remaining)
        invariant incoming.remaining <= order.remaining
        invariant j == 0 || incoming.remaining == 0
        invariant AtPrice(queue, price)
        invariant Tradable(Matching(incoming, queue + rest, registry, sequence, out))
        invariant Owed(Matching(incoming, queue + rest, registry, sequence, out), queue, price, time) == goal
        invariant incoming.remaining == order.remaining ==> queue != []
        decreases incoming.remaining
      {
        ghost var now := Matching(incoming, queue + rest, registry, sequence, out);
        OwedIs(now, queue, price, time);
        HeadTrades(now, queue, rest, price);
        TradeInQueue(now, queue, rest, price, time);
        var left;
        incoming, left, out := TradeWith(incoming, queue[j], out, time, now);
        assert queue[..j] + queue[j + 1..] == queue[1..];
        if left.remaining == 0 {
          queue := queue[..j] + queue[j + 1..];
        } else {
          queue := queue[j := left];
          j := j + 1;
        }
        assert Matching(incoming, queue + rest, registry, sequence, out) == Trade(now, time);
      }
      OwedIs(Matching(incoming, queue + rest, registry, sequence, out), queue, price, time);
    }

    static lemma OwedIs(now: Matching, queue: seq<Order>, price: int, time: nat)
      requires Tradable(now)
      ensures queue != [] && now.incoming.remaining > 0 ==> Owed(now, queue, price, time) == Matched(now, time)
      ensures Tradable(Announce(now, price, time))
      ensures queue == [] || now.incoming.remaining <= 0 ==>
        Owed(now, queue, price, time) == Matched(Announce(now, price, time), time)
    {
      hide Matched;
    }

    static lemma HeadTrades(now: Matching, queue: seq<Order>, rest: seq<Order>, price: int)
      requires now.resting == queue + rest && queue != [] && AtPrice(queue, price) && Tradable(now)
      requires now.incoming.remaining > 0 && Crosses(now.incoming.side, now.incoming.price, price)
      ensures now.resting[0] == queue[0] && CanMatch(now) && Priced(now.incoming) && Priced(queue[0])
      ensures queue[0].price == price && queue[0].remaining > 0
    {
      hide Crosses;
    }

    static ghost predicate AtPrice(q: seq<Order>, price: int) {
      forall i :: 0 <= i < |q| ==> q[i].price == price
    }

    /** What is still to come: inside the level nothing has been announced yet. */
    static ghost function Owed(now: Matching, queue: seq<Order>, price: int, time: nat): Matching
      requires Tradable(now)
    {
      if queue != [] && now.incoming.remaining > 0 then Matched(now, time)
      else Matched(Announce(now, price, time), time)
    }

    static lemma TradeInQueue(now: Matching, queue: seq<Order>, rest: seq<Order>, price: int, time: nat)
      requires now.resting == queue + rest && queue != []
      requires AtPrice(queue, price) && NonePriced(rest, price)
      requires CanMatch(now) && Tradable(now)
      ensures var t := Trade(now, time);
        var quantity := Min(now.incoming.remaining, queue[0].remaining);
        var left := queue[0].remaining - quantity;
        var q := if left == 0 then queue[1..] else queue[0 := queue[0].(remaining := left)];
        && 0 < quantity <= now.incoming.remaining && (left != 0 ==> quantity == now.incoming.remaining)
        && t.incoming == now.incoming.(remaining := now.incoming.remaining - quantity)
        && t.resting == q + rest && AtPrice(q, price) && Tradable(t)
        && Owed(t, q, price, time) == Matched(now, time)
    {
      hide Matched, FillReport, DeltaFor;
      var t := Trade(now, time);
      var head := queue[0];
      assert now.resting[0] == head;
      var left := head.remaining - Min(now.incoming.remaining, head.remaining);
      MatchUnfolds(now, time);
      if left == 0 {
        assert (queue + rest)[1..] == queue[1..] + rest;
        if |queue| > 1 { assert t.resting[0] == queue[1]; }
        else { assert t.resting == rest; }
      } else {
        var l := head.(remaining := left);
        assert (queue + rest)[0 := l] == queue[0 := l] + rest;
      }
    }

    static lemma AnnounceLevel(now: Matching, queue: seq<Order>, rest: seq<Order>, price: int, time: nat)
      requires now.resting == queue + rest && AtPrice(queue, price) && NonePriced(rest, price)
      ensures Announce(now, price, time) == now.(batch := now.batch.Delta(
                DeltaFor(now.incoming.symbol, Opposite(now.incoming.side), price, queue + rest,
                         if queue == [] then Delete else Modify, time, now.sequence)))
    {
      if queue == [] {
        assert queue + rest == rest;
      } else {
        assert now.resting[0] == queue[0];
      }
    }

    /** The level-and-queue loop does what matching one flat order at a time does. */
    method MatchIncoming(order: Order, ls: seq<Level>, batch: Batch, time: nat)
      returns (incoming: Order, levels: seq<Level>, out: Batch)
      requires Sorted(Opposite(order.side), ls)
      requires Tradable(Matching(order, Flat(ls), registry, sequence, batch))
      modifies this`registry, this`sequence
      ensures Sorted(Opposite(order.side), levels)
      ensures Matching(incoming, Flat(levels), registry, sequence, out)
           == Matched(Matching(order, Flat(ls), old(registry), old(sequence), batch), time)
    {
      hide Matched, Flat, Sorted, Crosses, LiveSide, DeltaFor, NonePriced, AtPrice, LevelCount, LevelQuantity;
      incoming, levels, out := order, ls, batch;
      var d := Opposite(order.side);
      ghost var goal := Matched(Matching(order, Flat(ls), registry, sequence, batch), time);
      var i := 0;
      while i < |levels| && incoming.remaining > 0
        invariant incoming == order.(remaining := incoming.remaining)
        invariant Sorted(d, levels)
        invariant i == 0 || incoming.remaining <= 0
        invariant Tradable(Matching(incoming, Flat(levels), registry, sequence, out))
        invariant Matched(Matching(incoming, Flat(levels), registry, sequence, out), time) == goal
        decreases incoming.remaining
      {
        var price := levels[i].price;
        FirstLevel(d, levels);
        if !Crosses(incoming.side, incoming.price, price) {
          break;
        }
        ghost var rest := Flat(levels[1..]);
        var queue;
        incoming, queue, out := MatchQueue(incoming, levels[i].queue, rest, price, out, time);
        AnnounceLevel(Matching(incoming, queue + rest, registry, sequence, out), queue, rest, price, time);
        if queue == [] {
          levels := levels[..i] + levels[i + 1..];
          assert Flat(levels) == queue + rest;
          out := AppendBookDelta(incoming.symbol, d, price, levels, Delete, out, time);
        } else {
          ReducedLevel(d, levels, queue);
          levels := levels[i := Level(price, queue)];
          out := AppendBookDelta(incoming.symbol, d, price, levels, Modify, out, time);
          i := i + 1;
        }
      }
      FlatNext(levels);
      if levels != [] { FirstLevel(d, levels); }
      MatchUnfolds(Matching(incoming, Flat(levels), registry, sequence, out), time);
    }

    /** The best level is the front of the flat view, and nothing behind it has its price. */
    static lemma FirstLevel(d: Side, ls: seq<Level>)
      requires ls != [] && Sorted(d, ls)
      ensures ls[0].queue != [] && AtPrice(ls[0].queue, ls[0].price)
      ensures Flat(ls) == ls[0].queue + Flat(ls[1..]) && Flat(ls)[0].price == ls[0].price
      ensures NonePriced(Flat(ls[1..]), ls[0].price)
      ensures Sorted(d, ls[1..]) && ls[..0] + ls[1..] == ls[1..]
    {
      assert LevelOk(ls[0]);
      assert Flat(ls)[0] == ls[0].queue[0];
      SortedTail(d, ls, 1);
      LevelAlone(d, ls, 0);
    }

    static lemma ReducedLevel(d: Side, ls: seq<Level>, queue: seq<Order>)
      requires ls != [] && Sorted(d, ls) && queue != [] && AtPrice(queue, ls[0].price)
      ensures Sorted(d, ls[0 := Level(ls[0].price, queue)])
      ensures Flat(ls[0 := Level(ls[0].price, queue)]) == queue + Flat(ls[1..])
    {
      var g := ls[0 := Level(ls[0].price, queue)];
      assert g[1..] == ls[1..];
      SetLevelSorted(d, ls, 0, g[0]);
    }

    // ---------- storing ----------

    static function ViewOf(books: map<string, InstrumentBook>): map<string, Book> {
      map symbol | symbol in books :: books[symbol].View()
    }

    /** One side of a stored book, as levels and in the flat view. */
    static lemma SideIs(books: map<string, InstrumentBook>, symbol: string, d: Side)
      requires BooksSorted(books) && symbol in books
      ensures books[symbol].SidesSorted() && Sorted(d, books[symbol].Side(d))
      ensures symbol in ViewOf(books) && ViewOf(books)[symbol] == books[symbol].View()
      ensures books[symbol].View().Orders(d) == Flat(books[symbol].Side(d))
    {
      hide Sorted, Flat;
    }

    static lemma ViewOfStored(books: map<string, InstrumentBook>, symbol: string, d: Side, ls: seq<Level>)
      requires symbol in books
      ensures ViewOf(books[symbol := books[symbol].With(d, ls)])
           == ViewOf(books)[symbol := ViewOf(books)[symbol].With(d, Flat(ls))]
    {
    }

    /** Storing one side of one book. */
    method Store(symbol: string, d: Side, ls: seq<Level>)
      requires symbol in books && AllSorted() && Sorted(d, ls)
      modifies this`books
      ensures AllSorted() && books == old(books)[symbol := old(books)[symbol].With(d, ls)]
    {
      books := books[symbol := books[symbol].With(d, ls)];
    }

    // ---------- resting ----------

    method RestOrder(o: Order, batch: Batch, time: nat) returns (out: Batch)
      requires AllSorted() && o.symbol in books && Priced(o)
      modifies this
      ensures AllSorted()
      ensures Outcome(View(), out) == Rest(old(View()), o, batch, time)
    {
      hide BooksSorted, ViewOf, LevelIndex, PushOrder, Rest, Insert, Flat, LevelCount, DeltaFor, ReportFor, Sorted;
      SideIs(books, o.symbol, o.side);
      var ls := books[o.symbol].Side(o.side);
      var isNewLevel := LevelIndex(ls, o.price) == |ls|;
      PushedLevel(o.side, ls, o);
      RestOnLevels(books, registry, sequence, o, batch, time);
      var pushed := PushOrder(o.side, ls, o);
      Store(o.symbol, o.side, pushed);
      registry := registry[o.id := Location(o.symbol, o.side, o.price)];
      out := AppendBookDelta(o.symbol, o.side, o.price, pushed, if isNewLevel then Add else Modify, batch, time);
      sequence := sequence + 1;
      out := out.Report(ReportFor(o, Resting, 0, 0, "resting", time, sequence));
    }

    /** Pushing on a queue, read through the flat view. */
    static lemma RestOnLevels(books: map<string, InstrumentBook>, registry: Registry, sequence: nat,
                              o: Order, batch: Batch, time: nat)
      requires o.symbol in books && Priced(o) && books[o.symbol].SidesSorted()
      ensures var ls := books[o.symbol].Side(o.side);
        var pushed := PushOrder(o.side, ls, o);
        var action := if LevelIndex(ls, o.price) == |ls| then Add else Modify;
        Rest(State(ViewOf(books), registry, sequence), o, batch, time) == Outcome(
          State(ViewOf(books[o.symbol := books[o.symbol].With(o.side, pushed)]),
                registry[o.id := Location(o.symbol, o.side, o.price)], sequence + 1),
          batch.Delta(DeltaFor(o.symbol, o.side, o.price, Flat(pushed), action, time, sequence))
               .Report(ReportFor(o, Resting, 0, 0, "resting", time, sequence + 1)))
    {
      var ls := books[o.symbol].Side(o.side);
      PushedLevel(o.side, ls, o);
      ViewOfStored(books, o.symbol, o.side, PushOrder(o.side, ls, o));
      assert ViewOf(books)[o.symbol].Orders(o.side) == Flat(ls);
    }

    static lemma PushedLevel(d: Side, ls: seq<Level>, o: Order)
      requires Sorted(d, ls)
      ensures Sorted(d, PushOrder(d, ls, o)) && Flat(PushOrder(d, ls, o)) == Insert(d, Flat(ls), o)
      ensures (LevelCount(Flat(ls), o.price) == 0) == (LevelIndex(ls, o.price) == |ls|)
    {
      PushOrderSorted(d, ls, o);
      PushOrderFlat(d, ls, o);
      LevelTotals(d, ls, o.price);
      assert LevelIndex(ls, o.price) < |ls| ==> LevelOk(ls[LevelIndex(ls, o.price)]);
    }

    // ---------- submitting ----------

    method SubmitOrderBatch(c: OrderCommand, now: Clock) returns (batch: Batch)
      requires Valid()
      modifies this
      ensures Valid() && Outcome(View(), batch) == Submit(old(View()), c, now)
    {
      hide BooksSorted, ViewOf, WellFormed, Sound, Locatable;
      ghost var s := View();
      ViewKeys(books, c.symbol);
      SubmitOk(s, c, now);
      var time := EffectiveTime(c.time, now);
      if c.symbol !in books {
        batch := RejectWith(c, "unknown_symbol", time);
      } else if c.id == "" {
        batch := RejectWith(c, "order_id_required", time);
      } else if c.id in registry {
        batch := RejectWith(c, "duplicate_order_id", time);
      } else if c.quantity <= 0 {
        batch := RejectWith(c, "quantity_must_be_positive", time);
      } else if c.kind.Limit? && c.price.NotFinite? {
        batch := RejectWith(c, "limit_price_required", time);
      } else {
        batch := Accept(c, now);
      }
      WellFormedIsSound(View());
    }

    method RejectWith(c: OrderCommand, reason: string, time: nat) returns (batch: Batch)
      requires AllSorted()
      modifies this`sequence
      ensures AllSorted()
      ensures View() == old(View()).(sequence := old(sequence) + 1)
      ensures batch == EMPTY.Report(RejectReport(c, reason, time, old(sequence) + 1))
    {
      sequence := sequence + 1;
      batch := EMPTY.Report(RejectReport(c, reason, time, sequence));
    }

    /** A command that passed every check: match, then rest or cancel what is left. */
    method Accept(c: OrderCommand, now: Clock) returns (batch: Batch)
      requires AllSorted() && Sound(View()) && Refusal(View(), c).None?
      modifies this
      ensures AllSorted()
      ensures Outcome(View(), batch) == Submit(old(View()), c, now)
    {
      hide Matched, Submit, Tradable, Sound, Refusal, NewOrder, ViewOf, BooksSorted, Flat, Sorted, StartMatch, Rest,
        ReportFor;
      ghost var s := View();
      ghost var start := StartMatch(s, c, now);
      AcceptedStart(s, c, now);
      ViewKeys(books, c.symbol);
      SideIs(books, c.symbol, Opposite(c.side));
      var time := EffectiveTime(c.time, now);
      sequence := sequence + 1;
      var order := NewOrder(c, time, sequence);
      sequence := sequence + 1;
      batch := EMPTY.Report(ReportFor(order, Accepted, 0, 0, "accepted", time, sequence));
      var d := Opposite(c.side);
      var levels;
      assert Matching(order, Flat(books[c.symbol].Side(d)), registry, sequence, batch) == start;
      order, levels, batch := MatchIncoming(order, books[c.symbol].Side(d), batch, time);
      MatchKeepsOrder(start, time);
      ViewOfStored(books, c.symbol, d, levels);
      Store(c.symbol, d, levels);
      ghost var m := Matched(start, time);
      assert View() == AfterMatch(s, c, m);
      if order.remaining > 0 && order.kind.Limit? && !order.tif.Ioc? {
        batch := RestOrder(order, batch, time);
      } else if order.remaining > 0 {
        sequence := sequence + 1;
        batch := batch.Report(ReportFor(order, Canceled, 0, 0, "unfilled_ioc_or_market_remainder", time, sequence));
      }
    }

    static lemma AcceptedStart(s: State, c: OrderCommand, now: Clock)
      requires Sound(s) && Refusal(s, c).None?
      ensures c.symbol in s.books && (c.kind.Limit? ==> c.price.Ticks?)
      ensures var time := EffectiveTime(c.time, now); var o := NewOrder(c, time, s.sequence + 1);
        var start := StartMatch(s, c, now);
        && start == Matching(o, s.books[c.symbol].Orders(Opposite(c.side)), s.registry, s.sequence + 2,
                             EMPTY.Report(ReportFor(o, Accepted, 0, 0, "accepted", time, s.sequence + 2)))
        && Tradable(start) && o.symbol == c.symbol && o.side == c.side
        && Priced(Matched(start, time).incoming) && Matched(start, time).incoming.symbol == c.symbol
        && Submit(s, c, now) == Remainder(AfterMatch(s, c, Matched(start, time)), Matched(start, time), time)
    {
      hide Matched, Remainder, LiveSide, ReportFor;
      MatchKeepsOrder(StartMatch(s, c, now), EffectiveTime(c.time, now));
    }

    // ---------- cancelling and replacing ----------

    method RemoveRegistered(id: string, batch: Batch, time: nat) returns (out: Batch)
      requires Valid() && id in registry && batch == EMPTY
      modifies this`books, this`registry
      ensures AllSorted()
      ensures Outcome(View(), out) == Remove(old(View()), id, time)
    {
      hide BooksSorted, ViewOf, LevelIndex, DropOrder, Remove, Without, Flat, LevelCount, DeltaFor, Sorted, WellFormed,
        Sound, Locatable, QueueIndex;
      RegisteredSymbol(View(), id);
      ViewKeys(books, registry[id].symbol);
      var at := registry[id];
      SideIs(books, at.symbol, at.side);
      var ls := books[at.symbol].Side(at.side);
      var k := LevelIndex(ls, at.price);
      OrderInLevel(View(), books[at.symbol], id);
      var j := QueueIndex(ls[k].queue, id);
      DroppedOrder(at.side, ls, k, j, id);
      var dropped := DropOrder(ls, k, j);
      RemoveOnLevels(books, registry, sequence, id, dropped, |ls[k].queue| == 1, time);
      Store(at.symbol, at.side, dropped);
      if |ls[k].queue| == 1 {
        out := AppendBookDelta(at.symbol, at.side, at.price, dropped, Delete, batch, time);
      } else {
        out := AppendBookDelta(at.symbol, at.side, at.price, dropped, Modify, batch, time);
      }
      registry := registry - {id};
    }

    static lemma ViewKeys(books: map<string, InstrumentBook>, symbol: string)
      ensures symbol in ViewOf(books) <==> symbol in books
    {
    }

    static lemma RegisteredSymbol(s: State, id: string)
      requires Locatable(s) && id in s.registry
      ensures s.registry[id].symbol in s.books
    {
    }

    static lemma RemoveOnLevels(books: map<string, InstrumentBook>, registry: Registry, sequence: nat,
                                id: string, dropped: seq<Level>, last: bool, time: nat)
      requires Locatable(State(ViewOf(books), registry, sequence)) && id in registry
      requires var at := registry[id];
        && Flat(dropped) == Without(Flat(books[at.symbol].Side(at.side)), id)
        && (LevelCount(Flat(dropped), at.price) == 0) == last
      ensures var at := registry[id];
        Remove(State(ViewOf(books), registry, sequence), id, time) == Outcome(
          State(ViewOf(books[at.symbol := books[at.symbol].With(at.side, dropped)]), registry - {id}, sequence),
          EMPTY.Delta(DeltaFor(at.symbol, at.side, at.price, Flat(dropped), if last then Delete else Modify, time,
                               sequence)))
    {
      var at := registry[id];
      ViewOfStored(books, at.symbol, at.side, dropped);
      assert ViewOf(books)[at.symbol].Orders(at.side) == Flat(books[at.symbol].Side(at.side));
    }

    static lemma DroppedOrder(d: Side, ls: seq<Level>, k: nat, j: nat, id: string)
      requires Sorted(d, ls) && k < |ls| && k == LevelIndex(ls, ls[k].price)
      requires j == QueueIndex(ls[k].queue, id) && j < |ls[k].queue|
      requires forall i :: 0 <= i < |Flat(ls[..k])| ==> Flat(ls[..k])[i].id != id
      ensures var g := DropOrder(ls, k, j);
        && Sorted(d, g) && Flat(g) == Without(Flat(ls), id)
        && (LevelCount(Flat(g), ls[k].price) == 0) == (|ls[k].queue| == 1)
    {
      DropOrderSorted(d, ls, k, j);
      DropOrderFlat(ls, k, j, id);
      DropOrderLevel(d, ls, k, j);
    }

    /** The registry names the level, and no other level holds the id. */
    static lemma OrderInLevel(s: State, b: InstrumentBook, id: string)
      requires WellFormed(s) && id in s.registry && s.registry[id].symbol in s.books
      requires b.SidesSorted() && s.books[s.registry[id].symbol] == b.View()
      ensures var at := s.registry[id]; var ls := b.Side(at.side); var k := LevelIndex(ls, at.price);
        && k < |ls| && QueueIndex(ls[k].queue, id) < |ls[k].queue|
        && (forall i :: 0 <= i < |Flat(ls[..k])| ==> Flat(ls[..k])[i].id != id)
    {
      var at := s.registry[id];
      var ls := b.Side(at.side);
      var f := Flat(ls);
      var k := LevelIndex(ls, at.price);
      assert BookOk(s, at.symbol) && f == s.books[at.symbol].Orders(at.side);
      assert HasId(f, id);
      var i :| 0 <= i < |f| && f[i].id == id;
      assert f[i].price == at.price;
      FlatPriceHasLevel(at.side, ls, i);
      var a, q, c := Flat(ls[..k]), ls[k].queue, Flat(ls[k + 1..]);
      FlatSplit(ls, k);
      LevelAlone(at.side, ls, k);
      Inside(a, q, c, i, at.price);
      assert q[i - |a|].id == id;
      forall n | 0 <= n < |a|
        ensures a[n].id != id
      {
        assert f[n] == a[n];
        assert f[n].id in s.registry;
      }
    }

    static lemma Inside(a: seq<Order>, q: seq<Order>, c: seq<Order>, i: nat, price: int)
      requires i < |a + q + c| && (a + q + c)[i].price == price
      requires NonePriced(a, price) && NonePriced(c, price)
      ensures |a| <= i < |a| + |q| && (a + q + c)[i] == q[i - |a|]
    {
    }

    static lemma FlatPriceHasLevel(d: Side, ls: seq<Level>, i: nat)
      requires Sorted(d, ls) && i < |Flat(ls)|
      ensures LevelIndex(ls, Flat(ls)[i].price) < |ls|
    {
      var price := Flat(ls)[i].price;
      if forall n :: 0 <= n < |ls| ==> ls[n].price != price {
        forall n | 0 <= n < |ls| ensures LevelOk(ls[n]) { }
        FlatAvoids(ls, price);
      }
    }

    static lemma DropOrderLevel(d: Side, ls: seq<Level>, k: nat, j: nat)
      requires Sorted(d, ls) && k < |ls| && j < |ls[k].queue| && k == LevelIndex(ls, ls[k].price)
      requires Sorted(d, DropOrder(ls, k, j))
      ensures var g := DropOrder(ls, k, j);
        (LevelCount(Flat(g), ls[k].price) == 0) == (|ls[k].queue| == 1)
    {
      var g := DropOrder(ls, k, j);
      var price := ls[k].price;
      LevelTotals(d, g, price);
      if |ls[k].queue| == 1 {
        LevelAlone(d, ls, k);
        FlatAppend(ls[..k], ls[k + 1..]);
        LevelSumsNone(Flat(g), price);
      } else {
        assert g[k].price == price;
        assert LevelOk(g[LevelIndex(g, price)]);
      }
    }

    method CancelOrderBatch(c: CancelCommand, now: Clock) returns (batch: Batch)
      requires Valid()
      modifies this
      ensures Valid() && Outcome(View(), batch) == Cancel(old(View()), c, now)
    {
      hide BooksSorted, ViewOf, WellFormed, Sound, Locatable, Remove, Located, ReportFor;
      CancelOk(View(), c, now);
      var time := EffectiveTime(c.time, now);
      if c.id !in registry {
        sequence := sequence + 1;
        batch := EMPTY.Report(NotFoundReport(c.id, time, sequence));
      } else {
        var order := RegisteredOrder(c.id);
        batch := RemoveRegistered(c.id, EMPTY, time);
        sequence := sequence + 1;
        batch := batch.Report(ReportFor(order, Canceled, 0, 0, CancelReason(c.reason), time, sequence));
      }
      WellFormedIsSound(View());
    }

    method RegisteredOrder(id: string) returns (o: Order)
      requires Valid() && id in registry
      ensures o == Located(View(), id) && o.id == id && Priced(o)
    {
      hide BooksSorted, ViewOf, WellFormed, Sound, Locatable, Flat, LevelIndex, QueueIndex, Sorted, Find, DropOrder,
        Without;
      RegisteredSymbol(View(), id);
      ViewKeys(books, registry[id].symbol);
      var at := registry[id];
      SideIs(books, at.symbol, at.side);
      var ls := books[at.symbol].Side(at.side);
      var k := LevelIndex(ls, at.price);
      OrderInLevel(View(), books[at.symbol], id);
      var j := QueueIndex(ls[k].queue, id);
      DropOrderFlat(ls, k, j, id);
      o := ls[k].queue[j];
      FindIsMember(Flat(ls), id);
      SoundMembers(View(), at.symbol, at.side);
    }

    static lemma SoundMembers(s: State, symbol: string, d: Side)
      requires Sound(s) && symbol in s.books
      ensures forall o :: o in s.books[symbol].Orders(d) ==> Priced(o)
    {
    }

    method ReplaceOrderBatch(c: ReplaceCommand, now: Clock) returns (batch: Batch)
      requires Valid()
      modifies this
      ensures Valid() && Outcome(View(), batch) == Replace(old(View()), c, now)
    {
      hide BooksSorted, ViewOf, WellFormed, Sound, Locatable, Submit, Remove, Located, ReplacementOf, ReportFor;
      var time := EffectiveTime(c.time, now);
      if c.id !in registry {
        SequenceOk(View(), sequence + 1);
        sequence := sequence + 1;
        batch := EMPTY.Report(NotFoundReport(c.id, time, sequence));
      } else {
        var old_order := RegisteredOrder(c.id);
        RemoveOk(View(), c.id, time);
        batch := RemoveRegistered(c.id, EMPTY, time);
        SequenceOk(View(), sequence + 1);
        sequence := sequence + 1;
        batch := batch.Report(ReportFor(old_order, Replaced, 0, 0, "cancel_replace", time, sequence));
        WellFormedIsSound(View());
        var again := SubmitOrderBatch(ReplacementOf(old_order, c, time), now);
        batch := batch.Then(again);
      }
      WellFormedIsSound(View());
    }

    // ---------- market data ----------

    static function Closed(w: Sweeping, symbol: string, d: Side, price: int, time: nat): Sweeping {
      w.(batch := w.batch.Delta(DeltaFor(symbol, d, price, w.resting, Delete, time, w.sequence)))
    }

    static lemma FillInQueue(now: Sweeping, queue: seq<Order>, rest: seq<Order>, symbol: string, d: Side,
                             tick: MarketDataTick, price: PriceTicks, time: nat)
      requires now.resting == queue + rest && queue != [] && Triggered(d, tick, price)
      requires AtPrice(queue, price) && NonePriced(rest, price) && LiveSide(queue + rest)
      ensures LiveSide(queue[1..] + rest) && AtPrice(queue[1..], price) && Priced(queue[0]) && queue[0].price == price
      ensures var head := queue[0];
        var report := FillReport(head.(remaining := 0), "MARKET_DATA", head.remaining, price, time, now.sequence + 1);
        var next := Sweeping(queue[1..] + rest, now.registry - {head.id}, now.sequence + 1, now.batch.Report(report));
        Sweep(now, symbol, d, tick, time)
          == if |queue| > 1 then Sweep(next, symbol, d, tick, time)
             else Sweep(Closed(next, symbol, d, price, time), symbol, d, tick, time)
    {
      assert now.resting[0] == queue[0] && now.resting[1..] == queue[1..] + rest;
      assert forall i :: 0 <= i < |queue[1..] + rest| ==> (queue[1..] + rest)[i] == (queue + rest)[i + 1];
      if |queue| > 1 {
        assert now.resting[1..][0] == queue[1];
      } else {
        assert now.resting[1..] == rest;
      }
    }

    /** A triggered level fills order by order until its queue is empty. */
    method SweepQueue(orders: seq<Order>, ghost rest: seq<Order>, symbol: string, d: Side, tick: MarketDataTick,
                      price: PriceTicks, batch: Batch, time: nat)
      returns (out: Batch)
      requires orders != [] && AtPrice(orders, price) && NonePriced(rest, price) && LiveSide(orders + rest)
      requires Triggered(d, tick, price)
      modifies this`registry, this`sequence
      ensures LiveSide(rest)
      ensures Sweep(Closed(Sweeping(rest, registry, sequence, out), symbol, d, price, time), symbol, d, tick, time)
           == Sweep(Sweeping(orders + rest, old(registry), old(sequence), batch), symbol, d, tick, time)
    {
      hide Sweep, LiveSide, AtPrice, NonePriced, Triggered, FillReport;
      out := batch;
      var queue := orders;
      ghost var goal := Sweep(Sweeping(orders + rest, registry, sequence, batch), symbol, d, tick, time);
      while queue != []
        invariant AtPrice(queue, price) && LiveSide(queue + rest)
        invariant var now := Sweeping(queue + rest, registry, sequence, out);
          goal == if queue != [] then Sweep(now, symbol, d, tick, time)
                  else Sweep(Closed(now, symbol, d, price, time), symbol, d, tick, time)
        decreases |queue|
      {
        FillInQueue(Sweeping(queue + rest, registry, sequence, out), queue, rest, symbol, d, tick, price, time);
        var order := queue[0];
        var quantity := order.remaining;
        order := order.(remaining := 0);
        out := out.Report(FillReport(order, "MARKET_DATA", quantity, price, time, sequence + 1));
        sequence := sequence + 1;
        registry := registry - {order.id};
        queue := queue[1..];
      }
      assert [] + rest == rest;
    }

    method SweepSide(symbol: string, d: Side, tick: MarketDataTick, batch: Batch, time: nat) returns (out: Batch)
      requires AllSorted() && symbol in books && LiveSide(Flat(books[symbol].Side(d)))
      modifies this
      ensures AllSorted()
      ensures var r := Sweep(Sweeping(Flat(old(books)[symbol].Side(d)), old(registry), old(sequence), batch), symbol, d,
                             tick, time);
        View() == PutSide(old(View()), symbol, d, r.resting, r.registry, r.sequence) && out == r.batch
    {
      out := batch;
      var levels := books[symbol].Side(d);
      ghost var goal := Sweep(Sweeping(Flat(levels), registry, sequence, batch), symbol, d, tick, time);
      while levels != [] && Triggered(d, tick, levels[0].price)
        invariant AllSorted() && books == old(books) && Sorted(d, levels) && LiveSide(Flat(levels))
        invariant Sweep(Sweeping(Flat(levels), registry, sequence, out), symbol, d, tick, time) == goal
        decreases |levels|
      {
        FirstLevel(d, levels);
        var price := levels[0].price;
        ghost var rest := Flat(levels[1..]);
        out := SweepQueue(levels[0].queue, rest, symbol, d, tick, price, out, time);
        levels := levels[1..];
        out := AppendBookDelta(symbol, d, price, levels, Delete, out, time);
      }
      if levels != [] { FirstLevel(d, levels); }
      ViewOfStored(books, symbol, d, levels);
      Store(symbol, d, levels);
    }

    /** Sweeping the asks and then the bids, one side at a time. */
    static lemma SweptBoth(s: State, tick: MarketDataTick, now: Clock)
      requires Sound(s) && tick.symbol in s.books
      requires LiveSide(s.books[tick.symbol].bids) && LiveSide(s.books[tick.symbol].asks)
      ensures var time := EffectiveTime(tick.time, now);
        var b := s.books[tick.symbol];
        var r := Sweep(Sweeping(b.asks, s.registry, s.sequence, EMPTY), tick.symbol, Sell, tick, time);
        var t := PutSide(s, tick.symbol, Sell, r.resting, r.registry, r.sequence);
        var q := Sweep(Sweeping(t.books[tick.symbol].bids, t.registry, t.sequence, r.batch), tick.symbol, Buy, tick,
                       time);
        ApplyTick(s, tick, now) == Outcome(PutSide(t, tick.symbol, Buy, q.resting, q.registry, q.sequence), q.batch)
    {
    }

    method ApplyMarketDataBatch(tick: MarketDataTick, now: Clock) returns (batch: Batch)
      requires Valid()
      modifies this
      ensures Valid() && Outcome(View(), batch) == ApplyTick(old(View()), tick, now)
    {
      TickOk(View(), tick, now);
      batch := EMPTY;
      if tick.symbol in books {
        var time := EffectiveTime(tick.time, now);
        ghost var s := View();
        ghost var b := s.books[tick.symbol];
        assert b.Orders(Sell) == Flat(books[tick.symbol].asks) && b.Orders(Buy) == Flat(books[tick.symbol].bids);
        batch := SweepSide(tick.symbol, Sell, tick, batch, time);
        assert View().books[tick.symbol].bids == b.bids;
        batch := SweepSide(tick.symbol, Buy, tick, batch, time);
        SweptBoth(s, tick, now);
      }
      WellFormedIsSound(View());
    }

    // ---------- reset and queries ----------

    method ResetBooksAndRegistry()
      requires Valid()
      modifies this
      ensures Valid() && View() == Reset(old(View()))
    {
      hide BooksSorted, ViewOf, WellFormed, Sound, Locatable, Reset;
      ghost var s := View();
      ResetOk(s);
      Emptied(books, registry, sequence);
      books := map symbol | symbol in books :: InstrumentBook([], []);
      registry := map[];
      sequence := sequence + 1;
      WellFormedIsSound(View());
    }

    static lemma Emptied(books: map<string, InstrumentBook>, registry: Registry, sequence: nat)
      ensures var none := map symbol | symbol in books :: InstrumentBook([], []);
        BooksSorted(none) && State(ViewOf(none), map[], sequence + 1) == Reset(State(ViewOf(books), registry, sequence))
    {
    }

    /** Every resting order once, in key order. */
    method CollectWorkingOrders() returns (out: seq<Order>)
      requires Valid()
      ensures WorkingOrders(View(), out)
    {
      hide BooksSorted, ViewOf, WellFormed, Sound, Locatable, OncePerId;
      out := [];
      NothingCollected();
      var ids := registry.Keys;
      while ids != {}
        invariant ids <= registry.Keys
        invariant forall o :: o in out ==> o.id in registry && o.id !in ids && o == Located(View(), o.id)
        invariant forall id :: id in registry && id !in ids ==> HasId(out, id)
        invariant OncePerId(out)
        decreases ids
      {
        var id :| id in ids;
        var o := RegisteredOrder(id);
        CollectedOne(out, o);
        out := out + [o];
        ids := ids - {id};
      }
      SortByKeySorts(out);
      ListsAllPermutes(View(), out, SortByKey(out));
      out := SortByKey(out);
    }

    static lemma NothingCollected()
      ensures OncePerId([])
    {
    }

    static lemma CollectedOne(out: seq<Order>, o: Order)
      requires OncePerId(out) && forall x :: x in out ==> x.id != o.id
      ensures OncePerId(out + [o]) && HasId(out + [o], o.id)
      ensures forall id :: HasId(out, id) ==> HasId(out + [o], id)
    {
      var w := out + [o];
      assert w[|out|].id == o.id;
      forall id | HasId(out, id)
        ensures HasId(w, id)
      {
        var i :| 0 <= i < |out| && out[i].id == id;
        assert w[i].id == id;
      }
      forall i, j | 0 <= i < j < |w|
        ensures DifferentIds(w[i], w[j])
      {
        if j < |out| { assert DifferentIds(out[i], out[j]); } else { assert out[i] in out; }
      }
    }

    /** The symbol, the clock and the sequence so far; each side of a known symbol shows its best levels. */
    method Snapshot(symbol: string, maxLevels: nat, now: Clock) returns (snap: BookSnapshot)
      requires Valid()
      ensures snap.symbol == symbol && snap.time == now && snap.sequence == View().sequence
      ensures symbol !in View().books ==> snap.bids == [] == snap.asks
      ensures symbol in View().books ==>
        && ShowsBest(Buy, View().books[symbol].bids, maxLevels, snap.bids)
        && ShowsBest(Sell, View().books[symbol].asks, maxLevels, snap.asks)
    {
      hide WellFormed, Sound, Locatable, BooksSorted, ViewOf, ShowsBest, Sorted, Flat;
      snap := BookSnapshot(symbol, now, sequence, [], []);
      ViewKeys(books, symbol);
      if symbol in books {
        SideIs(books, symbol, Buy);
        SideIs(books, symbol, Sell);
        var bids := AppendLevels(Buy, books[symbol].bids, maxLevels);
        var asks := AppendLevels(Sell, books[symbol].asks, maxLevels);
        snap := snap.(bids := bids, asks := asks);
      }
    }

    /**
      The lines are levels of the side, best first, each with the quantity and
      the number of orders the side has at its price; a level that is not shown
      is behind all that are, and is missing only because the bound is reached.
     */
    static ghost predicate ShowsBest(d: Side, f: seq<Order>, maxLevels: nat, out: seq<BookLevel>) {
      && |out| <= maxLevels
      && (forall i :: 0 <= i < |out| ==> LineOf(f, out[i]))
      && (forall i, j {:trigger LineAhead(d, out[i], out[j])} :: 0 <= i < j < |out| ==> LineAhead(d, out[i], out[j]))
      && (forall k :: 0 <= k < |f| ==> HasLine(out, f[k].price) || (|out| == maxLevels && AllAhead(d, out, f[k].price)))
    }

    static predicate LineOf(f: seq<Order>, l: BookLevel) {
      l.quantity == LevelQuantity(f, l.price) && l.orders == LevelCount(f, l.price) > 0
    }

    static predicate LineAhead(d: Side, a: BookLevel, b: BookLevel) {
      Ahead(d, a.price, b.price)
    }

    static predicate HasLine(out: seq<BookLevel>, price: int) {
      exists i :: 0 <= i < |out| && out[i].price == price
    }

    static predicate AllAhead(d: Side, out: seq<BookLevel>, price: int) {
      forall i :: 0 <= i < |out| ==> Ahead(d, out[i].price, price)
    }

    static function LineFor(l: Level): BookLevel {
      BookLevel(l.price, Total(l.queue), |l.queue|)
    }

    /** The best levels of one side with their totals, at most `maxLevels` of them. */
    method AppendLevels(d: Side, ls: seq<Level>, maxLevels: nat) returns (out: seq<BookLevel>)
      requires Sorted(d, ls)
      ensures |out| == Min(|ls|, maxLevels)
      ensures ShowsBest(d, Flat(ls), maxLevels, out)
    {
      hide Sorted, Flat, ShowsBest;
      out := [];
      var count := 0;
      while count < |ls|
        invariant count <= |ls| && |out| == count <= maxLevels
        invariant forall i :: 0 <= i < |out| ==> out[i] == LineFor(ls[i])
      {
        if count >= maxLevels { break; }
        var q := ls[count].queue;
        var total := 0;
        for i := 0 to |q|
          invariant total == Total(q[..i])
        {
          TotalSnoc(q, i);
          total := total + q[i].remaining;
        }
        assert q[..|q|] == q;
        out := out + [BookLevel(ls[count].price, total, |q|)];
        count := count + 1;
      }
      FirstLevelsShow(d, ls, maxLevels, out);
    }

    static lemma FirstLevelsShow(d: Side, ls: seq<Level>, maxLevels: nat, out: seq<BookLevel>)
      requires Sorted(d, ls) && |out| == Min(|ls|, maxLevels)
      requires forall i :: 0 <= i < |out| ==> out[i] == LineFor(ls[i])
      ensures ShowsBest(d, Flat(ls), maxLevels, out)
    {
      hide Flat, Total, LevelQuantity, LevelCount;
      forall i | 0 <= i < |out|
        ensures LineOf(Flat(ls), out[i])
      {
        LevelLine(d, ls, i);
      }
      forall i, j | 0 <= i < j < |out|
        ensures LineAhead(d, out[i], out[j])
      {
        assert LevelAhead(d, ls[i], ls[j]);
      }
      forall k | 0 <= k < |Flat(ls)|
        ensures HasLine(out, Flat(ls)[k].price) || (|out| == maxLevels && AllAhead(d, out, Flat(ls)[k].price))
      {
        var price := Flat(ls)[k].price;
        FlatPriceHasLevel(d, ls, k);
        var n := LevelIndex(ls, price);
        if n < |out| {
          assert out[n].price == price;
        } else {
          forall i | 0 <= i < |out|
            ensures Ahead(d, out[i].price, price)
          {
            assert LevelAhead(d, ls[i], ls[n]);
          }
        }
      }
    }

    static lemma LevelLine(d: Side, ls: seq<Level>, i: nat)
      requires Sorted(d, ls) && i < |ls|
      ensures LineOf(Flat(ls), LineFor(ls[i]))
    {
      hide Flat, Total, LevelQuantity, LevelCount;
      LevelTotals(d, ls, ls[i].price);
      var k := LevelIndex(ls, ls[i].price);
      assert LevelOk(ls[i]);
      assert k < i ==> LevelAhead(d, ls[k], ls[i]);
    }
  }
}
