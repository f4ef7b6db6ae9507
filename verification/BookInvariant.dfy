/**
  The invariant of the exchange and the proof that every command keeps it:
  queues in price-time order, no crossed book, and a registry that lists
  exactly the resting orders, each at its true place.
 */
module BookInvariant {
  import opened Orders
  import opened BookSpec

  /** a is ahead of b in the queue of side d. */
  predicate Before(d: Side, a: Order, b: Order) {
    Ahead(d, a.price, b.price) || (a.price == b.price && a.sequence < b.sequence)
  }

  /** An order that may rest on side d of `symbol`: never a market or an immediate-or-cancel order. */
  predicate MayRest(o: Order, symbol: string, d: Side, bound: nat) {
    && o.symbol == symbol && o.side == d && o.id != ""
    && o.kind.Limit? && !o.tif.Ioc?
    && Priced(o)
    && 0 < o.remaining <= o.original
    && o.sequence <= bound && o.time > 0
  }

  ghost predicate InOrder(d: Side, f: seq<Order>) {
    forall i, j {:trigger Before(d, f[i], f[j])} :: 0 <= i < j < |f| ==> Before(d, f[i], f[j])
  }

  ghost predicate QueueOk(f: seq<Order>, symbol: string, d: Side, bound: nat) {
    && InOrder(d, f)
    && forall i :: 0 <= i < |f| ==> MayRest(f[i], symbol, d, bound)
  }

  predicate Below(bid: Order, ask: Order) {
    bid.price < ask.price
  }

  predicate Distinct(a: Order, b: Order) {
    a.id != b.id
  }

  /** Every bid is below every ask. */
  ghost predicate Uncrossed(bids: seq<Order>, asks: seq<Order>) {
    forall i, j {:trigger Below(bids[i], asks[j])} :: 0 <= i < |bids| && 0 <= j < |asks| ==> Below(bids[i], asks[j])
  }

  predicate On(l: Location, symbol: string, d: Side) {
    l.symbol == symbol && l.side == d
  }

  /** On one side, registry entries and resting orders are in bijection. */
  ghost predicate Lists(registry: Registry, symbol: string, d: Side, f: seq<Order>) {
    && (forall i :: 0 <= i < |f| ==> f[i].id in registry && registry[f[i].id] == Location(symbol, d, f[i].price))
    && (forall id :: id in registry && On(registry[id], symbol, d) ==> HasId(f, id))
    && (forall i, j {:trigger Distinct(f[i], f[j])} :: 0 <= i < j < |f| ==> Distinct(f[i], f[j]))
  }

  ghost predicate BookOk(s: State, symbol: string)
    requires symbol in s.books
  {
    var b := s.books[symbol];
    && QueueOk(b.bids, symbol, Buy, s.sequence)
    && QueueOk(b.asks, symbol, Sell, s.sequence)
    && Uncrossed(b.bids, b.asks)
    && Lists(s.registry, symbol, Buy, b.bids)
    && Lists(s.registry, symbol, Sell, b.asks)
  }

  ghost predicate WellFormed(s: State) {
    && (forall symbol {:trigger BookOk(s, symbol)} :: symbol in s.books ==> symbol != "" && BookOk(s, symbol))
    && (forall id :: id in s.registry ==> s.registry[id].symbol in s.books)
  }

  lemma WellFormedIsSound(s: State)
    requires WellFormed(s)
    ensures Sound(s) && Locatable(s)
  {
    forall symbol | symbol in s.books
      ensures LiveSide(s.books[symbol].bids) && LiveSide(s.books[symbol].asks)
    {
      assert BookOk(s, symbol);
    }
    forall id | id in s.registry
      ensures s.registry[id].symbol in s.books
      ensures HasId(s.books[s.registry[id].symbol].Orders(s.registry[id].side), id)
    {
      assert BookOk(s, s.registry[id].symbol);
    }
  }

  // ---------- changing one side ----------

  /** The registries agree on everything that is not on side d of `symbol`. */
  ghost predicate SameElsewhere(r: Registry, r': Registry, symbol: string, d: Side) {
    && (forall id :: id in r && !On(r[id], symbol, d) ==> id in r' && r'[id] == r[id])
    && (forall id :: id in r' && !On(r'[id], symbol, d) ==> id in r && r'[id] == r[id])
  }

  /** One side after a change. */
  ghost predicate SideOk(f: seq<Order>, symbol: string, d: Side, registry: Registry, bound: nat) {
    QueueOk(f, symbol, d, bound) && Lists(registry, symbol, d, f)
  }

  lemma ListsElsewhere(r: Registry, r': Registry, symbol: string, d: Side, symbol': string, d': Side, f: seq<Order>)
    requires SameElsewhere(r, r', symbol, d) && Lists(r, symbol', d', f)
    requires symbol != symbol' || d != d'
    ensures Lists(r', symbol', d', f)
  {
  }

  lemma PutSideOk(s: State, symbol: string, d: Side, f: seq<Order>, registry: Registry, sequence: nat)
    requires WellFormed(s) && symbol in s.books && sequence >= s.sequence
    requires SideOk(f, symbol, d, registry, sequence)
    requires SameElsewhere(s.registry, registry, symbol, d)
    requires Uncrossed(s.books[symbol].With(d, f).bids, s.books[symbol].With(d, f).asks)
    ensures WellFormed(PutSide(s, symbol, d, f, registry, sequence))
  {
    var t := PutSide(s, symbol, d, f, registry, sequence);
    forall other | other in t.books
      ensures other != "" && BookOk(t, other)
    {
      assert BookOk(s, other);
      if other == symbol {
        assert t.books[other] == s.books[symbol].With(d, f);
        ListsElsewhere(s.registry, registry, symbol, d, symbol, Opposite(d), s.books[symbol].Orders(Opposite(d)));
      } else {
        ListsElsewhere(s.registry, registry, symbol, d, other, Buy, s.books[other].bids);
        ListsElsewhere(s.registry, registry, symbol, d, other, Sell, s.books[other].asks);
      }
    }
    forall id | id in t.registry
      ensures t.registry[id].symbol in t.books
    {
      if !On(registry[id], symbol, d) {
        assert id in s.registry;
      }
    }
  }

  lemma SequenceOk(s: State, sequence: nat)
    requires WellFormed(s) && sequence >= s.sequence
    ensures WellFormed(s.(sequence := sequence))
  {
    var t := s.(sequence := sequence);
    forall symbol | symbol in t.books
      ensures symbol != "" && BookOk(t, symbol)
    {
      assert BookOk(s, symbol);
    }
  }

  ghost predicate HasPrice(f: seq<Order>, price: int) {
    exists i :: 0 <= i < |f| && f[i].price == price
  }

  /** No price in g that is not in f. */
  ghost predicate PricesFrom(g: seq<Order>, f: seq<Order>) {
    forall i {:trigger HasPrice(f, g[i].price)} :: 0 <= i < |g| ==> HasPrice(f, g[i].price)
  }

  // ---------- taking one order out, or making it smaller ----------

  lemma DropKeepsOrder(f: seq<Order>, k: nat, symbol: string, d: Side, bound: nat)
    requires k < |f| && QueueOk(f, symbol, d, bound)
    ensures QueueOk(f[..k] + f[k + 1..], symbol, d, bound)
  {
    var g := f[..k] + f[k + 1..];
    forall i, j | 0 <= i < j < |g|
      ensures Before(d, g[i], g[j])
    {
      assert Before(d, f[if i < k then i else i + 1], f[if j < k then j else j + 1]);
    }
  }

  lemma DropLists(f: seq<Order>, k: nat, symbol: string, d: Side, registry: Registry)
    requires k < |f| && Lists(registry, symbol, d, f)
    ensures Lists(registry - {f[k].id}, symbol, d, f[..k] + f[k + 1..])
    ensures SameElsewhere(registry, registry - {f[k].id}, symbol, d)
  {
    var g, r := f[..k] + f[k + 1..], registry - {f[k].id};
    forall i | 0 <= i < |g|
      ensures g[i].id in r && r[g[i].id] == Location(symbol, d, g[i].price)
    {
      var n := if i < k then i else i + 1;
      assert g[i] == f[n];
      assert Distinct(f[if n < k then n else k], f[if n < k then k else n]);
    }
    forall id | id in r && On(r[id], symbol, d)
      ensures HasId(g, id)
    {
      assert HasId(f, id);
      var i :| 0 <= i < |f| && f[i].id == id;
      assert g[if i < k then i else i - 1].id == id;
    }
    forall i, j | 0 <= i < j < |g|
      ensures Distinct(g[i], g[j])
    {
      assert Distinct(f[if i < k then i else i + 1], f[if j < k then j else j + 1]);
    }
  }

  lemma DropPrices(f: seq<Order>, k: nat)
    requires k < |f|
    ensures PricesFrom(f[..k] + f[k + 1..], f)
  {
    var g := f[..k] + f[k + 1..];
    forall i | 0 <= i < |g|
      ensures HasPrice(f, g[i].price)
    {
      assert f[if i < k then i else i + 1].price == g[i].price;
    }
  }

  lemma TailOk(f: seq<Order>, symbol: string, d: Side, registry: Registry, bound: nat)
    requires f != [] && SideOk(f, symbol, d, registry, bound)
    ensures SideOk(f[1..], symbol, d, registry - {f[0].id}, bound)
    ensures SameElsewhere(registry, registry - {f[0].id}, symbol, d)
    ensures PricesFrom(f[1..], f)
  {
    hide QueueOk, Lists, SameElsewhere, PricesFrom;
    DropKeepsOrder(f, 0, symbol, d, bound);
    DropLists(f, 0, symbol, d, registry);
    assert f[..0] + f[1..] == f[1..];
    DropPrices(f, 0);
  }

  lemma ReducedKeepsOrder(f: seq<Order>, remaining: int, symbol: string, d: Side, bound: nat)
    requires f != [] && QueueOk(f, symbol, d, bound) && 0 < remaining <= f[0].remaining
    ensures QueueOk(f[0 := f[0].(remaining := remaining)], symbol, d, bound)
  {
    var g := f[0 := f[0].(remaining := remaining)];
    forall i, j | 0 <= i < j < |g|
      ensures Before(d, g[i], g[j])
    {
      assert Before(d, f[i], f[j]);
    }
  }

  lemma ReducedLists(f: seq<Order>, remaining: int, symbol: string, d: Side, registry: Registry)
    requires f != [] && Lists(registry, symbol, d, f)
    ensures Lists(registry, symbol, d, f[0 := f[0].(remaining := remaining)])
  {
    var g := f[0 := f[0].(remaining := remaining)];
    forall i | 0 <= i < |g|
      ensures g[i].id in registry && registry[g[i].id] == Location(symbol, d, g[i].price)
    {
      assert g[i].id == f[i].id;
    }
    forall i, j | 0 <= i < j < |g|
      ensures Distinct(g[i], g[j])
    {
      assert Distinct(f[i], f[j]);
    }
    forall id | id in registry && On(registry[id], symbol, d)
      ensures HasId(g, id)
    {
      assert HasId(f, id);
      var i :| 0 <= i < |f| && f[i].id == id;
      assert g[i].id == id;
    }
  }

  lemma ReducedOk(f: seq<Order>, remaining: int, symbol: string, d: Side, registry: Registry, bound: nat)
    requires f != [] && SideOk(f, symbol, d, registry, bound) && 0 < remaining <= f[0].remaining
    ensures SideOk(f[0 := f[0].(remaining := remaining)], symbol, d, registry, bound)
    ensures PricesFrom(f[0 := f[0].(remaining := remaining)], f)
  {
    ReducedKeepsOrder(f, remaining, symbol, d, bound);
    ReducedLists(f, remaining, symbol, d, registry);
    var g := f[0 := f[0].(remaining := remaining)];
    forall i | 0 <= i < |g|
      ensures HasPrice(f, g[i].price)
    {
      assert f[i].price == g[i].price;
    }
  }

  // ---------- matching ----------

  lemma PricesFromTrans(h: seq<Order>, g: seq<Order>, f: seq<Order>)
    requires PricesFrom(h, g) && PricesFrom(g, f)
    ensures PricesFrom(h, f)
  {
    forall i | 0 <= i < |h|
      ensures HasPrice(f, h[i].price)
    {
      assert HasPrice(g, h[i].price);
      var j :| 0 <= j < |g| && g[j].price == h[i].price;
      assert HasPrice(f, g[j].price);
    }
  }

  /** One step takes the head out, or only makes it smaller. */
  predicate TradesHead(m: Matching, r: Matching)
    requires m.resting != []
  {
    var head := m.resting[0];
    && r.sequence == m.sequence + 2
    && r.incoming == m.incoming.(remaining := r.incoming.remaining)
    && r.incoming.remaining == m.incoming.remaining - Min(m.incoming.remaining, head.remaining)
    && if head.remaining <= m.incoming.remaining then
         r.resting == m.resting[1..] && r.registry == m.registry - {head.id}
       else
         && r.resting == m.resting[0 := head.(remaining := head.remaining - m.incoming.remaining)]
         && r.registry == m.registry
  }

  lemma MatchStepShape(m: Matching, time: nat)
    requires CanMatch(m) && Tradable(m)
    ensures TradesHead(m, MatchStep(m, time))
  {
  }

  ghost predicate MatchOk(m: Matching, symbol: string) {
    && m.incoming.symbol == symbol
    && m.incoming.remaining >= 0
    && SideOk(m.resting, symbol, Opposite(m.incoming.side), m.registry, m.sequence)
    && m.incoming.id !in m.registry
  }

  lemma TradesHeadOk(m: Matching, r: Matching, symbol: string)
    requires CanMatch(m) && MatchOk(m, symbol) && TradesHead(m, r)
    ensures MatchOk(r, symbol)
    ensures SameElsewhere(m.registry, r.registry, symbol, Opposite(m.incoming.side))
    ensures PricesFrom(r.resting, m.resting)
  {
    var d := Opposite(m.incoming.side);
    var head := m.resting[0];
    if head.remaining <= m.incoming.remaining {
      TailOk(m.resting, symbol, d, m.registry, m.sequence);
    } else {
      ReducedOk(m.resting, head.remaining - m.incoming.remaining, symbol, d, m.registry, m.sequence);
    }
    LaterBound(r.resting, symbol, d, m.sequence, r.sequence);
  }

  lemma LaterBound(f: seq<Order>, symbol: string, d: Side, bound: nat, later: nat)
    requires QueueOk(f, symbol, d, bound) && bound <= later
    ensures QueueOk(f, symbol, d, later)
  {
  }

  lemma LaterSide(f: seq<Order>, symbol: string, d: Side, registry: Registry, bound: nat, later: nat)
    requires SideOk(f, symbol, d, registry, bound) && bound <= later
    ensures SideOk(f, symbol, d, registry, later)
  {
  }

  /** Matching keeps the side it trades against in order and listed, and leaves nothing that still crosses. */
  lemma {:induction false} MatchKeepsSide(m: Matching, symbol: string, time: nat)
    requires Tradable(m) && MatchOk(m, symbol)
    ensures MatchOk(Matched(m, time), symbol)
    ensures SameElsewhere(m.registry, Matched(m, time).registry, symbol, Opposite(m.incoming.side))
    ensures Matched(m, time).sequence >= m.sequence
    ensures 0 <= Matched(m, time).incoming.remaining <= m.incoming.remaining
    ensures PricesFrom(Matched(m, time).resting, m.resting)
    ensures var r := Matched(m, time);
      r.incoming.remaining > 0 ==>
        forall i :: 0 <= i < |r.resting| ==> !Crosses(r.incoming.side, r.incoming.price, r.resting[i].price)
    decreases m.incoming.remaining
  {
    if CanMatch(m) {
      var n := MatchStep(m, time);
      MatchStepShape(m, time);
      TradesHeadOk(m, n, symbol);
      MatchKeepsSide(n, symbol, time);
      MatchKeepsOrder(n, time);
      PricesFromTrans(Matched(n, time).resting, n.resting, m.resting);
    } else if m.incoming.remaining > 0 {
      forall i | 0 <= i < |m.resting|
        ensures !Crosses(m.incoming.side, m.incoming.price, m.resting[i].price)
      {
        if i > 0 {
          assert Before(Opposite(m.incoming.side), m.resting[0], m.resting[i]);
        }
      }
    }
  }

  lemma UncrossedFrom(bids: seq<Order>, asks: seq<Order>, bids': seq<Order>, asks': seq<Order>)
    requires Uncrossed(bids, asks) && PricesFrom(bids', bids) && PricesFrom(asks', asks)
    ensures Uncrossed(bids', asks')
  {
    forall i, j | 0 <= i < |bids'| && 0 <= j < |asks'|
      ensures Below(bids'[i], asks'[j])
    {
      assert HasPrice(bids, bids'[i].price) && HasPrice(asks, asks'[j].price);
      var k :| 0 <= k < |bids| && bids[k].price == bids'[i].price;
      var l :| 0 <= l < |asks| && asks[l].price == asks'[j].price;
      assert Below(bids[k], asks[l]);
    }
  }

  // ---------- resting an order ----------

  lemma {:induction false} InsertOk(d: Side, f: seq<Order>, o: Order, symbol: string, bound: nat)
    requires QueueOk(f, symbol, d, bound) && MayRest(o, symbol, d, bound)
    requires forall i :: 0 <= i < |f| ==> f[i].sequence < o.sequence
    ensures QueueOk(Insert(d, f, o), symbol, d, bound)
    ensures forall x :: x in Insert(d, f, o) <==> x == o || x in f
  {
    var g := Insert(d, f, o);
    if f == [] || Ahead(d, o.price, f[0].price) {
      forall i, j | 0 <= i < j < |g|
        ensures Before(d, g[i], g[j])
      {
        if i == 0 && j > 1 {
          assert Before(d, f[0], f[j - 1]);
        }
      }
    } else {
      InsertOk(d, f[1..], o, symbol, bound);
      var t := Insert(d, f[1..], o);
      assert g == [f[0]] + t;
      forall i, j | 0 <= i < j < |g|
        ensures Before(d, g[i], g[j])
      {
        if i == 0 {
          assert t[j - 1] in t;
          assert t[j - 1] == o || t[j - 1] in f[1..];
        }
      }
    }
  }

  /** Where a new order lands: one place in the queue, everything else in order. */
  lemma {:induction false} InsertAt(d: Side, f: seq<Order>, o: Order) returns (k: nat)
    ensures k <= |f| && Insert(d, f, o) == f[..k] + [o] + f[k..]
    ensures forall i :: 0 <= i < k ==> !Ahead(d, o.price, f[i].price)
    ensures k < |f| ==> Ahead(d, o.price, f[k].price)
  {
    if f == [] || Ahead(d, o.price, f[0].price) {
      k := 0;
    } else {
      var n := InsertAt(d, f[1..], o);
      k := n + 1;
      assert f[..k] == [f[0]] + f[1..][..n];
      assert f[k..] == f[1..][n..];
      assert Insert(d, f, o) == f[..k] + [o] + f[k..];
      forall i | 0 <= i < k
        ensures !Ahead(d, o.price, f[i].price)
      {
        if i > 0 {
          assert f[i] == f[1..][i - 1];
        }
      }
    }
  }

  lemma InsertLists(d: Side, f: seq<Order>, o: Order, symbol: string, registry: Registry)
    requires Lists(registry, symbol, d, f) && o.id !in registry
    ensures Lists(registry[o.id := Location(symbol, d, o.price)], symbol, d, Insert(d, f, o))
    ensures SameElsewhere(registry, registry[o.id := Location(symbol, d, o.price)], symbol, d)
  {
    hide Insert, HasId, InOrder;
    var g, r := Insert(d, f, o), registry[o.id := Location(symbol, d, o.price)];
    var k := InsertAt(d, f, o);
    InsertedIds(f, k, o, g);
    InsertedPlaces(registry, symbol, d, f, k, o, g);
    InsertedDistinct(f, k, o, g);
  }

  lemma InsertedPlaces(registry: Registry, symbol: string, d: Side, f: seq<Order>, k: nat, o: Order, g: seq<Order>)
    requires k <= |f| && g == f[..k] + [o] + f[k..] && o.id !in registry
    requires forall i :: 0 <= i < |f| ==> f[i].id in registry && registry[f[i].id] == Location(symbol, d, f[i].price)
    ensures var r := registry[o.id := Location(symbol, d, o.price)];
      forall i :: 0 <= i < |g| ==> g[i].id in r && r[g[i].id] == Location(symbol, d, g[i].price)
    ensures forall i :: 0 <= i < |f| ==> Distinct(f[i], o)
  {
    forall i | 0 <= i < |g| && i != k
      ensures g[i] == f[if i < k then i else i - 1]
    {
    }
  }

  lemma InsertedDistinct(f: seq<Order>, k: nat, o: Order, g: seq<Order>)
    requires k <= |f| && g == f[..k] + [o] + f[k..]
    requires forall i :: 0 <= i < |f| ==> Distinct(f[i], o)
    requires forall i, j {:trigger Distinct(f[i], f[j])} :: 0 <= i < j < |f| ==> Distinct(f[i], f[j])
    ensures forall i, j {:trigger Distinct(g[i], g[j])} :: 0 <= i < j < |g| ==> Distinct(g[i], g[j])
  {
    forall i, j | 0 <= i < j < |g|
      ensures Distinct(g[i], g[j])
    {
      if i != k && j != k {
        assert Distinct(f[if i < k then i else i - 1], f[if j < k then j else j - 1]);
      } else {
        assert Distinct(f[if i != k then i else j - 1], o);
      }
    }
  }

  lemma InsertedIds(f: seq<Order>, k: nat, o: Order, g: seq<Order>)
    requires k <= |f| && g == f[..k] + [o] + f[k..]
    ensures HasId(g, o.id)
    ensures forall id :: HasId(f, id) ==> HasId(g, id)
  {
    assert g[k].id == o.id;
    forall id | HasId(f, id)
      ensures HasId(g, id)
    {
      var i :| 0 <= i < |f| && f[i].id == id;
      assert g[if i < k then i else i + 1].id == id;
    }
  }

  // ---------- removing an order by id ----------

  lemma {:induction false} WithoutAt(f: seq<Order>, id: string) returns (k: nat)
    requires HasId(f, id)
    ensures k < |f| && f[k].id == id && Find(f, id) == f[k]
    ensures Without(f, id) == f[..k] + f[k + 1..]
    ensures forall i :: 0 <= i < k ==> f[i].id != id
  {
    if f[0].id == id {
      k := 0;
    } else {
      var i :| 0 <= i < |f| && f[i].id == id;
      assert f[1..][i - 1].id == id;
      var n := WithoutAt(f[1..], id);
      k := n + 1;
      hide HasId;
      SplitBehindHead(f, k);
    }
  }

  lemma SplitBehindHead(f: seq<Order>, k: nat)
    requires 0 < k < |f|
    ensures f[..k] + f[k + 1..] == [f[0]] + (f[1..][..k - 1] + f[1..][k..])
    ensures forall i :: 0 < i < k ==> f[i] == f[1..][i - 1]
  {
  }

  /** Looking for the id of a listed order finds that order. */
  lemma FindsItself(f: seq<Order>, i: nat, symbol: string, d: Side, registry: Registry)
    requires i < |f| && Lists(registry, symbol, d, f)
    ensures HasId(f, f[i].id) && Find(f, f[i].id) == f[i]
  {
    forall j | 0 <= j < i
      ensures f[j].id != f[i].id
    {
      assert Distinct(f[j], f[i]);
    }
    var k := WithoutAt(f, f[i].id);
  }

  lemma WithoutOk(f: seq<Order>, id: string, symbol: string, d: Side, registry: Registry, bound: nat)
    requires SideOk(f, symbol, d, registry, bound) && HasId(f, id)
    ensures SideOk(Without(f, id), symbol, d, registry - {id}, bound)
    ensures SameElsewhere(registry, registry - {id}, symbol, d)
    ensures PricesFrom(Without(f, id), f)
  {
    var k := WithoutAt(f, id);
    DropKeepsOrder(f, k, symbol, d, bound);
    DropLists(f, k, symbol, d, registry);
    DropPrices(f, k);
  }

  // ---------- sweeping ----------

  lemma {:induction false} SweepKeepsSide(w: Sweeping, symbol: string, d: Side, tick: MarketDataTick, time: nat)
    requires LiveSide(w.resting) && SideOk(w.resting, symbol, d, w.registry, w.sequence)
    ensures var r := Sweep(w, symbol, d, tick, time);
      && SideOk(r.resting, symbol, d, r.registry, r.sequence)
      && SameElsewhere(w.registry, r.registry, symbol, d)
      && r.sequence >= w.sequence
      && PricesFrom(r.resting, w.resting)
    decreases |w.resting|
  {
    if w.resting != [] && Triggered(d, tick, w.resting[0].price) {
      TailOk(w.resting, symbol, d, w.registry, w.sequence);
      var n := SweepStep(w, symbol, d, time);
      SweepKeepsSide(n, symbol, d, tick, time);
      var r := Sweep(n, symbol, d, tick, time);
      PricesFromTrans(r.resting, n.resting, w.resting);
    }
  }

  // ---------- the commands ----------

  lemma SubmitOk(s: State, c: OrderCommand, now: Clock)
    requires WellFormed(s) && Sound(s)
    ensures WellFormed(Submit(s, c, now).state)
  {
    var time := EffectiveTime(c.time, now);
    match Refusal(s, c)
    case Some(reason) =>
      SequenceOk(s, s.sequence + 1);
    case None =>
      var m := Matched(StartMatch(s, c, now), time);
      MatchedOk(s, c, now);
      MatchKeepsOrder(StartMatch(s, c, now), time);
      RemainderOk(AfterMatch(s, c, m), m, time);
  }

  lemma StartOk(s: State, c: OrderCommand, now: Clock)
    requires WellFormed(s) && Sound(s) && Refusal(s, c).None?
    ensures MatchOk(StartMatch(s, c, now), c.symbol)
  {
    var d := Opposite(c.side);
    assert BookOk(s, c.symbol);
    LaterBound(s.books[c.symbol].Orders(d), c.symbol, d, s.sequence, s.sequence + 2);
  }

  /** After matching and before resting, everything is in order and the incoming order crosses nothing. */
  lemma MatchedOk(s: State, c: OrderCommand, now: Clock)
    requires WellFormed(s) && Sound(s) && Refusal(s, c).None?
    ensures var m := Matched(StartMatch(s, c, now), EffectiveTime(c.time, now));
      var t := AfterMatch(s, c, m);
      && WellFormed(t) && c.id !in t.registry && t.sequence >= s.sequence + 2
      && 0 <= m.incoming.remaining <= c.quantity
      && (forall i :: 0 <= i < |t.books[c.symbol].Orders(c.side)| ==>
            t.books[c.symbol].Orders(c.side)[i].sequence < s.sequence + 1)
      && (m.incoming.remaining > 0 ==>
            forall i :: 0 <= i < |m.resting| ==> !Crosses(c.side, m.incoming.price, m.resting[i].price))
  {
    var time := EffectiveTime(c.time, now);
    var m0 := StartMatch(s, c, now);
    var d := Opposite(c.side);
    assert BookOk(s, c.symbol);
    LaterBound(s.books[c.symbol].Orders(d), c.symbol, d, s.sequence, s.sequence + 2);
    MatchKeepsSide(m0, c.symbol, time);
    MatchKeepsOrder(m0, time);
    var m := Matched(m0, time);
    var b := s.books[c.symbol];
    var b1 := b.With(d, m.resting);
    assert PricesFrom(b.bids, b.bids) && PricesFrom(b.asks, b.asks);
    UncrossedFrom(b.bids, b.asks, b1.bids, b1.asks);
    PutSideOk(s, c.symbol, d, m.resting, m.registry, m.sequence);
  }

  /** Resting an order that crosses nothing keeps the invariant. */
  lemma RestOk(s: State, o: Order, batch: Batch, time: nat)
    requires WellFormed(s) && o.symbol in s.books && Priced(o)
    requires MayRest(o, o.symbol, o.side, s.sequence) && o.id !in s.registry
    requires forall i :: 0 <= i < |s.books[o.symbol].Orders(o.side)| ==>
      s.books[o.symbol].Orders(o.side)[i].sequence < o.sequence
    requires var g := s.books[o.symbol].Orders(Opposite(o.side));
      forall i :: 0 <= i < |g| ==> !Crosses(o.side, o.price, g[i].price)
    ensures WellFormed(Rest(s, o, batch, time).state)
  {
    assert BookOk(s, o.symbol);
    var f := s.books[o.symbol].Orders(o.side);
    InsertLists(o.side, f, o, o.symbol, s.registry);
    InsertOk(o.side, f, o, o.symbol, s.sequence);
    var g := Insert(o.side, f, o);
    InsertUncrossed(s.books[o.symbol], o);
    LaterBound(g, o.symbol, o.side, s.sequence, s.sequence + 1);
    PutSideOk(s, o.symbol, o.side, g, s.registry[o.id := Location(o.symbol, o.side, o.price)], s.sequence + 1);
  }

  lemma InsertUncrossed(b: Book, o: Order)
    requires Uncrossed(b.bids, b.asks)
    requires var g := b.Orders(Opposite(o.side));
      forall i :: 0 <= i < |g| ==> !Crosses(o.side, o.price, g[i].price)
    ensures var b' := b.With(o.side, Insert(o.side, b.Orders(o.side), o)); Uncrossed(b'.bids, b'.asks)
  {
    hide Insert, InOrder, Before;
    var f := b.Orders(o.side);
    var k := InsertAt(o.side, f, o);
    var g := Insert(o.side, f, o);
    assert forall i :: 0 <= i < |g| ==> g[i] == if i < k then f[i] else if i == k then o else f[i - 1];
    var b' := b.With(o.side, g);
    forall i, j | 0 <= i < |b'.bids| && 0 <= j < |b'.asks|
      ensures Below(b'.bids[i], b'.asks[j])
    {
      var n := if o.side.Buy? then i else j;
      if n != k {
        var n' := if n < k then n else n - 1;
        assert Below(b.bids[if o.side.Buy? then n' else i], b.asks[if o.side.Buy? then j else n']);
      } else {
        var other := b.Orders(Opposite(o.side))[if o.side.Buy? then j else i];
        assert !Crosses(o.side, o.price, other.price) && g[n] == o;
      }
    }
  }

  lemma RemainderOk(s: State, m: Matching, time: nat)
    requires WellFormed(s) && m.incoming.symbol in s.books && Priced(m.incoming)
    requires m.incoming.id != "" && m.incoming.remaining <= m.incoming.original && m.incoming.time > 0
    requires m.incoming.id !in s.registry && m.incoming.sequence <= s.sequence
    requires forall i :: 0 <= i < |s.books[m.incoming.symbol].Orders(m.incoming.side)| ==>
      s.books[m.incoming.symbol].Orders(m.incoming.side)[i].sequence < m.incoming.sequence
    requires m.incoming.remaining > 0 ==>
      var g := s.books[m.incoming.symbol].Orders(Opposite(m.incoming.side));
      forall i :: 0 <= i < |g| ==> !Crosses(m.incoming.side, m.incoming.price, g[i].price)
    ensures WellFormed(Remainder(s, m, time).state)
  {
    var o := m.incoming;
    if o.remaining > 0 && o.kind.Limit? && !o.tif.Ioc? {
      RestOk(s, o, m.batch, time);
    } else if o.remaining > 0 {
      SequenceOk(s, s.sequence + 1);
    }
  }

  lemma RemoveOk(s: State, id: string, time: nat)
    requires WellFormed(s) && Locatable(s) && id in s.registry
    ensures WellFormed(Remove(s, id, time).state)
    ensures id !in Remove(s, id, time).state.registry
  {
    var at := s.registry[id];
    assert BookOk(s, at.symbol);
    var b := s.books[at.symbol];
    var f := b.Orders(at.side);
    WithoutOk(f, id, at.symbol, at.side, s.registry, s.sequence);
    var b1 := b.With(at.side, Without(f, id));
    assert PricesFrom(b.bids, b.bids) && PricesFrom(b.asks, b.asks);
    UncrossedFrom(b.bids, b.asks, b1.bids, b1.asks);
    PutSideOk(s, at.symbol, at.side, Without(f, id), s.registry - {id}, s.sequence);
  }

  lemma CancelOk(s: State, c: CancelCommand, now: Clock)
    requires WellFormed(s) && Sound(s) && Locatable(s)
    ensures WellFormed(Cancel(s, c, now).state)
  {
    if c.id in s.registry {
      RemoveOk(s, c.id, EffectiveTime(c.time, now));
      SequenceOk(Remove(s, c.id, EffectiveTime(c.time, now)).state, s.sequence + 1);
    } else {
      SequenceOk(s, s.sequence + 1);
    }
  }

  lemma ReplaceOk(s: State, c: ReplaceCommand, now: Clock)
    requires WellFormed(s) && Sound(s) && Locatable(s)
    ensures WellFormed(Replace(s, c, now).state)
  {
    if c.id in s.registry {
      var time := EffectiveTime(c.time, now);
      var o := Located(s, c.id);
      FindIsMember(s.books[s.registry[c.id].symbol].Orders(s.registry[c.id].side), c.id);
      RemoveKeepsSound(s, c.id, time);
      RemoveOk(s, c.id, time);
      var t := Remove(s, c.id, time).state.(sequence := s.sequence + 1);
      SequenceOk(Remove(s, c.id, time).state, s.sequence + 1);
      WellFormedIsSound(t);
      SubmitOk(t, ReplacementOf(o, c, time), now);
    } else {
      SequenceOk(s, s.sequence + 1);
    }
  }

  lemma SweepSideOk(s: State, symbol: string, d: Side, tick: MarketDataTick, time: nat, batch: Batch)
    requires WellFormed(s) && symbol in s.books && LiveSide(s.books[symbol].Orders(d))
    ensures var r := Sweep(Sweeping(s.books[symbol].Orders(d), s.registry, s.sequence, batch), symbol, d, tick, time);
      WellFormed(PutSide(s, symbol, d, r.resting, r.registry, r.sequence))
  {
    assert BookOk(s, symbol);
    var b := s.books[symbol];
    var w := Sweeping(b.Orders(d), s.registry, s.sequence, batch);
    SweepKeepsSide(w, symbol, d, tick, time);
    var r := Sweep(w, symbol, d, tick, time);
    var b' := b.With(d, r.resting);
    assert PricesFrom(b.bids, b.bids) && PricesFrom(b.asks, b.asks);
    UncrossedFrom(b.bids, b.asks, b'.bids, b'.asks);
    PutSideOk(s, symbol, d, r.resting, r.registry, r.sequence);
  }

  lemma TickOk(s: State, tick: MarketDataTick, now: Clock)
    requires WellFormed(s) && Sound(s)
    ensures WellFormed(ApplyTick(s, tick, now).state)
  {
    if tick.symbol in s.books {
      var symbol, time := tick.symbol, EffectiveTime(tick.time, now);
      var b := s.books[symbol];
      var asks := Sweep(Sweeping(b.asks, s.registry, s.sequence, EMPTY), symbol, Sell, tick, time);
      var t := PutSide(s, symbol, Sell, asks.resting, asks.registry, asks.sequence);
      SweepSideOk(s, symbol, Sell, tick, time, EMPTY);
      SweepSideOk(t, symbol, Buy, tick, time, asks.batch);
      var bids := Sweep(Sweeping(b.bids, asks.registry, asks.sequence, asks.batch), symbol, Buy, tick, time);
      assert ApplyTick(s, tick, now).state.books == PutSide(t, symbol, Buy, bids.resting, bids.registry,
                                                            bids.sequence).books;
    }
  }

  lemma ResetOk(s: State)
    requires WellFormed(s)
    ensures WellFormed(Reset(s))
  {
    var t := Reset(s);
    forall symbol | symbol in t.books
      ensures symbol != "" && BookOk(t, symbol)
    {
      assert BookOk(s, symbol);
    }
  }

  /** Every command keeps the invariant. */
  lemma StepOk(s: State, input: Input)
    requires WellFormed(s) && Sound(s) && Locatable(s)
    ensures WellFormed(Step(s, input).state)
  {
    match input.command
    case SubmitOrder(c) => SubmitOk(s, c, input.now);
    case CancelOrder(c) => CancelOk(s, c, input.now);
    case ReplaceOrder(c) => ReplaceOk(s, c, input.now);
    case MarketData(t) => TickOk(s, t, input.now);
    case ResetBooks => ResetOk(s);
  }
}
