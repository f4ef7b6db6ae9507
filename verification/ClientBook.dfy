/**
  The terminal's book: a map of levels per side, kept up to date from the
  level deltas that the exchange sends and cut down to the best levels after
  every packet.
 */
module ClientBook {
  import opened Orders

  datatype OrderBookLevel = OrderBookLevel(price: int, qty: int, orders: int)

  /** A price as the name of a property. */
  datatype PriceKey = Key(price: int)

  type LevelMap = map<PriceKey, OrderBookLevel>

  datatype GatewayBookState = GatewayBookState(bids: LevelMap, asks: LevelMap)
  {
    function Levels(d: Side): LevelMap { if d.Buy? then bids else asks }
    function With(d: Side, m: LevelMap): GatewayBookState { if d.Buy? then this.(bids := m) else this.(asks := m) }
  }

  /** A side as the packet spells it. */
  datatype WireSide = WireBuy | WireSell | CodeB | CodeS

  /** A delta as received: any field may be missing, a number that is not finite counts as missing. */
  datatype GatewayBookDelta = GatewayBookDelta(
    action: Option<BookDeltaAction>,
    sideCode: Option<WireSide>,
    side: Option<WireSide>,
    price: Option<int>,
    qty: Option<int>,
    orders: Option<int>)

  function SideTarget(delta: GatewayBookDelta): Side {
    var side := if delta.sideCode.Some? then delta.sideCode else delta.side;
    if side == Some(CodeS) || side == Some(WireSell) then Sell else Buy
  }

  function OrZero(n: Option<int>): int {
    if n.Some? then n.value else 0
  }

  function ApplyDelta(book: GatewayBookState, delta: GatewayBookDelta): GatewayBookState {
    if delta.price.None? then book
    else
      var d, price, qty, orders := SideTarget(delta), delta.price.value, OrZero(delta.qty), OrZero(delta.orders);
      var m := book.Levels(d);
      if delta.action == Some(Delete) || qty <= 0 || orders <= 0 then book.With(d, m - {Key(price)})
      else book.With(d, m[Key(price) := OrderBookLevel(price, qty, orders)])
  }

  /** A delta touches one price of one side: it is set to the delta's totals, or taken out if either is zero. */
  lemma DeltaSetsOneLevel(book: GatewayBookState, delta: GatewayBookDelta, d: Side, price: int)
    requires delta.price == Some(price)
    requires d.Sell? <==> (if delta.sideCode.Some? then delta.sideCode else delta.side) in {Some(CodeS), Some(WireSell)}
    ensures var r, m := ApplyDelta(book, delta), book.Levels(d);
      && r.Levels(Opposite(d)) == book.Levels(Opposite(d))
      && (forall q :: q != Key(price) ==> (q in r.Levels(d) <==> q in m) && (q in m ==> r.Levels(d)[q] == m[q]))
      && var level := OrderBookLevel(price, OrZero(delta.qty), OrZero(delta.orders));
      && (Key(price) in r.Levels(d) <==> delta.action != Some(Delete) && level.qty > 0 && level.orders > 0)
      && (Key(price) in r.Levels(d) ==> r.Levels(d)[Key(price)] == level)
  {
  }

  function ApplyDeltas(book: GatewayBookState, deltas: seq<GatewayBookDelta>): GatewayBookState {
    if deltas == [] then book
    else ApplyDelta(ApplyDeltas(book, deltas[..|deltas| - 1]), deltas[|deltas| - 1])
  }

  lemma {:induction false} ApplyDeltasAppend(book: GatewayBookState, a: seq<GatewayBookDelta>, b: seq<GatewayBookDelta>)
    ensures ApplyDeltas(book, a + b) == ApplyDeltas(ApplyDeltas(book, a), b)
  {
    if b == [] {
      assert a + b == a;
    } else {
      var n := |b| - 1;
      ApplyDeltasAppend(book, a, b[..n]);
      assert (a + b)[..|a + b| - 1] == a + b[..n];
    }
  }

  // ---------- cutting down to the best levels ----------

  ghost predicate IsBest(d: Side, keys: set<PriceKey>, p: PriceKey) {
    p in keys && forall q :: q in keys ==> !Ahead(d, q.price, p.price)
  }

  lemma {:induction false} BestKeyExists(d: Side, keys: set<PriceKey>)
    requires keys != {}
    ensures exists p :: IsBest(d, keys, p)
    decreases |keys|
  {
    var k :| k in keys;
    var rest := keys - {k};
    if rest == {} {
      assert forall q :: q in keys ==> q in rest || q == k;
      assert IsBest(d, keys, k);
    } else {
      BestKeyExists(d, rest);
      var p :| IsBest(d, rest, p);
      var best := if Ahead(d, k.price, p.price) then k else p;
      forall q | q in keys
        ensures !Ahead(d, q.price, best.price)
      {
        if q != k { assert q in rest; }
      }
      assert IsBest(d, keys, best);
    }
  }

  function BestKey(d: Side, keys: set<PriceKey>): (p: PriceKey)
    requires keys != {}
    ensures p in keys && forall q :: q in keys ==> !Ahead(d, q.price, p.price)
  {
    BestKeyExists(d, keys);
    assert exists p :: p in keys && forall q :: q in keys ==> !Ahead(d, q.price, p.price) by {
      var p :| IsBest(d, keys, p);
    }
    var p :| p in keys && forall q :: q in keys ==> !Ahead(d, q.price, p.price);
    p
  }

  /** The keys from the best to the worst: bids descending, asks ascending. */
  function SortKeys(d: Side, keys: set<PriceKey>): seq<PriceKey>
    decreases |keys|
  {
    if keys == {} then []
    else [BestKey(d, keys)] + SortKeys(d, keys - {BestKey(d, keys)})
  }

  /** The entries of m at the listed keys. */
  function Pick(m: LevelMap, keys: seq<PriceKey>): LevelMap {
    if keys == [] then map[]
    else
      var n := |keys| - 1;
      var acc := Pick(m, keys[..n]);
      if keys[n] in m then acc[keys[n] := m[keys[n]]] else acc
  }

  function BoundBook(m: LevelMap, d: Side, maxLevels: nat): LevelMap {
    var keys := SortKeys(d, m.Keys);
    Pick(m, keys[..Min(|keys|, maxLevels)])
  }

  lemma {:induction false} SortKeysLists(d: Side, keys: set<PriceKey>)
    ensures |SortKeys(d, keys)| == |keys|
    ensures forall p :: p in SortKeys(d, keys) <==> p in keys
    decreases |keys|
  {
    if keys != {} {
      SortKeysLists(d, keys - {BestKey(d, keys)});
    }
  }

  lemma {:induction false} PickKeeps(m: LevelMap, keys: seq<PriceKey>)
    ensures forall p :: p in Pick(m, keys) <==> p in m && p in keys
    ensures forall p :: p in Pick(m, keys) ==> Pick(m, keys)[p] == m[p]
  {
    if keys != [] {
      var n := |keys| - 1;
      PickKeeps(m, keys[..n]);
      assert keys == keys[..n] + [keys[n]];
    }
  }

  /** How many keys are strictly better. */
  function Rank(d: Side, keys: set<PriceKey>, p: PriceKey): nat {
    |set q | q in keys && Ahead(d, q.price, p.price)|
  }

  lemma {:induction false} SortKeysAt(d: Side, keys: set<PriceKey>, i: nat)
    requires i < |SortKeys(d, keys)|
    ensures Rank(d, keys, SortKeys(d, keys)[i]) == i
    decreases |keys|
  {
    hide Ahead, Rank;
    var best := BestKey(d, keys);
    var rest := keys - {best};
    if i == 0 {
      NoneBetter(d, keys, best);
    } else {
      SortKeysAt(d, rest, i - 1);
      SortKeysLists(d, rest);
      OneMoreBetter(d, keys, best, SortKeys(d, rest)[i - 1]);
    }
  }

  lemma NoneBetter(d: Side, keys: set<PriceKey>, best: PriceKey)
    requires forall q :: q in keys ==> !Ahead(d, q.price, best.price)
    ensures Rank(d, keys, best) == 0
  {
    assert (set q | q in keys && Ahead(d, q.price, best.price)) == {};
  }

  lemma OneMoreBetter(d: Side, keys: set<PriceKey>, best: PriceKey, p: PriceKey)
    requires best in keys && p in keys - {best}
    requires forall q :: q in keys ==> !Ahead(d, q.price, best.price)
    ensures Rank(d, keys, p) == Rank(d, keys - {best}, p) + 1
  {
    var rest := keys - {best};
    assert best.price != p.price;
    assert Ahead(d, best.price, p.price);
    assert (set q | q in keys && Ahead(d, q.price, p.price))
      == (set q | q in rest && Ahead(d, q.price, p.price)) + {best};
  }

  /** Bounding keeps, unchanged, exactly the levels with fewer than maxLevels better ones. */
  lemma BoundKeepsBest(m: LevelMap, d: Side, maxLevels: nat)
    ensures forall p :: p in BoundBook(m, d, maxLevels) <==> p in m && Rank(d, m.Keys, p) < maxLevels
    ensures forall p :: p in BoundBook(m, d, maxLevels) ==> BoundBook(m, d, maxLevels)[p] == m[p]
  {
    var keys := SortKeys(d, m.Keys);
    var n := Min(|keys|, maxLevels);
    SortKeysLists(d, m.Keys);
    PickKeeps(m, keys[..n]);
    forall p | p in m
      ensures p in keys[..n] <==> Rank(d, m.Keys, p) < maxLevels
    {
      InFirstKeys(d, m.Keys, n, p);
      RankBelow(d, m.Keys, p);
    }
  }

  /** A side that is small enough is left alone. */
  lemma BoundKeepsSmall(m: LevelMap, d: Side, maxLevels: nat)
    requires |m| <= maxLevels
    ensures BoundBook(m, d, maxLevels) == m
  {
    var keys := SortKeys(d, m.Keys);
    SortKeysLists(d, m.Keys);
    assert |m.Keys| == |m|;
    assert keys[..Min(|keys|, maxLevels)] == keys;
    PickKeeps(m, keys);
    SameEntries(Pick(m, keys), m);
  }

  lemma SameEntries(a: LevelMap, b: LevelMap)
    requires forall p :: p in a <==> p in b
    requires forall p :: p in a ==> a[p] == b[p]
    ensures a == b
  {
  }

  lemma RankBelow(d: Side, keys: set<PriceKey>, p: PriceKey)
    requires p in keys
    ensures Rank(d, keys, p) < |keys|
  {
    var better := set q | q in keys && Ahead(d, q.price, p.price);
    assert better < keys;
    SubsetSize(better, keys);
  }

  lemma SubsetSize(a: set<PriceKey>, b: set<PriceKey>)
    requires a < b
    ensures |a| < |b|
  {
    assert b == a + (b - a);
    assert b - a != {};
  }

  lemma InFirstKeys(d: Side, keys: set<PriceKey>, n: nat, p: PriceKey)
    requires p in keys && n <= |SortKeys(d, keys)|
    ensures p in SortKeys(d, keys)[..n] <==> Rank(d, keys, p) < n
  {
    var sorted := SortKeys(d, keys);
    SortKeysLists(d, keys);
    var i :| 0 <= i < |sorted| && sorted[i] == p;
    SortKeysAt(d, keys, i);
    if i < n {
      assert sorted[..n][i] == p;
    } else if p in sorted[..n] {
      var j :| 0 <= j < n && sorted[..n][j] == p;
      SortKeysAt(d, keys, j);
    }
  }

  // ---------- packets ----------

  function ApplyPacket(prev: GatewayBookState, deltas: seq<GatewayBookDelta>, maxLevels: nat): GatewayBookState {
    var next := ApplyDeltas(prev, deltas);
    GatewayBookState(BoundBook(next.bids, Buy, maxLevels), BoundBook(next.asks, Sell, maxLevels))
  }

  /** Packets whose deltas are missing count as empty. */
  function ApplyPackets(book: GatewayBookState, packets: seq<seq<GatewayBookDelta>>, maxLevels: nat): GatewayBookState
    decreases |packets|
  {
    if packets == [] then book
    else ApplyPackets(ApplyPacket(book, packets[0], maxLevels), packets[1..], maxLevels)
  }

  /** The reducer: copies both sides, updates them key by key, and bounds them. */
  method ApplyGatewayEventPacket(prevBook: GatewayBookState, deltas: seq<GatewayBookDelta>, maxLevels: nat)
    returns (book: GatewayBookState)
    ensures book == ApplyPacket(prevBook, deltas, maxLevels)
    ensures forall d: Side, p :: p in book.Levels(d) ==>
      p in ApplyDeltas(prevBook, deltas).Levels(d)
        && Rank(d, ApplyDeltas(prevBook, deltas).Levels(d).Keys, p) < maxLevels
  {
    hide ApplyDeltas, BoundBook, Rank;
    var nextBids, nextAsks := prevBook.bids, prevBook.asks;
    NoDeltas(prevBook);
    for i := 0 to |deltas|
      invariant GatewayBookState(nextBids, nextAsks) == ApplyDeltas(prevBook, deltas[..i])
    {
      NextDelta(prevBook, deltas, i);
      var delta := deltas[i];
      if delta.price.Some? {
        var price, qty, orders := delta.price.value, OrZero(delta.qty), OrZero(delta.orders);
        if delta.action == Some(Delete) || qty <= 0 || orders <= 0 {
          if SideTarget(delta).Buy? {
            nextBids := nextBids - {Key(price)};
          } else {
            nextAsks := nextAsks - {Key(price)};
          }
        } else {
          var level := OrderBookLevel(price, qty, orders);
          if SideTarget(delta).Buy? {
            nextBids := nextBids[Key(price) := level];
          } else {
            nextAsks := nextAsks[Key(price) := level];
          }
        }
      }
    }
    assert deltas[..|deltas|] == deltas;
    BoundKeepsBest(nextBids, Buy, maxLevels);
    BoundKeepsBest(nextAsks, Sell, maxLevels);
    book := GatewayBookState(BoundBook(nextBids, Buy, maxLevels), BoundBook(nextAsks, Sell, maxLevels));
  }

  lemma NoDeltas(book: GatewayBookState)
    ensures ApplyDeltas(book, []) == book
  {
  }

  lemma NextDelta(book: GatewayBookState, deltas: seq<GatewayBookDelta>, i: nat)
    requires i < |deltas|
    ensures ApplyDeltas(book, deltas[..i + 1]) == ApplyDelta(ApplyDeltas(book, deltas[..i]), deltas[i])
  {
    hide ApplyDelta;
    assert deltas[..i + 1][..i] == deltas[..i];
  }
}
