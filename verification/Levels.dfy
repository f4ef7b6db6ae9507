/**
  One side of a book as the exchange stores it: a map from price to a queue of
  orders, kept in priority order and walked from the best price. A sorted map
  is a sequence of levels here.
 */
module Levels {
  import opened Orders
  import opened BookSpec

  datatype Level = Level(price: int, queue: seq<Order>)

  /** The same orders in price-time order, without the levels. */
  function Flat(ls: seq<Level>): seq<Order> {
    if ls == [] then [] else ls[0].queue + Flat(ls[1..])
  }

  ghost predicate LevelOk(l: Level) {
    l.queue != [] && forall i :: 0 <= i < |l.queue| ==> l.queue[i].price == l.price
  }

  predicate LevelAhead(d: Side, a: Level, b: Level) {
    Ahead(d, a.price, b.price)
  }

  /** No level is empty, orders sit at their own price, better prices come first. */
  ghost predicate Sorted(d: Side, ls: seq<Level>) {
    && (forall i {:trigger LevelOk(ls[i])} :: 0 <= i < |ls| ==> LevelOk(ls[i]))
    && (forall i, j {:trigger LevelAhead(d, ls[i], ls[j])} :: 0 <= i < j < |ls| ==> LevelAhead(d, ls[i], ls[j]))
  }

  /** The place of the level at `price`, or the number of levels if there is none. */
  function LevelIndex(ls: seq<Level>, price: int): (k: nat)
    ensures k <= |ls|
    ensures k < |ls| ==> ls[k].price == price
    ensures forall i :: 0 <= i < k ==> ls[i].price != price
  {
    if ls == [] || ls[0].price == price then 0 else 1 + LevelIndex(ls[1..], price)
  }

  /** Where a level at a price not in the map yet belongs. */
  function LevelSlot(d: Side, ls: seq<Level>, price: int): (k: nat)
    ensures k <= |ls|
    ensures forall i :: 0 <= i < k ==> !Ahead(d, price, ls[i].price)
    ensures k < |ls| ==> Ahead(d, price, ls[k].price)
  {
    if ls == [] || Ahead(d, price, ls[0].price) then 0 else 1 + LevelSlot(d, ls[1..], price)
  }

  function QueueIndex(q: seq<Order>, id: string): (k: nat)
    ensures k <= |q|
    ensures k < |q| ==> q[k].id == id
    ensures forall i :: 0 <= i < k ==> q[i].id != id
  {
    if q == [] || q[0].id == id then 0 else 1 + QueueIndex(q[1..], id)
  }

  function Total(q: seq<Order>): int {
    if q == [] then 0 else q[0].remaining + Total(q[1..])
  }

  lemma {:induction false} TotalSnoc(q: seq<Order>, n: nat)
    requires n < |q|
    ensures Total(q[..n + 1]) == Total(q[..n]) + q[n].remaining
  {
    if n == 0 {
      assert q[..1] == [q[0]] && q[..0] == [];
    } else {
      TotalSnoc(q[1..], n - 1);
      assert q[..n + 1][1..] == q[1..][..n] && q[..n][1..] == q[1..][..n - 1];
    }
  }

  // ---------- levels and the flat view ----------

  lemma {:induction false} FlatSplit(ls: seq<Level>, k: nat)
    requires k < |ls|
    ensures Flat(ls) == Flat(ls[..k]) + ls[k].queue + Flat(ls[k + 1..])
  {
    if k == 0 {
      assert ls[..0] == [];
    } else {
      FlatSplit(ls[1..], k - 1);
      assert ls[..k][1..] == ls[1..][..k - 1];
      assert ls[1..][k..] == ls[k + 1..];
    }
  }

  lemma {:induction false} FlatAppend(a: seq<Level>, b: seq<Level>)
    ensures Flat(a + b) == Flat(a) + Flat(b)
  {
    hide Flat;
    FlatNext(a);
    if a == [] {
      assert a + b == b;
    } else {
      FlatAppend(a[1..], b);
      assert (a + b)[1..] == a[1..] + b;
      FlatNext(a + b);
      assert a[0].queue + (Flat(a[1..]) + Flat(b)) == a[0].queue + Flat(a[1..]) + Flat(b);
    }
  }

  lemma FlatNext(ls: seq<Level>)
    ensures Flat(ls) == if ls == [] then [] else ls[0].queue + Flat(ls[1..])
  {
  }

  ghost predicate NonePriced(f: seq<Order>, price: int) {
    forall i :: 0 <= i < |f| ==> f[i].price != price
  }

  /** Prices of the flat view are prices of levels. */
  lemma {:induction false} FlatAvoids(ls: seq<Level>, price: int)
    requires forall i :: 0 <= i < |ls| ==> LevelOk(ls[i]) && ls[i].price != price
    ensures NonePriced(Flat(ls), price)
  {
    if ls != [] {
      FlatAvoids(ls[1..], price);
    }
  }

  lemma {:induction false} LevelSums(a: seq<Order>, b: seq<Order>, price: int)
    ensures LevelQuantity(a + b, price) == LevelQuantity(a, price) + LevelQuantity(b, price)
    ensures LevelCount(a + b, price) == LevelCount(a, price) + LevelCount(b, price)
  {
    if a == [] {
      assert a + b == b;
    } else {
      LevelSums(a[1..], b, price);
      assert (a + b)[1..] == a[1..] + b;
    }
  }

  lemma {:induction false} LevelSumsNone(f: seq<Order>, price: int)
    requires NonePriced(f, price)
    ensures LevelQuantity(f, price) == 0 && LevelCount(f, price) == 0
  {
    if f != [] {
      LevelSumsNone(f[1..], price);
    }
  }

  lemma {:induction false} LevelSumsAll(f: seq<Order>, price: int)
    requires forall i :: 0 <= i < |f| ==> f[i].price == price
    ensures LevelQuantity(f, price) == Total(f) && LevelCount(f, price) == |f|
  {
    if f != [] {
      LevelSumsAll(f[1..], price);
    }
  }

  /** What the levels say about a price is what the flat view says. */
  lemma LevelTotals(d: Side, ls: seq<Level>, price: int)
    requires Sorted(d, ls)
    ensures var k := LevelIndex(ls, price);
      && LevelQuantity(Flat(ls), price) == (if k < |ls| then Total(ls[k].queue) else 0)
      && LevelCount(Flat(ls), price) == (if k < |ls| then |ls[k].queue| else 0)
  {
    var k := LevelIndex(ls, price);
    if k < |ls| {
      FlatSplit(ls, k);
      var a, q, b := Flat(ls[..k]), ls[k].queue, Flat(ls[k + 1..]);
      LevelAlone(d, ls, k);
      LevelSums(a + q, b, price);
      LevelSums(a, q, price);
      LevelSumsNone(a, price);
      LevelSumsNone(b, price);
      assert LevelOk(ls[k]);
      LevelSumsAll(q, price);
    } else {
      forall i | 0 <= i < |ls| ensures LevelOk(ls[i]) { }
      FlatAvoids(ls, price);
      LevelSumsNone(Flat(ls), price);
    }
  }

  lemma {:induction false} InsertSkips(d: Side, a: seq<Order>, b: seq<Order>, o: Order)
    requires forall i :: 0 <= i < |a| ==> !Ahead(d, o.price, a[i].price)
    ensures Insert(d, a + b, o) == a + Insert(d, b, o)
  {
    if a == [] {
      assert a + b == b && a + Insert(d, b, o) == Insert(d, b, o);
    } else {
      InsertSkips(d, a[1..], b, o);
      assert (a + b)[1..] == a[1..] + b;
      assert a + Insert(d, b, o) == [a[0]] + (a[1..] + Insert(d, b, o));
    }
  }

  lemma {:induction false} FlatNotBehind(d: Side, ls: seq<Level>, price: int)
    requires forall i :: 0 <= i < |ls| ==> LevelOk(ls[i]) && !Ahead(d, price, ls[i].price)
    ensures forall i :: 0 <= i < |Flat(ls)| ==> !Ahead(d, price, Flat(ls)[i].price)
  {
    if ls != [] {
      FlatNotBehind(d, ls[1..], price);
    }
  }

  /** Levels with an order pushed on the back of its queue, a new queue if need be. */
  function PushOrder(d: Side, ls: seq<Level>, o: Order): seq<Level> {
    var k := LevelIndex(ls, o.price);
    if k < |ls| then ls[k := Level(o.price, ls[k].queue + [o])]
    else
      var n := LevelSlot(d, ls, o.price);
      ls[..n] + [Level(o.price, [o])] + ls[n..]
  }

  lemma SortedTail(d: Side, ls: seq<Level>, k: nat)
    requires Sorted(d, ls) && k <= |ls|
    ensures Sorted(d, ls[k..])
  {
    var g := ls[k..];
    forall i | 0 <= i < |g|
      ensures LevelOk(g[i])
    {
      assert LevelOk(ls[k + i]);
    }
    forall i, j | 0 <= i < j < |g|
      ensures LevelAhead(d, g[i], g[j])
    {
      assert LevelAhead(d, ls[k + i], ls[k + j]);
    }
  }

  /** Replacing a level by a non-empty one at the same price. */
  lemma SetLevelSorted(d: Side, ls: seq<Level>, k: nat, l: Level)
    requires Sorted(d, ls) && k < |ls| && LevelOk(l) && l.price == ls[k].price
    ensures Sorted(d, ls[k := l])
  {
    var g := ls[k := l];
    forall i | 0 <= i < |g|
      ensures LevelOk(g[i])
    {
      assert LevelOk(ls[i]);
    }
    forall i, j | 0 <= i < j < |g|
      ensures LevelAhead(d, g[i], g[j])
    {
      assert LevelAhead(d, ls[i], ls[j]);
    }
  }

  lemma InsertLevelSorted(d: Side, ls: seq<Level>, n: nat, l: Level)
    requires Sorted(d, ls) && n <= |ls| && LevelOk(l)
    requires forall i :: 0 <= i < |ls| ==> ls[i].price != l.price
    requires forall i :: 0 <= i < n ==> !Ahead(d, l.price, ls[i].price)
    requires n < |ls| ==> Ahead(d, l.price, ls[n].price)
    ensures Sorted(d, ls[..n] + [l] + ls[n..])
  {
    var g := ls[..n] + [l] + ls[n..];
    forall i | 0 <= i < |g|
      ensures LevelOk(g[i])
    {
      if i != n { assert LevelOk(ls[if i < n then i else i - 1]); }
    }
    forall i, j | 0 <= i < j < |g|
      ensures LevelAhead(d, g[i], g[j])
    {
      if i != n && j != n {
        assert LevelAhead(d, ls[if i < n then i else i - 1], ls[if j < n then j else j - 1]);
      } else if i == n && j > n + 1 {
        assert LevelAhead(d, ls[n], ls[j - 1]);
      }
    }
  }

  lemma PushOrderSorted(d: Side, ls: seq<Level>, o: Order)
    requires Sorted(d, ls)
    ensures Sorted(d, PushOrder(d, ls, o))
  {
    var k := LevelIndex(ls, o.price);
    if k < |ls| {
      assert LevelOk(ls[k]);
      SetLevelSorted(d, ls, k, Level(o.price, ls[k].queue + [o]));
    } else {
      InsertLevelSorted(d, ls, LevelSlot(d, ls, o.price), Level(o.price, [o]));
    }
  }

  lemma PushOnQueue(d: Side, ls: seq<Level>, o: Order, k: nat)
    requires Sorted(d, ls) && k < |ls| && ls[k].price == o.price
    ensures Flat(ls[k := Level(o.price, ls[k].queue + [o])]) == Insert(d, Flat(ls), o)
  {
    var a, q, b := Flat(ls[..k]), ls[k].queue, Flat(ls[k + 1..]);
    var g := ls[k := Level(o.price, q + [o])];
    FlatSplit(ls, k);
    FlatSplit(g, k);
    assert g[..k] == ls[..k] && g[k + 1..] == ls[k + 1..];
    assert Flat(ls) == (a + q) + b;
    assert Flat(g) == (a + q) + ([o] + b) by {
      assert a + (q + [o]) + b == (a + q) + ([o] + b);
    }
    forall i | 0 <= i < |ls|
      ensures LevelOk(ls[i]) && (i < k ==> !Ahead(d, o.price, ls[i].price))
        && (i > k ==> Ahead(d, o.price, ls[i].price))
    {
      assert LevelOk(ls[i]);
      if i != k { assert LevelAhead(d, ls[if i < k then i else k], ls[if i < k then k else i]); }
    }
    FlatNotBehind(d, ls[..k], o.price);
    InsertSkips(d, a + q, b, o);
    SortedTail(d, ls, k + 1);
    InsertInFront(d, ls[k + 1..], o);
  }

  lemma PushNewLevel(d: Side, ls: seq<Level>, o: Order, n: nat)
    requires Sorted(d, ls) && n <= |ls|
    requires forall i :: 0 <= i < n ==> !Ahead(d, o.price, ls[i].price)
    requires n < |ls| ==> Ahead(d, o.price, ls[n].price)
    ensures Flat(ls[..n] + [Level(o.price, [o])] + ls[n..]) == Insert(d, Flat(ls), o)
  {
    hide Flat, Insert, LevelOk;
    var l := Level(o.price, [o]);
    var a, b := Flat(ls[..n]), Flat(ls[n..]);
    assert ls[..n] + ls[n..] == ls;
    FlatAppend(ls[..n], ls[n..]);
    FlatAppend(ls[..n] + [l], ls[n..]);
    FlatAppend(ls[..n], [l]);
    FlatNext([l]);
    FlatNext([]);
    assert [l][1..] == [] && Flat([l]) == [o];
    forall i | 0 <= i < |ls| ensures LevelOk(ls[i]) { }
    SortedTail(d, ls, n);
    FlatNotBehind(d, ls[..n], o.price);
    InsertSkips(d, a, b, o);
    forall i | 0 <= i < |ls[n..]|
      ensures Ahead(d, o.price, ls[n..][i].price)
    {
      if i > 0 { assert LevelAhead(d, ls[n], ls[n + i]); }
    }
    InsertInFront(d, ls[n..], o);
    assert a + [o] + b == a + ([o] + b);
  }

  lemma PushOrderFlat(d: Side, ls: seq<Level>, o: Order)
    requires Sorted(d, ls)
    ensures Flat(PushOrder(d, ls, o)) == Insert(d, Flat(ls), o)
  {
    var k := LevelIndex(ls, o.price);
    if k < |ls| {
      PushOnQueue(d, ls, o, k);
    } else {
      PushNewLevel(d, ls, o, LevelSlot(d, ls, o.price));
    }
  }

  lemma InsertInFront(d: Side, ls: seq<Level>, o: Order)
    requires Sorted(d, ls)
    requires forall i :: 0 <= i < |ls| ==> Ahead(d, o.price, ls[i].price)
    ensures Insert(d, Flat(ls), o) == [o] + Flat(ls)
  {
    if ls != [] {
      assert LevelOk(ls[0]);
      assert Flat(ls)[0] == ls[0].queue[0];
    }
  }

  lemma {:induction false} WithoutSkips(a: seq<Order>, b: seq<Order>, id: string)
    requires forall i :: 0 <= i < |a| ==> a[i].id != id
    ensures Without(a + b, id) == a + Without(b, id)
    ensures HasId(b, id) ==> HasId(a + b, id) && Find(a + b, id) == Find(b, id)
  {
    if HasId(b, id) {
      var i :| 0 <= i < |b| && b[i].id == id;
      assert (a + b)[|a| + i].id == id;
    }
    if a == [] {
      assert a + b == b && a + Without(b, id) == Without(b, id);
    } else {
      WithoutSkips(a[1..], b, id);
      assert (a + b)[1..] == a[1..] + b;
      assert a + Without(b, id) == [a[0]] + (a[1..] + Without(b, id));
    }
  }

  /** Levels without order j of level k; an emptied level goes too. */
  function DropOrder(ls: seq<Level>, k: nat, j: nat): seq<Level>
    requires k < |ls| && j < |ls[k].queue|
  {
    var q := ls[k].queue[..j] + ls[k].queue[j + 1..];
    if q == [] then ls[..k] + ls[k + 1..] else ls[k := Level(ls[k].price, q)]
  }

  lemma DropLevelSorted(d: Side, ls: seq<Level>, k: nat)
    requires Sorted(d, ls) && k < |ls|
    ensures Sorted(d, ls[..k] + ls[k + 1..])
  {
    var g := ls[..k] + ls[k + 1..];
    forall i | 0 <= i < |g|
      ensures LevelOk(g[i])
    {
      assert LevelOk(ls[if i < k then i else i + 1]);
    }
    forall i, j | 0 <= i < j < |g|
      ensures LevelAhead(d, g[i], g[j])
    {
      assert LevelAhead(d, ls[if i < k then i else i + 1], ls[if j < k then j else j + 1]);
    }
  }

  lemma DropOrderSorted(d: Side, ls: seq<Level>, k: nat, j: nat)
    requires Sorted(d, ls) && k < |ls| && j < |ls[k].queue|
    ensures Sorted(d, DropOrder(ls, k, j))
  {
    var q := ls[k].queue[..j] + ls[k].queue[j + 1..];
    assert LevelOk(ls[k]);
    if q == [] {
      DropLevelSorted(d, ls, k);
    } else {
      SetLevelSorted(d, ls, k, Level(ls[k].price, q));
    }
  }

  /** The price of a level has no orders in front of it or behind it. */
  lemma LevelAlone(d: Side, ls: seq<Level>, k: nat)
    requires Sorted(d, ls) && k < |ls|
    ensures NonePriced(Flat(ls[..k]), ls[k].price) && NonePriced(Flat(ls[k + 1..]), ls[k].price)
  {
    forall i | 0 <= i < |ls|
      ensures LevelOk(ls[i]) && (i != k ==> ls[i].price != ls[k].price)
    {
      assert LevelOk(ls[i]);
      if i != k { assert LevelAhead(d, ls[if i < k then i else k], ls[if i < k then k else i]); }
    }
    FlatAvoids(ls[..k], ls[k].price);
    FlatAvoids(ls[k + 1..], ls[k].price);
  }

  lemma DropOrderFlat(ls: seq<Level>, k: nat, j: nat, id: string)
    requires k < |ls| && j < |ls[k].queue| && ls[k].queue[j].id == id
    requires forall i :: 0 <= i < |Flat(ls[..k])| ==> Flat(ls[..k])[i].id != id
    requires forall i :: 0 <= i < j ==> ls[k].queue[i].id != id
    ensures Flat(DropOrder(ls, k, j)) == Without(Flat(ls), id)
    ensures HasId(Flat(ls), id) && Find(Flat(ls), id) == ls[k].queue[j]
  {
    var a, q, b := Flat(ls[..k]), ls[k].queue, Flat(ls[k + 1..]);
    var g := DropOrder(ls, k, j);
    FlatSplit(ls, k);
    WithoutMiddle(a, q, b, j, id);
    var q' := q[..j] + q[j + 1..];
    if q' == [] {
      FlatAppend(ls[..k], ls[k + 1..]);
      assert a + q' + b == a + b;
    } else {
      FlatSplit(g, k);
      assert g[..k] == ls[..k] && g[k + 1..] == ls[k + 1..];
    }
  }

  lemma WithoutMiddle(a: seq<Order>, q: seq<Order>, b: seq<Order>, j: nat, id: string)
    requires j < |q| && q[j].id == id
    requires forall i :: 0 <= i < |a| ==> a[i].id != id
    requires forall i :: 0 <= i < j ==> q[i].id != id
    ensures Without(a + q + b, id) == a + (q[..j] + q[j + 1..]) + b
    ensures HasId(a + q + b, id) && Find(a + q + b, id) == q[j]
  {
    var front, back := a + q[..j], q[j..] + b;
    assert a + q + b == front + back;
    assert back[0].id == id && back[1..] == q[j + 1..] + b;
    WithoutSkips(front, back, id);
    assert front + (q[j + 1..] + b) == a + (q[..j] + q[j + 1..]) + b;
  }
}
