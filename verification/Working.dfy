/**
  The list of working orders: everything in the registry, sorted by symbol,
  then time, then sequence.
 */
module Working {
  import opened Orders
  import opened BookSpec

  /** Lexicographic order on strings. */
  predicate StringLess(a: string, b: string) {
    if b == "" then false
    else if a == "" then true
    else if a[0] != b[0] then a[0] < b[0]
    else StringLess(a[1..], b[1..])
  }

  predicate KeyLess(a: Order, b: Order) {
    if a.symbol != b.symbol then StringLess(a.symbol, b.symbol)
    else if a.time != b.time then a.time < b.time
    else a.sequence < b.sequence
  }

  lemma {:induction false} StringLessOrder(a: string, b: string, c: string)
    ensures !(StringLess(a, b) && StringLess(b, a))
    ensures !StringLess(a, b) && !StringLess(b, a) ==> a == b
    ensures StringLess(a, b) && StringLess(b, c) ==> StringLess(a, c)
  {
    if a != "" && b != "" && a[0] == b[0] {
      StringLessOrder(a[1..], b[1..], if c == "" then "" else c[1..]);
      if !StringLess(a, b) && !StringLess(b, a) {
        assert a == [a[0]] + a[1..] && b == [b[0]] + b[1..];
      }
    }
  }

  /** The comparison never puts a pair both ways round and is transitive, ties included. */
  lemma KeyLessWeakOrder(a: Order, b: Order, c: Order)
    ensures !(KeyLess(a, b) && KeyLess(b, a))
    ensures KeyLess(a, b) && KeyLess(b, c) ==> KeyLess(a, c)
    ensures !KeyLess(b, a) && !KeyLess(c, b) ==> !KeyLess(c, a)
  {
    StringLessOrder(a.symbol, b.symbol, c.symbol);
    StringLessOrder(b.symbol, a.symbol, c.symbol);
    StringLessOrder(c.symbol, b.symbol, a.symbol);
    StringLessOrder(b.symbol, c.symbol, a.symbol);
    StringLessOrder(a.symbol, c.symbol, b.symbol);
    StringLessOrder(c.symbol, a.symbol, b.symbol);
  }

  predicate InKeyOrder(a: Order, b: Order) {
    !KeyLess(b, a)
  }

  ghost predicate KeySorted(w: seq<Order>) {
    forall i, j {:trigger InKeyOrder(w[i], w[j])} :: 0 <= i < j < |w| ==> InKeyOrder(w[i], w[j])
  }

  /** Lexicographic: at the first place where they differ, a has the smaller character or has ended. */
  lemma {:induction false} StringLessIs(a: string, b: string, k: nat)
    requires k <= |a| && k <= |b| && a[..k] == b[..k]
    ensures k == |a| < |b| ==> StringLess(a, b) && !StringLess(b, a)
    ensures k < |a| && k < |b| && a[k] < b[k] ==> StringLess(a, b) && !StringLess(b, a)
    decreases k
  {
    if k > 0 {
      assert a[0] == a[..k][0] == b[..k][0] == b[0];
      assert a[1..][..k - 1] == a[..k][1..] && b[1..][..k - 1] == b[..k][1..];
      StringLessIs(a[1..], b[1..], k - 1);
    }
  }

  /** In a sorted list symbols come one after the other, within a symbol times, and within a time sequences. */
  lemma SortedBySymbolTimeSequence(w: seq<Order>, i: nat, j: nat)
    requires KeySorted(w) && i < j < |w|
    ensures w[i].symbol == w[j].symbol || StringLess(w[i].symbol, w[j].symbol)
    ensures w[i].symbol == w[j].symbol ==>
      w[i].time < w[j].time || (w[i].time == w[j].time && w[i].sequence <= w[j].sequence)
  {
    assert InKeyOrder(w[i], w[j]);
    StringLessOrder(w[i].symbol, w[j].symbol, "");
  }

  function InsertByKey(w: seq<Order>, o: Order): seq<Order> {
    if w == [] || KeyLess(o, w[0]) then [o] + w else [w[0]] + InsertByKey(w[1..], o)
  }

  function SortByKey(w: seq<Order>): seq<Order> {
    if w == [] then [] else InsertByKey(SortByKey(w[1..]), w[0])
  }

  lemma {:induction false} InsertByKeyKeeps(w: seq<Order>, o: Order)
    ensures multiset(InsertByKey(w, o)) == multiset(w) + multiset{o}
  {
    if w != [] && !KeyLess(o, w[0]) {
      InsertByKeyKeeps(w[1..], o);
      assert w == [w[0]] + w[1..];
    }
  }

  /** What is in order with every element of w and with o is in order with the result. */
  lemma {:induction false} InsertByKeyAfter(w: seq<Order>, o: Order, a: Order)
    requires InKeyOrder(a, o) && forall n :: 0 <= n < |w| ==> InKeyOrder(a, w[n])
    ensures forall n :: 0 <= n < |InsertByKey(w, o)| ==> InKeyOrder(a, InsertByKey(w, o)[n])
  {
    if w != [] && !KeyLess(o, w[0]) {
      InsertByKeyAfter(w[1..], o, a);
    }
  }

  lemma PrependSorted(a: Order, w: seq<Order>)
    requires KeySorted(w) && forall n :: 0 <= n < |w| ==> InKeyOrder(a, w[n])
    ensures KeySorted([a] + w)
  {
    var r := [a] + w;
    forall i, j | 0 <= i < j < |r|
      ensures InKeyOrder(r[i], r[j])
    {
      if i > 0 { assert InKeyOrder(w[i - 1], w[j - 1]); }
    }
  }

  lemma {:induction false} InsertByKeySorts(w: seq<Order>, o: Order)
    requires KeySorted(w)
    ensures KeySorted(InsertByKey(w, o))
  {
    if w == [] || KeyLess(o, w[0]) {
      forall n | 0 <= n < |w|
        ensures InKeyOrder(o, w[n])
      {
        if n > 0 { assert InKeyOrder(w[0], w[n]); }
        KeyLessWeakOrder(o, w[0], w[n]);
      }
      PrependSorted(o, w);
    } else {
      KeySortedTail(w);
      InsertByKeySorts(w[1..], o);
      forall n | 0 <= n < |w[1..]|
        ensures InKeyOrder(w[0], w[1..][n])
      {
        assert InKeyOrder(w[0], w[n + 1]);
      }
      InsertByKeyAfter(w[1..], o, w[0]);
      PrependSorted(w[0], InsertByKey(w[1..], o));
    }
  }

  lemma KeySortedTail(w: seq<Order>)
    requires w != [] && KeySorted(w)
    ensures KeySorted(w[1..])
  {
    forall i, j | 0 <= i < j < |w[1..]|
      ensures InKeyOrder(w[1..][i], w[1..][j])
    {
      assert InKeyOrder(w[i + 1], w[j + 1]);
    }
  }

  /** Sorting gives the same orders, in key order. */
  lemma {:induction false} SortByKeySorts(w: seq<Order>)
    ensures KeySorted(SortByKey(w)) && multiset(SortByKey(w)) == multiset(w)
  {
    if w != [] {
      SortByKeySorts(w[1..]);
      InsertByKeySorts(SortByKey(w[1..]), w[0]);
      InsertByKeyKeeps(SortByKey(w[1..]), w[0]);
      assert w == [w[0]] + w[1..];
    }
  }

  predicate DifferentIds(a: Order, b: Order) {
    a.id != b.id
  }

  ghost predicate OncePerId(w: seq<Order>) {
    forall i, j {:trigger DifferentIds(w[i], w[j])} :: 0 <= i < j < |w| ==> DifferentIds(w[i], w[j])
  }

  /** w lists every resting order exactly once. */
  ghost predicate ListsAll(s: State, w: seq<Order>)
    requires Locatable(s)
  {
    && (forall o :: o in w ==> o.id in s.registry && o == Located(s, o.id))
    && (forall id :: id in s.registry ==> HasId(w, id))
    && OncePerId(w)
  }

  ghost predicate WorkingOrders(s: State, w: seq<Order>)
    requires Locatable(s)
  {
    ListsAll(s, w) && KeySorted(w)
  }

  /** Reordering a list keeps what it lists. */
  lemma ListsAllPermutes(s: State, w: seq<Order>, v: seq<Order>)
    requires Locatable(s) && ListsAll(s, w) && multiset(v) == multiset(w)
    ensures ListsAll(s, v)
  {
    forall o | o in v
      ensures o.id in s.registry && o == Located(s, o.id)
    {
      assert o in multiset(v);
    }
    forall id | id in s.registry
      ensures HasId(v, id)
    {
      assert HasId(w, id);
      var i :| 0 <= i < |w| && w[i].id == id;
      assert w[i] in multiset(w);
      var j :| 0 <= j < |v| && v[j] == w[i];
    }
    forall i, j | 0 <= i < j < |v|
      ensures DifferentIds(v[i], v[j])
    {
      if v[i].id == v[j].id {
        assert v[i] in multiset(v) && v[j] in multiset(v);
        assert v[i] == Located(s, v[i].id) == v[j];
        TwiceInSequence(v, i, j);
        OnceInSequence(w, v[i]);
      }
    }
  }

  lemma TwiceInSequence(v: seq<Order>, i: nat, j: nat)
    requires i < j < |v| && v[i] == v[j]
    ensures multiset(v)[v[i]] >= 2
  {
    assert v == v[..i + 1] + v[i + 1..];
    assert v[..i + 1][i] == v[i] && v[i + 1..][j - i - 1] == v[i];
    assert multiset(v[..i + 1])[v[i]] >= 1 && multiset(v[i + 1..])[v[i]] >= 1;
  }

  lemma {:induction false} OnceInSequence(w: seq<Order>, o: Order)
    requires OncePerId(w)
    ensures multiset(w)[o] <= 1
  {
    if w != [] {
      assert w == [w[0]] + w[1..];
      forall i, j | 0 <= i < j < |w[1..]|
        ensures DifferentIds(w[1..][i], w[1..][j])
      {
        assert DifferentIds(w[i + 1], w[j + 1]);
      }
      OnceInSequence(w[1..], o);
      forall i | 0 <= i < |w[1..]|
        ensures w[1..][i] != w[0]
      {
        assert DifferentIds(w[0], w[i + 1]);
      }
    }
  }
}
