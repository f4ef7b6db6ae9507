/**
  Restarting the exchange: the saved working orders, sorted by symbol, time and
  sequence, are submitted to a fresh exchange and the batches are thrown away.
  No order trades or is refused on the way, every level comes back with its
  totals, and the queues come back in order exactly when no order in a level
  carries an earlier time than an order ahead of it.
 */
module Restart {
  import opened Orders
  import opened BookSpec
  import opened BookInvariant
  import opened Levels
  import opened Runs
  import opened Working

  /** The command that the saved record of a working order becomes. */
  function SavedCommand(o: Order): OrderCommand
    requires Priced(o)
  {
    OrderCommand(o.id, o.symbol, o.side, o.kind, o.tif, Ticks(o.price), o.remaining, o.time, o.metadata)
  }

  /** Records that name no order, no symbol or no quantity are skipped. */
  predicate Restorable(o: Order) {
    o.id != "" && o.symbol != "" && o.remaining > 0
  }

  function Restore(s: State, w: seq<Order>, now: Clock): Outcome
    requires WellFormed(s) && forall i :: 0 <= i < |w| ==> Priced(w[i])
    decreases |w|
  {
    if w == [] then Outcome(s, EMPTY)
    else if !Restorable(w[0]) then Restore(s, w[1..], now)
    else
      var o := Next(s, Input(SubmitOrder(SavedCommand(w[0])), now));
      var later := Restore(o.state, w[1..], now);
      Outcome(later.state, o.batch.Then(later.batch))
  }

  // ---------- rebuilt queues ----------

  /** The same working order, its original quantity and its sequence aside. */
  predicate Reborn(a: Order, b: Order) {
    a == b.(original := b.remaining, sequence := a.sequence)
  }

  ghost predicate SameQueue(f: seq<Order>, g: seq<Order>) {
    |f| == |g| && forall i :: 0 <= i < |f| ==> Reborn(f[i], g[i])
  }

  /** The queue that resting the orders of w one after the other builds. */
  function Rebuilt(w: seq<Order>, symbol: string, d: Side): seq<Order> {
    if w == [] then []
    else
      var n := |w| - 1;
      var f := Rebuilt(w[..n], symbol, d);
      if w[n].symbol == symbol && w[n].side == d then Insert(d, f, w[n]) else f
  }

  lemma RebuiltSnoc(v: seq<Order>, o: Order, symbol: string, d: Side)
    ensures Rebuilt(v + [o], symbol, d)
         == if o.symbol == symbol && o.side == d then Insert(d, Rebuilt(v, symbol, d), o) else Rebuilt(v, symbol, d)
  {
    assert (v + [o])[..|v|] == v;
  }

  lemma InsertMembers(d: Side, f: seq<Order>, o: Order)
    ensures multiset(Insert(d, f, o)) == multiset(f) + multiset{o}
  {
    var k := InsertAt(d, f, o);
    assert f == f[..k] + f[k..];
  }

  /** The orders of w for one side, in w's order. */
  function Selected(w: seq<Order>, symbol: string, d: Side): seq<Order> {
    if w == [] then []
    else
      var n := |w| - 1;
      Selected(w[..n], symbol, d) + if w[n].symbol == symbol && w[n].side == d then [w[n]] else []
  }

  lemma {:induction false} SelectedMembers(w: seq<Order>, symbol: string, d: Side)
    ensures forall o :: o in Selected(w, symbol, d) <==> o in w && o.symbol == symbol && o.side == d
  {
    if w != [] {
      var n := |w| - 1;
      SelectedMembers(w[..n], symbol, d);
      assert w == w[..n] + [w[n]];
    }
  }

  lemma {:induction false} RebuiltMembers(w: seq<Order>, symbol: string, d: Side)
    ensures multiset(Rebuilt(w, symbol, d)) == multiset(Selected(w, symbol, d))
    ensures forall o :: o in Rebuilt(w, symbol, d) <==> o in w && o.symbol == symbol && o.side == d
  {
    if w != [] {
      var n := |w| - 1;
      RebuiltMembers(w[..n], symbol, d);
      InsertMembers(d, Rebuilt(w[..n], symbol, d), w[n]);
    }
    SelectedMembers(w, symbol, d);
    forall o
      ensures o in Rebuilt(w, symbol, d) <==> o in Selected(w, symbol, d)
    {
      assert o in Rebuilt(w, symbol, d) <==> o in multiset(Rebuilt(w, symbol, d));
      assert o in Selected(w, symbol, d) <==> o in multiset(Selected(w, symbol, d));
    }
  }

  /** The order in which restoring leaves a queue. */
  predicate Restored(d: Side, a: Order, b: Order) {
    Ahead(d, a.price, b.price) || (a.price == b.price && InKeyOrder(a, b))
  }

  ghost predicate RestoredOrder(d: Side, f: seq<Order>) {
    forall i, j {:trigger Restored(d, f[i], f[j])} :: 0 <= i < j < |f| ==> Restored(d, f[i], f[j])
  }

  lemma {:induction false} InsertRestored(d: Side, f: seq<Order>, o: Order)
    requires RestoredOrder(d, f) && forall i :: 0 <= i < |f| ==> InKeyOrder(f[i], o)
    ensures RestoredOrder(d, Insert(d, f, o))
  {
    var k := InsertAt(d, f, o);
    var g := Insert(d, f, o);
    assert forall i :: 0 <= i < |g| ==> g[i] == if i < k then f[i] else if i == k then o else f[i - 1];
    forall i, j | 0 <= i < j < |g|
      ensures Restored(d, g[i], g[j])
    {
      if i != k && j != k {
        assert Restored(d, f[if i < k then i else i - 1], f[if j < k then j else j - 1]);
      } else if i == k && j > k + 1 {
        assert Restored(d, f[k], f[j - 1]);
      }
    }
  }

  lemma {:induction false} RebuiltInOrder(w: seq<Order>, symbol: string, d: Side)
    requires KeySorted(w)
    ensures RestoredOrder(d, Rebuilt(w, symbol, d))
  {
    if w != [] {
      var n := |w| - 1;
      var f := Rebuilt(w[..n], symbol, d);
      forall i, j | 0 <= i < j < n
        ensures InKeyOrder(w[..n][i], w[..n][j])
      {
        assert InKeyOrder(w[i], w[j]);
      }
      RebuiltInOrder(w[..n], symbol, d);
      RebuiltMembers(w[..n], symbol, d);
      forall i | 0 <= i < |f|
        ensures InKeyOrder(f[i], w[n])
      {
        assert f[i] in w[..n];
        var k :| 0 <= k < n && w[k] == f[i];
        assert InKeyOrder(w[k], w[n]);
      }
      InsertRestored(d, f, w[n]);
    }
  }

  // ---------- no fill and no rejection ----------

  predicate QuietReport(r: ExecutionReport) {
    r.fill == 0 && (r.status.Accepted? || r.status.Resting?)
  }

  ghost predicate Quiet(b: Batch) {
    forall i :: 0 <= i < |b.reports| ==> QuietReport(b.reports[i])
  }

  /** t is what resting the orders of v has made of a fresh exchange. */
  ghost predicate Image(t: State, symbols: set<string>, v: seq<Order>) {
    && t.books.Keys == symbols
    && forall symbol, d: Side :: symbol in symbols ==> SameQueue(t.books[symbol].Orders(d), Rebuilt(v, symbol, d))
  }

  lemma {:induction false} InsertSame(d: Side, f: seq<Order>, g: seq<Order>, a: Order, b: Order)
    requires SameQueue(f, g) && Reborn(a, b)
    ensures SameQueue(Insert(d, f, a), Insert(d, g, b))
  {
    if f != [] && !Ahead(d, a.price, f[0].price) {
      InsertSame(d, f[1..], g[1..], a, b);
    }
  }

  /** Orders that may rest together: right in themselves and not crossing. */
  ghost predicate Compatible(w: seq<Order>, symbols: set<string>) {
    && (forall o :: o in w ==> o.symbol in symbols && MayRest(o, o.symbol, o.side, o.sequence))
    && (forall a, b :: a in w && b in w && a.symbol == b.symbol && a.side == Opposite(b.side) ==>
          !Crosses(a.side, a.price, b.price))
    && OncePerId(w)
  }

  /** Everything resting in the image is a saved order. */
  lemma ImageOrder(t: State, symbols: set<string>, v: seq<Order>, symbol: string, d: Side, i: nat) returns (o: Order)
    requires Image(t, symbols, v) && symbol in symbols && i < |t.books[symbol].Orders(d)|
    ensures o in v && o.symbol == symbol && o.side == d && Reborn(t.books[symbol].Orders(d)[i], o)
  {
    RebuiltMembers(v, symbol, d);
    o := Rebuilt(v, symbol, d)[i];
    assert SameQueue(t.books[symbol].Orders(d), Rebuilt(v, symbol, d));
    assert o in Rebuilt(v, symbol, d);
  }

  lemma NotRegistered(t: State, symbols: set<string>, v: seq<Order>, id: string)
    requires WellFormed(t) && Image(t, symbols, v) && forall o :: o in v ==> o.id != id
    ensures id !in t.registry
  {
    if id in t.registry {
      var at := t.registry[id];
      assert BookOk(t, at.symbol);
      var f := t.books[at.symbol].Orders(at.side);
      assert HasId(f, id);
      var i :| 0 <= i < |f| && f[i].id == id;
      var o := ImageOrder(t, symbols, v, at.symbol, at.side, i);
      assert false;
    }
  }

  lemma SavedTradesNothing(t: State, symbols: set<string>, v: seq<Order>, o: Order, now: Clock)
    requires WellFormed(t) && Sound(t) && Image(t, symbols, v) && Compatible(v + [o], symbols)
    ensures Priced(o) && Refusal(t, SavedCommand(o)).None?
    ensures var m := StartMatch(t, SavedCommand(o), now); !CanMatch(m) && Reborn(m.incoming, o)
    ensures o.kind.Limit? && !o.tif.Ioc? && o.remaining > 0
  {
    var d := Opposite(o.side);
    assert o in v + [o];
    assert MayRest(o, o.symbol, o.side, o.sequence);
    assert forall x :: x in v ==> x in v + [o];
    forall x | x in v
      ensures x.id != o.id
    {
      var i :| 0 <= i < |v| && v[i] == x;
      assert DifferentIds((v + [o])[i], (v + [o])[|v|]);
    }
    NotRegistered(t, symbols, v, o.id);
    if t.books[o.symbol].Orders(d) != [] {
      var x := ImageOrder(t, symbols, v, o.symbol, d, 0);
    }
  }

  lemma SubmitSaved(t: State, symbols: set<string>, v: seq<Order>, o: Order, now: Clock)
    requires WellFormed(t) && Sound(t) && Image(t, symbols, v) && Compatible(v + [o], symbols) && Priced(o)
    ensures var r := Submit(t, SavedCommand(o), now); Quiet(r.batch) && Image(r.state, symbols, v + [o])
  {
    SavedTradesNothing(t, symbols, v, o, now);
    hide WellFormed, Sound, Compatible;
    var c := SavedCommand(o);
    var m := StartMatch(t, c, now);
    var s := AfterMatch(t, c, m);
    RestSaved(t, symbols, v, o, s, m, EffectiveTime(c.time, now));
    assert Submit(t, c, now) == Rest(s, m.incoming, m.batch, EffectiveTime(c.time, now));
  }

  lemma RestSaved(t: State, symbols: set<string>, v: seq<Order>, o: Order, s: State, m: Matching, time: nat)
    requires Image(t, symbols, v) && o.symbol in symbols && Reborn(m.incoming, o) && Priced(o)
    requires s.books.Keys == symbols && forall symbol :: symbol in symbols ==> s.books[symbol] == t.books[symbol]
    ensures Image(Rest(s, m.incoming, m.batch, time).state, symbols, v + [o])
    ensures |m.batch.reports| == 1 && QuietReport(m.batch.reports[0]) ==>
      Quiet(Rest(s, m.incoming, m.batch, time).batch)
  {
    var r := Rest(s, m.incoming, m.batch, time).state;
    forall symbol, d: Side | symbol in symbols
      ensures SameQueue(r.books[symbol].Orders(d), Rebuilt(v + [o], symbol, d))
    {
      RebuiltSnoc(v, o, symbol, d);
      if o.symbol == symbol && o.side == d {
        InsertSame(d, t.books[symbol].Orders(d), Rebuilt(v, symbol, d), m.incoming, o);
      }
    }
  }

  lemma {:induction false} RestoreImage(t: State, symbols: set<string>, v: seq<Order>, w: seq<Order>, now: Clock)
    requires WellFormed(t) && Image(t, symbols, v) && Compatible(v + w, symbols) && "" !in symbols
    requires forall i :: 0 <= i < |w| ==> Priced(w[i])
    ensures Quiet(Restore(t, w, now).batch) && Image(Restore(t, w, now).state, symbols, v + w)
    decreases |w|
  {
    hide Image, Compatible, WellFormed, Quiet;
    if w == [] {
      assert v + w == v;
      QuietEmpty();
    } else {
      var o := w[0];
      assert v + w == (v + [o]) + w[1..];
      WellFormedIsSound(t);
      CompatibleRestorable(v + w, symbols, o);
      FrontCompatible(v + [o], w[1..], symbols);
      SubmitSaved(t, symbols, v, o, now);
      var n := Next(t, Input(SubmitOrder(SavedCommand(o)), now));
      RestoreImage(n.state, symbols, v + [o], w[1..], now);
      QuietThen(n.batch, Restore(n.state, w[1..], now).batch);
    }
  }

  lemma QuietEmpty()
    ensures Quiet(EMPTY)
  {
  }

  lemma QuietThen(a: Batch, b: Batch)
    requires Quiet(a) && Quiet(b)
    ensures Quiet(a.Then(b))
  {
  }

  lemma CompatibleRestorable(w: seq<Order>, symbols: set<string>, o: Order)
    requires Compatible(w, symbols) && o in w && "" !in symbols
    ensures Restorable(o)
  {
  }

  lemma FrontCompatible(a: seq<Order>, b: seq<Order>, symbols: set<string>)
    requires Compatible(a + b, symbols)
    ensures Compatible(a, symbols)
  {
    assert forall x :: x in a ==> x in a + b;
    forall i, j | 0 <= i < j < |a|
      ensures DifferentIds(a[i], a[j])
    {
      assert DifferentIds((a + b)[i], (a + b)[j]);
    }
  }

  // ---------- the working orders of a state ----------

  /** An order is working exactly if it rests on its side. */
  lemma WorkingMembers(s: State, w: seq<Order>, symbol: string, d: Side)
    requires WellFormed(s) && Locatable(s) && ListsAll(s, w) && symbol in s.books
    ensures forall o :: (o in w && o.symbol == symbol && o.side == d) <==> o in s.books[symbol].Orders(d)
  {
    var f := s.books[symbol].Orders(d);
    assert BookOk(s, symbol);
    forall o | o in f
      ensures o in w && o.symbol == symbol && o.side == d
    {
      var i :| 0 <= i < |f| && f[i] == o;
      assert HasId(w, o.id);
      var j :| 0 <= j < |w| && w[j].id == o.id;
      assert w[j] in w;
      FindsItself(f, i, symbol, d, s.registry);
    }
    forall o | o in w && o.symbol == symbol && o.side == d
      ensures o in f
    {
      var at := s.registry[o.id];
      var g := s.books[at.symbol].Orders(at.side);
      FindIsMember(g, o.id);
      assert BookOk(s, at.symbol);
      assert MayRest(o, at.symbol, at.side, s.sequence);
    }
  }

  lemma WorkingCompatible(s: State, w: seq<Order>)
    requires WellFormed(s) && Locatable(s) && ListsAll(s, w)
    ensures Compatible(w, s.books.Keys) && forall i :: 0 <= i < |w| ==> Priced(w[i])
  {
    forall o | o in w
      ensures o.symbol in s.books.Keys && MayRest(o, o.symbol, o.side, o.sequence)
      ensures o in s.books[o.symbol].Orders(o.side)
    {
      var at := s.registry[o.id];
      FindIsMember(s.books[at.symbol].Orders(at.side), o.id);
      assert BookOk(s, at.symbol);
      assert MayRest(o, at.symbol, at.side, s.sequence);
    }
    forall a, b | a in w && b in w && a.symbol == b.symbol && a.side == Opposite(b.side)
      ensures !Crosses(a.side, a.price, b.price)
    {
      assert BookOk(s, a.symbol);
      var f, g := s.books[a.symbol].Orders(a.side), s.books[a.symbol].Orders(b.side);
      var i :| 0 <= i < |f| && f[i] == a;
      var j :| 0 <= j < |g| && g[j] == b;
      if a.side.Buy? { assert Below(f[i], g[j]); } else { assert Below(g[j], f[i]); }
    }
    forall i | 0 <= i < |w|
      ensures Priced(w[i])
    {
      assert w[i] in w;
    }
  }

  // ---------- which order comes back ----------

  /** In every level times do not decrease down the queue. */
  ghost predicate TimesFollow(f: seq<Order>) {
    forall i, j :: 0 <= i < j < |f| && f[i].price == f[j].price ==> f[i].time <= f[j].time
  }

  ghost predicate TimesFollowQueues(s: State) {
    forall symbol :: symbol in s.books ==> TimesFollow(s.books[symbol].bids) && TimesFollow(s.books[symbol].asks)
  }

  /** Every queue holds the same orders in the same places. */
  ghost predicate SameQueues(r: State, s: State) {
    && r.books.Keys == s.books.Keys
    && forall symbol :: symbol in s.books ==>
         SameQueue(r.books[symbol].bids, s.books[symbol].bids) && SameQueue(r.books[symbol].asks, s.books[symbol].asks)
  }

  ghost predicate NoTies(d: Side, f: seq<Order>) {
    forall a, b :: a in f && b in f && Restored(d, a, b) && Restored(d, b, a) ==> a == b
  }

  lemma QueueHasNoTies(f: seq<Order>, symbol: string, d: Side, bound: nat)
    requires QueueOk(f, symbol, d, bound)
    ensures NoTies(d, f)
  {
    forall i, j | 0 <= i < j < |f|
      ensures !(Restored(d, f[i], f[j]) && Restored(d, f[j], f[i]))
    {
      assert Before(d, f[i], f[j]);
    }
  }

  /** Two arrangements of the same orders that are both in restored order are the same. */
  lemma {:induction false} OneRestoredOrder(d: Side, f: seq<Order>, g: seq<Order>)
    requires RestoredOrder(d, f) && RestoredOrder(d, g) && multiset(f) == multiset(g) && NoTies(d, f)
    ensures f == g
  {
    hide RestoredOrder, NoTies;
    if f == [] {
      assert |multiset(g)| == 0;
    } else {
      SameHead(d, f, g);
      SameTail(f, g);
      RestoredTail(d, f);
      RestoredTail(d, g);
      TailHasNoTies(d, f);
      OneRestoredOrder(d, f[1..], g[1..]);
      assert f == [f[0]] + f[1..] && g == [g[0]] + g[1..];
    }
  }

  lemma TailHasNoTies(d: Side, f: seq<Order>)
    requires f != [] && NoTies(d, f)
    ensures NoTies(d, f[1..])
  {
    assert forall x :: x in f[1..] ==> x in f;
  }

  lemma SameTail(f: seq<Order>, g: seq<Order>)
    requires f != [] && g != [] && f[0] == g[0] && multiset(f) == multiset(g)
    ensures multiset(f[1..]) == multiset(g[1..])
  {
    MultisetTail(f);
    MultisetTail(g);
  }

  lemma MultisetTail<T>(f: seq<T>)
    requires f != []
    ensures multiset(f[1..]) == multiset(f) - multiset{f[0]}
  {
    assert f == [f[0]] + f[1..];
  }

  lemma SameHead(d: Side, f: seq<Order>, g: seq<Order>)
    requires RestoredOrder(d, f) && RestoredOrder(d, g) && multiset(f) == multiset(g) && NoTies(d, f) && f != []
    ensures g != [] && f[0] == g[0]
  {
    assert |multiset(f)| == |multiset(g)| == |g|;
    assert f[0] in multiset(g) && g[0] in multiset(f);
    var i :| 0 <= i < |f| && f[i] == g[0];
    var j :| 0 <= j < |g| && g[j] == f[0];
    if i > 0 && j > 0 {
      assert Restored(d, f[0], f[i]) && Restored(d, g[0], g[j]);
    }
  }

  lemma TakeOut<T>(g: seq<T>, k: nat)
    requires k < |g|
    ensures multiset(g[..k] + g[k + 1..]) == multiset(g) - multiset{g[k]}
  {
    assert g == g[..k] + [g[k]] + g[k + 1..];
  }

  lemma RestoredTail(d: Side, f: seq<Order>)
    requires f != [] && RestoredOrder(d, f)
    ensures RestoredOrder(d, f[1..])
  {
    forall i, j | 0 <= i < j < |f[1..]|
      ensures Restored(d, f[1..][i], f[1..][j])
    {
      assert Restored(d, f[i + 1], f[j + 1]);
    }
  }

  /** A queue whose times follow it is in restored order already. */
  lemma QueueIsRestored(f: seq<Order>, symbol: string, d: Side, bound: nat)
    requires QueueOk(f, symbol, d, bound) && TimesFollow(f)
    ensures RestoredOrder(d, f)
  {
    forall i, j | 0 <= i < j < |f|
      ensures Restored(d, f[i], f[j])
    {
      assert Before(d, f[i], f[j]);
      assert f[i].symbol == symbol && f[j].symbol == symbol;
    }
  }

  /** The rebuilt side is a permutation of the saved one. */
  lemma RebuiltPermutes(s: State, w: seq<Order>, symbol: string, d: Side)
    requires WellFormed(s) && Locatable(s) && ListsAll(s, w) && symbol in s.books
    ensures multiset(Rebuilt(w, symbol, d)) == multiset(s.books[symbol].Orders(d))
  {
    var f := s.books[symbol].Orders(d);
    var g := Selected(w, symbol, d);
    assert BookOk(s, symbol);
    RebuiltMembers(w, symbol, d);
    WorkingMembers(s, w, symbol, d);
    SelectedMembers(w, symbol, d);
    SelectedOnce(w, symbol, d);
    forall i, j | 0 <= i < j < |f|
      ensures DifferentIds(f[i], f[j])
    {
      assert Distinct(f[i], f[j]);
    }
    SameMembersOnce(f, g);
  }

  lemma {:induction false} SelectedOnce(w: seq<Order>, symbol: string, d: Side)
    requires OncePerId(w)
    ensures OncePerId(Selected(w, symbol, d))
  {
    if w != [] {
      var n := |w| - 1;
      forall i, j | 0 <= i < j < n
        ensures DifferentIds(w[..n][i], w[..n][j])
      {
        assert DifferentIds(w[i], w[j]);
      }
      SelectedOnce(w[..n], symbol, d);
      SelectedMembers(w[..n], symbol, d);
      var f, g := Selected(w[..n], symbol, d), Selected(w, symbol, d);
      forall i, j | 0 <= i < j < |g|
        ensures DifferentIds(g[i], g[j])
      {
        if j < |f| {
          assert DifferentIds(f[i], f[j]);
        } else {
          assert f[i] in w[..n];
          var k :| 0 <= k < n && w[k] == f[i];
          assert DifferentIds(w[k], w[n]);
        }
      }
    }
  }

  lemma SameMembersOnce(f: seq<Order>, g: seq<Order>)
    requires OncePerId(f) && OncePerId(g) && forall o :: o in f <==> o in g
    ensures multiset(f) == multiset(g)
  {
    forall o
      ensures multiset(f)[o] == multiset(g)[o]
    {
      OnceInSequence(f, o);
      OnceInSequence(g, o);
      assert o in f <==> o in multiset(f);
      assert o in g <==> o in multiset(g);
    }
  }

  lemma SideComesBack(s: State, w: seq<Order>, t: State, symbol: string, d: Side)
    requires WellFormed(s) && Locatable(s) && WorkingOrders(s, w) && symbol in s.books
    requires Image(t, s.books.Keys, w)
    ensures SameQueue(t.books[symbol].Orders(d), s.books[symbol].Orders(d)) <==> TimesFollow(s.books[symbol].Orders(d))
  {
    var f, g, r := s.books[symbol].Orders(d), t.books[symbol].Orders(d), Rebuilt(w, symbol, d);
    assert SameQueue(g, r);
    if TimesFollow(f) { QueueComesBack(s, w, symbol, d); }
    RebuiltInOrder(w, symbol, d);
    RebuiltMembers(w, symbol, d);
    if SameQueue(g, f) { TimesFollowImage(f, g, r, symbol, d); }
  }

  lemma QueueComesBack(s: State, w: seq<Order>, symbol: string, d: Side)
    requires WellFormed(s) && Locatable(s) && WorkingOrders(s, w) && symbol in s.books
    requires TimesFollow(s.books[symbol].Orders(d))
    ensures Rebuilt(w, symbol, d) == s.books[symbol].Orders(d)
  {
    var f := s.books[symbol].Orders(d);
    assert BookOk(s, symbol);
    RebuiltInOrder(w, symbol, d);
    QueueIsRestored(f, symbol, d, s.sequence);
    QueueHasNoTies(f, symbol, d, s.sequence);
    RebuiltPermutes(s, w, symbol, d);
    OneRestoredOrder(d, f, Rebuilt(w, symbol, d));
  }

  lemma TimesFollowImage(f: seq<Order>, g: seq<Order>, r: seq<Order>, symbol: string, d: Side)
    requires SameQueue(g, f) && SameQueue(g, r) && RestoredOrder(d, r)
    requires forall o :: o in r ==> o.symbol == symbol
    ensures TimesFollow(f)
  {
    forall i, j | 0 <= i < j < |f| && f[i].price == f[j].price
      ensures f[i].time <= f[j].time
    {
      assert Reborn(g[i], f[i]) && Reborn(g[j], f[j]) && Reborn(g[i], r[i]) && Reborn(g[j], r[j]);
      assert r[i] in r && r[j] in r;
      assert Restored(d, r[i], r[j]);
    }
  }

  lemma SymbolsAreNamed(s: State)
    requires WellFormed(s)
    ensures "" !in s.books.Keys
  {
    forall symbol | symbol in s.books
      ensures symbol != ""
    {
      assert BookOk(s, symbol);
    }
  }

  lemma WorkingListsAll(s: State, w: seq<Order>)
    requires Locatable(s) && WorkingOrders(s, w)
    ensures ListsAll(s, w)
  {
  }

  lemma FreshImage(symbols: set<string>)
    ensures Image(Fresh(symbols), symbols, [])
  {
  }

  /**
    A restart fills nothing and refuses nothing, and it rebuilds every queue in
    its old order if and only if times follow the queues.
   */
  lemma RestartRebuilds(s: State, w: seq<Order>, now: Clock)
    requires WellFormed(s) && Locatable(s) && WorkingOrders(s, w)
    ensures WellFormed(Fresh(s.books.Keys)) && forall i :: 0 <= i < |w| ==> Priced(w[i])
    ensures Quiet(Restore(Fresh(s.books.Keys), w, now).batch)
    ensures SameQueues(Restore(Fresh(s.books.Keys), w, now).state, s) <==> TimesFollowQueues(s)
  {
    hide *;
    var symbols := s.books.Keys;
    WorkingListsAll(s, w);
    WorkingCompatible(s, w);
    FreshImage(symbols);
    assert [] + w == w;
    SymbolsAreNamed(s);
    FreshOk(symbols);
    RestoreImage(Fresh(symbols), symbols, [], w, now);
    var t := Restore(Fresh(symbols), w, now).state;
    ImageKeys(t, symbols, w);
    forall symbol, d: Side | symbol in symbols
      ensures ComesBack(t.books[symbol], s.books[symbol], d)
    {
      SideComesBack(s, w, t, symbol, d);
      ComesBackIf(t.books[symbol], s.books[symbol], d);
    }
    AllComeBack(t, s);
  }

  /** One side has its queues back exactly if its times follow them. */
  ghost predicate ComesBack(r: Book, b: Book, d: Side) {
    SameQueue(r.Orders(d), b.Orders(d)) <==> TimesFollow(b.Orders(d))
  }

  lemma ComesBackIf(r: Book, b: Book, d: Side)
    requires SameQueue(r.Orders(d), b.Orders(d)) <==> TimesFollow(b.Orders(d))
    ensures ComesBack(r, b, d)
  {
  }

  lemma ImageKeys(t: State, symbols: set<string>, v: seq<Order>)
    requires Image(t, symbols, v)
    ensures t.books.Keys == symbols
  {
  }

  lemma AllComeBack(r: State, s: State)
    requires r.books.Keys == s.books.Keys
    requires forall symbol, d: Side :: symbol in s.books ==> ComesBack(r.books[symbol], s.books[symbol], d)
    ensures SameQueues(r, s) <==> TimesFollowQueues(s)
  {
    hide SameQueue, TimesFollow;
    forall symbol | symbol in s.books
      ensures SameQueue(r.books[symbol].bids, s.books[symbol].bids) <==> TimesFollow(s.books[symbol].bids)
      ensures SameQueue(r.books[symbol].asks, s.books[symbol].asks) <==> TimesFollow(s.books[symbol].asks)
    {
      assert ComesBack(r.books[symbol], s.books[symbol], Buy) && ComesBack(r.books[symbol], s.books[symbol], Sell);
    }
  }

  // ---------- the levels come back in any case ----------

  lemma {:induction false} SameQueueSameLevels(f: seq<Order>, g: seq<Order>, price: int)
    requires SameQueue(f, g)
    ensures LevelQuantity(f, price) == LevelQuantity(g, price) && LevelCount(f, price) == LevelCount(g, price)
  {
    if f != [] {
      assert Reborn(f[0], g[0]);
      SameQueueSameLevels(f[1..], g[1..], price);
    }
  }

  lemma {:induction false} PermutedLevels(f: seq<Order>, g: seq<Order>, price: int)
    requires multiset(f) == multiset(g)
    ensures LevelQuantity(f, price) == LevelQuantity(g, price) && LevelCount(f, price) == LevelCount(g, price)
  {
    if f == [] {
      assert |multiset(g)| == 0;
    } else {
      assert f[0] in multiset(g);
      var k :| 0 <= k < |g| && g[k] == f[0];
      MultisetTail(f);
      TakeOut(g, k);
      PermutedLevels(f[1..], g[..k] + g[k + 1..], price);
      TakeOutLevels(g, k, price);
    }
  }

  lemma TakeOutLevels(g: seq<Order>, k: nat, price: int)
    requires k < |g|
    ensures var rest := g[..k] + g[k + 1..];
      && LevelQuantity(g, price) == (if g[k].price == price then g[k].remaining else 0) + LevelQuantity(rest, price)
      && LevelCount(g, price) == (if g[k].price == price then 1 else 0) + LevelCount(rest, price)
  {
    var a, b := g[..k], g[k + 1..];
    assert g == a + [g[k]] + b;
    LevelSums(a + [g[k]], b, price);
    LevelSums(a, [g[k]], price);
    LevelSums(a, b, price);
  }

  /** Whatever the times, every level comes back with its quantity and its number of orders. */
  lemma RestartKeepsLevels(s: State, w: seq<Order>, now: Clock, symbol: string, d: Side, price: int)
    requires WellFormed(s) && Locatable(s) && WorkingOrders(s, w) && symbol in s.books
    ensures WellFormed(Fresh(s.books.Keys)) && forall i :: 0 <= i < |w| ==> Priced(w[i])
    ensures var t := Restore(Fresh(s.books.Keys), w, now).state;
      && symbol in t.books
      && LevelQuantity(t.books[symbol].Orders(d), price) == LevelQuantity(s.books[symbol].Orders(d), price)
      && LevelCount(t.books[symbol].Orders(d), price) == LevelCount(s.books[symbol].Orders(d), price)
  {
    var symbols := s.books.Keys;
    WorkingCompatible(s, w);
    FreshImage(symbols);
    assert [] + w == w;
    SymbolsAreNamed(s);
    FreshOk(symbols);
    RestoreImage(Fresh(symbols), symbols, [], w, now);
    var t := Restore(Fresh(symbols), w, now).state;
    RebuiltPermutes(s, w, symbol, d);
    SameQueueSameLevels(t.books[symbol].Orders(d), Rebuilt(w, symbol, d), price);
    PermutedLevels(Rebuilt(w, symbol, d), s.books[symbol].Orders(d), price);
  }

  // ---------- a run whose queue does not come back ----------

  /** Two bids at one price, the second with the earlier time: the restart swaps them. */
  lemma EarlierTimeOvertakes() returns (inputs: seq<Input>)
    ensures WellFormed(Fresh({"ES"})) && !TimesFollowQueues(Run(Fresh({"ES"}), inputs).state)
  {
    FreshOk({"ES"});
    var s0 := Fresh({"ES"});
    var i1, i2 := Input(SubmitOrder(Bid("B1", 2000)), 1), Input(SubmitOrder(Bid("B2", 1000)), 1);
    WellFormedIsSound(s0);
    BidRests(s0, i1.command.order, 1);
    var s1 := Next(s0, i1).state;
    WellFormedIsSound(s1);
    BidRests(s1, i2.command.order, 1);
    var s2 := Next(s1, i2).state;
    inputs := [i1, i2];
    assert inputs[1..] == [i2] && [i2][1..] == [];
    assert Run(s0, inputs).state == Run(s1, [i2]).state == Run(s2, []).state == s2;
    var f := s2.books["ES"].bids;
    assert f[0].time == 2000 && f[1].time == 1000 && f[0].price == f[1].price;
  }
}
