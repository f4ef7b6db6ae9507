/**
  The restart as it is carried out: working orders are collected, and a loop
  puts them into a new exchange and throws the batches away.
 */
module Restorer {
  import opened Orders
  import opened BookSpec
  import opened BookInvariant
  import opened Exchange
  import opened Restart
  import opened Runs
  import opened Working

  method RestoreWorkingOrders(x: DeterministicExchange, w: seq<Order>, now: Clock)
    requires x.Valid() && forall i :: 0 <= i < |w| ==> Priced(w[i])
    modifies x
    ensures x.Valid() && x.View() == Restore(old(x.View()), w, now).state
  {
    ghost var goal := Restore(x.View(), w, now).state;
    for i := 0 to |w|
      invariant x.Valid() && Restore(x.View(), w[i..], now).state == goal
    {
      if w[i].id != "" && w[i].symbol != "" && w[i].remaining > 0 {
        var _ := x.SubmitOrderBatch(SavedCommand(w[i]), now);
      }
    }
  }

  /**
    The whole restart: what is working in one exchange is saved, and put into a
    new one. No order is lost; every queue is as before exactly if times follow
    the queues, and every level in any case.
   */
  method RestartExchange(x: DeterministicExchange, now: Clock) returns (y: DeterministicExchange)
    requires x.Valid()
    ensures fresh(y) && y.Valid()
    ensures SameQueues(y.View(), x.View()) <==> TimesFollowQueues(x.View())
    ensures forall symbol, d: Side, price :: symbol in x.View().books ==>
      SameLevel(y.View(), x.View(), symbol, d, price)
  {
    ghost var s := x.View();
    SymbolsAre(x);
    var saved := x.CollectWorkingOrders();
    y := new DeterministicExchange(x.books.Keys);
    assert y.View() == Fresh(s.books.Keys);
    RestartRebuilds(s, saved, now);
    hide WellFormed, Sound, Locatable, SameQueues, TimesFollowQueues, WorkingOrders, Restore, SameLevel, Quiet, Fresh;
    RestoreWorkingOrders(y, saved, now);
    forall symbol, d: Side, price | symbol in s.books
      ensures SameLevel(y.View(), s, symbol, d, price)
    {
      LevelComesBack(s, saved, now, symbol, d, price);
    }
  }

  lemma SymbolsAre(x: DeterministicExchange)
    requires x.Valid()
    ensures x.View().books.Keys == x.books.Keys && "" !in x.books.Keys
  {
    SymbolsAreNamed(x.View());
    forall symbol
      ensures symbol in x.View().books <==> symbol in x.books
    {
      DeterministicExchange.ViewKeys(x.books, symbol);
    }
    hide WellFormed, DeterministicExchange.ViewOf;
  }

  /** The symbol's books agree on the total and the number of orders at the price. */
  predicate SameLevel(r: State, s: State, symbol: string, d: Side, price: int) {
    && symbol in r.books && symbol in s.books
    && LevelQuantity(r.books[symbol].Orders(d), price) == LevelQuantity(s.books[symbol].Orders(d), price)
    && LevelCount(r.books[symbol].Orders(d), price) == LevelCount(s.books[symbol].Orders(d), price)
  }

  lemma LevelComesBack(s: State, w: seq<Order>, now: Clock, symbol: string, d: Side, price: int)
    requires WellFormed(s) && Locatable(s) && WorkingOrders(s, w) && symbol in s.books
    ensures WellFormed(Fresh(s.books.Keys)) && forall i :: 0 <= i < |w| ==> Priced(w[i])
    ensures SameLevel(Restore(Fresh(s.books.Keys), w, now).state, s, symbol, d, price)
  {
    RestartKeepsLevels(s, w, now, symbol, d, price);
    hide WellFormed, Locatable, Restore, LevelQuantity, LevelCount;
  }
}
