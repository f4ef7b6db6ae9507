/**
  Whole runs of the exchange: any number of commands from an empty book.
 */
module Runs {
  import opened Orders
  import opened BookSpec
  import opened BookInvariant

  function Fresh(symbols: set<string>): (s: State)
    ensures "" !in symbols ==> WellFormed(s)
  {
    State(map symbol | symbol in symbols :: Book([], []), map[], 0)
  }

  lemma FreshOk(symbols: set<string>)
    requires "" !in symbols
    ensures WellFormed(Fresh(symbols))
  {
    var s := Fresh(symbols);
    forall symbol | symbol in s.books
      ensures symbol != "" && BookOk(s, symbol)
    {
    }
  }

  /** One command from a well-formed state. */
  function Next(s: State, input: Input): (r: Outcome)
    requires WellFormed(s)
    ensures WellFormed(r.state)
  {
    WellFormedIsSound(s);
    StepOk(s, input);
    Step(s, input)
  }

  /** The final state and everything reported on the way. */
  function Run(s: State, inputs: seq<Input>): (r: Outcome)
    requires WellFormed(s)
    ensures WellFormed(r.state)
    decreases |inputs|
  {
    if inputs == [] then Outcome(s, EMPTY)
    else
      var o := Next(s, inputs[0]);
      var r := Run(o.state, inputs[1..]);
      Outcome(r.state, o.batch.Then(r.batch))
  }

  /** Best bid below best ask, queues first come first served, and nothing in them that may not rest. */
  ghost predicate SoundBook(b: Book, symbol: string) {
    && (b.bids != [] && b.asks != [] ==> b.bids[0].price < b.asks[0].price)
    && (forall d: Side, i, j :: 0 <= i < j < |b.Orders(d)| ==>
          && !Ahead(d, b.Orders(d)[j].price, b.Orders(d)[i].price)
          && (b.Orders(d)[i].price == b.Orders(d)[j].price ==> b.Orders(d)[i].sequence < b.Orders(d)[j].sequence))
    && (forall d: Side, i :: 0 <= i < |b.Orders(d)| ==>
          var o := b.Orders(d)[i];
          0 < o.remaining <= o.original && o.kind == Limit && o.tif != Ioc && o.side == d && o.symbol == symbol)
  }

  /** The id names an order resting on the side and at the price the registry gives, and only there. */
  ghost predicate RegisteredOnce(s: State, id: string)
    requires id in s.registry
  {
    var at := s.registry[id];
    && at.symbol in s.books
    && (exists i :: 0 <= i < |s.books[at.symbol].Orders(at.side)| && s.books[at.symbol].Orders(at.side)[i].id == id)
    && (forall symbol, d: Side, i | symbol in s.books && 0 <= i < |s.books[symbol].Orders(d)| ::
          s.books[symbol].Orders(d)[i].id == id ==> at == Location(symbol, d, s.books[symbol].Orders(d)[i].price))
    && (forall i, j :: 0 <= i < j < |s.books[at.symbol].Orders(at.side)| ==>
          s.books[at.symbol].Orders(at.side)[i].id != id || s.books[at.symbol].Orders(at.side)[j].id != id)
  }

  lemma BooksAreSound(s: State, symbol: string)
    requires WellFormed(s) && symbol in s.books
    ensures SoundBook(s.books[symbol], symbol)
  {
    var b := s.books[symbol];
    assert BookOk(s, symbol);
    if b.bids != [] && b.asks != [] { assert Below(b.bids[0], b.asks[0]); }
    forall d: Side, i, j | 0 <= i < j < |b.Orders(d)|
      ensures !Ahead(d, b.Orders(d)[j].price, b.Orders(d)[i].price)
      ensures b.Orders(d)[i].price == b.Orders(d)[j].price ==> b.Orders(d)[i].sequence < b.Orders(d)[j].sequence
    {
      assert Before(d, b.Orders(d)[i], b.Orders(d)[j]);
    }
  }

  lemma RegistryIsExact(s: State, id: string)
    requires WellFormed(s) && id in s.registry
    ensures RegisteredOnce(s, id)
  {
    var at := s.registry[id];
    assert BookOk(s, at.symbol);
    var f := s.books[at.symbol].Orders(at.side);
    assert HasId(f, id);
    forall symbol, d: Side, i | symbol in s.books && 0 <= i < |s.books[symbol].Orders(d)|
          && s.books[symbol].Orders(d)[i].id == id
      ensures at == Location(symbol, d, s.books[symbol].Orders(d)[i].price)
    {
      assert BookOk(s, symbol);
    }
    forall i, j | 0 <= i < j < |f|
      ensures f[i].id != id || f[j].id != id
    {
      assert Distinct(f[i], f[j]);
    }
  }

  /** Every state that any run reaches has sound books and an exact registry that misses no resting order. */
  lemma ReachableState(symbols: set<string>, inputs: seq<Input>)
    requires "" !in symbols
    ensures WellFormed(Fresh(symbols))
    ensures var s := Run(Fresh(symbols), inputs).state;
      && (forall symbol :: symbol in s.books ==> SoundBook(s.books[symbol], symbol))
      && (forall id :: id in s.registry ==> RegisteredOnce(s, id))
      && (forall symbol, d: Side, i :: symbol in s.books && 0 <= i < |s.books[symbol].Orders(d)| ==>
            s.books[symbol].Orders(d)[i].id in s.registry)
  {
    FreshOk(symbols);
    var s := Run(Fresh(symbols), inputs).state;
    forall symbol | symbol in s.books
      ensures SoundBook(s.books[symbol], symbol)
    {
      BooksAreSound(s, symbol);
    }
    forall id | id in s.registry
      ensures RegisteredOnce(s, id)
    {
      RegistryIsExact(s, id);
    }
    forall symbol, d: Side, i | symbol in s.books && 0 <= i < |s.books[symbol].Orders(d)|
      ensures s.books[symbol].Orders(d)[i].id in s.registry
    {
      assert BookOk(s, symbol);
    }
  }

  /** Reading a replace command as a caller could before sending it. */
  predicate BadReplacement(c: ReplaceCommand) {
    (c.quantity.Some? && c.quantity.value <= 0) || (c.price.Some? && c.price.value.NotFinite?)
  }

  /**
    A replacement is refused exactly if the command names a bad price or
    quantity, and by then the old order is gone.
   */
  lemma BadReplacementLosesTheOrder(s: State, c: ReplaceCommand, now: Clock)
    requires WellFormed(s) && c.id in s.registry
    ensures Sound(s) && Locatable(s)
    ensures var time := EffectiveTime(c.time, now); var o := Located(s, c.id);
      && Priced(o)
      && (Refusal(Remove(s, c.id, time).state, ReplacementOf(o, c, time)).Some? <==> BadReplacement(c))
    ensures BadReplacement(c) ==>
      var t := Replace(s, c, now).state; t.registry == s.registry - {c.id} && t.sequence == s.sequence + 2
  {
    WellFormedIsSound(s);
    var at := s.registry[c.id];
    var f := s.books[at.symbol].Orders(at.side);
    assert BookOk(s, at.symbol);
    FindIsMember(f, c.id);
    RemoveKeepsSound(s, c.id, EffectiveTime(c.time, now));
    hide Find, Without, WellFormed, BookOk;
  }

  // ---------- short runs ----------

  function Bid(id: string, time: nat): OrderCommand {
    OrderCommand(id, "ES", Buy, Limit, Day, Ticks(20001), 1, time, "")
  }

  /** A bid that meets no offers rests. */
  lemma BidRests(s: State, c: OrderCommand, now: Clock)
    requires WellFormed(s) && Sound(s) && Refusal(s, c).None? && c.side.Buy? && c.kind.Limit? && !c.tif.Ioc?
    requires s.books[c.symbol].asks == [] && c.time > 0
    ensures var o := NewOrder(c, c.time, s.sequence + 1);
      var r := Submit(s, c, now).state;
      && c.symbol in r.books && r.books[c.symbol].asks == []
      && r.books[c.symbol].bids == Insert(Buy, s.books[c.symbol].bids, o)
      && r.registry == s.registry[c.id := Location(c.symbol, Buy, o.price)]
  {
    var m := StartMatch(s, c, now);
    assert !CanMatch(m);
  }

  /** A bid rests, and is then replaced by a quantity of zero: the book is empty. */
  lemma ReplacedByNothing() returns (inputs: seq<Input>)
    ensures |inputs| == 2 && WellFormed(Fresh({"ES"}))
    ensures "B1" in Run(Fresh({"ES"}), inputs[..1]).state.registry
    ensures "B1" !in Run(Fresh({"ES"}), inputs).state.registry
  {
    FreshOk({"ES"});
    var c := ReplaceCommand("B1", None, Some(0), 2000);
    var rest, replace := Input(SubmitOrder(Bid("B1", 1000)), 1), Input(ReplaceOrder(c), 1);
    inputs := [rest, replace];
    var s0 := Fresh({"ES"});
    WellFormedIsSound(s0);
    BidRests(s0, rest.command.order, 1);
    var s1 := Next(s0, rest).state;
    BadReplacementLosesTheOrder(s1, c, 1);
    assert inputs[..1] == [rest] && inputs[1..] == [replace] && [rest][1..] == [] && [replace][1..] == [];
    hide Next, BadReplacement;
    assert Run(s0, [rest]).state == Run(s1, []).state == s1;
    assert Run(s0, inputs).state == Run(s1, [replace]).state == Run(Next(s1, replace).state, []).state
      == Next(s1, replace).state;
  }
}
