/**
  The server's routes: a command goes to the exchange and its batch to the
  books of account. Commands trade only between orders, so they leave every
  position and every total as they were; market data is what moves them.
 */
module Session {
  import opened Orders
  import opened BookSpec
  import opened BookInvariant
  import opened Runs
  import opened Exchange
  import opened Ledger
  import opened Server
  import opened Neutral

  /** One symbol stands as before: the same quantity, and the same total at every mark. */
  ghost predicate Stands(products: map<string, ProductSpec>, before: map<string, PositionState>,
                         after: map<string, PositionState>, symbol: string)
  {
    var p, q, spec := PositionOf(before, symbol), PositionOf(after, symbol), SpecOf(products, symbol);
    && q.qty == p.qty
    && (Positive(spec) ==> forall mark {:trigger TotalPnl(q, mark, spec)} ::
      TotalPnl(q, mark, spec) == TotalPnl(p, mark, spec))
  }

  ghost predicate AllStand(products: map<string, ProductSpec>, before: map<string, PositionState>,
                           after: map<string, PositionState>) {
    forall symbol :: Stands(products, before, after, symbol)
  }

  lemma CommandLeavesAll(products: map<string, ProductSpec>, before: map<string, PositionState>,
                         after: map<string, PositionState>, history: seq<FillState>, s: State, input: Input)
    requires WellFormed(s) && !input.command.MarketData?
    requires BooksOk(products, before, history)
    requires BooksOk(products, after, history + Recorded(products, Next(s, input).batch.reports))
    ensures AllStand(products, before, after)
  {
    hide Stands, BooksOk, WellFormed, Next, Recorded;
    forall symbol
      ensures Stands(products, before, after, symbol)
    {
      CommandLeavesOne(products, before, after, history, s, input, symbol);
    }
  }

  lemma CommandLeavesOne(products: map<string, ProductSpec>, before: map<string, PositionState>,
                         after: map<string, PositionState>,
                         history: seq<FillState>, s: State, input: Input, symbol: string)
    requires WellFormed(s) && !input.command.MarketData?
    requires BooksOk(products, before, history)
    requires BooksOk(products, after, history + Recorded(products, Next(s, input).batch.reports))
    ensures Stands(products, before, after, symbol)
  {
    hide WellFormed, BooksOk, Next, Recorded, TotalPnl, SpecOf, Positive, PositionOf;
    ServerStaysNeutral(products, before, after, history, s, input, symbol, 0.0);
    var p, q, spec := PositionOf(before, symbol), PositionOf(after, symbol), SpecOf(products, symbol);
    if Positive(spec) {
      forall mark: real
        ensures TotalPnl(q, mark, spec) == TotalPnl(p, mark, spec)
      {
        ServerStaysNeutral(products, before, after, history, s, input, symbol, mark);
      }
    }
  }

  /** In a valid exchange the next state and batch are the flat step's. */
  lemma StepIs(x: DeterministicExchange, input: Input)
    requires x.Valid()
    ensures WellFormed(x.View()) && Sound(x.View()) && Locatable(x.View())
    ensures Next(x.View(), input) == Step(x.View(), input)
  {
  }

  method SendOrder(x: DeterministicExchange, server: ExchangeServerState, c: OrderCommand, now: Clock)
    returns (batch: Batch)
    requires x.Valid() && server.Valid()
    modifies x, server`positions, server`history, server`fills
    ensures x.Valid() && server.Valid()
    ensures Outcome(x.View(), batch) == Submit(old(x.View()), c, now)
    ensures server.history == old(server.history) + Recorded(server.products, batch.reports)
    ensures AllStand(server.products, old(server.positions), server.positions)
  {
    ghost var s, h, before := x.View(), server.history, server.positions;
    hide WellFormed, Sound, Locatable, BooksOk, Recorded, Submit, AllStand;
    StepIs(x, Input(SubmitOrder(c), now));
    batch := x.SubmitOrderBatch(c, now);
    server.ApplyBatch(batch);
    CommandLeavesAll(server.products, before, server.positions, h, s, Input(SubmitOrder(c), now));
  }

  method CancelOrder(x: DeterministicExchange, server: ExchangeServerState, c: CancelCommand, now: Clock)
    returns (batch: Batch)
    requires x.Valid() && server.Valid()
    modifies x, server`positions, server`history, server`fills
    ensures x.Valid() && server.Valid()
    ensures Outcome(x.View(), batch) == Cancel(old(x.View()), c, now)
    ensures server.history == old(server.history) + Recorded(server.products, batch.reports)
    ensures AllStand(server.products, old(server.positions), server.positions)
  {
    ghost var s, h, before := x.View(), server.history, server.positions;
    hide WellFormed, Sound, Locatable, BooksOk, Recorded, Cancel, AllStand;
    StepIs(x, Input(Command.CancelOrder(c), now));
    batch := x.CancelOrderBatch(c, now);
    server.ApplyBatch(batch);
    CommandLeavesAll(server.products, before, server.positions, h, s, Input(Command.CancelOrder(c), now));
  }

  method ReplaceOrder(x: DeterministicExchange, server: ExchangeServerState, c: ReplaceCommand, now: Clock)
    returns (batch: Batch)
    requires x.Valid() && server.Valid()
    modifies x, server`positions, server`history, server`fills
    ensures x.Valid() && server.Valid()
    ensures Outcome(x.View(), batch) == Replace(old(x.View()), c, now)
    ensures server.history == old(server.history) + Recorded(server.products, batch.reports)
    ensures AllStand(server.products, old(server.positions), server.positions)
  {
    ghost var s, h, before := x.View(), server.history, server.positions;
    hide WellFormed, Sound, Locatable, BooksOk, Recorded, Replace, AllStand;
    StepIs(x, Input(Command.ReplaceOrder(c), now));
    batch := x.ReplaceOrderBatch(c, now);
    server.ApplyBatch(batch);
    CommandLeavesAll(server.products, before, server.positions, h, s, Input(Command.ReplaceOrder(c), now));
  }

  // ---------- market data ----------

  /** A price of the tick, if it has it, in points. */
  function InPoints(ticks: Option<PriceTicks>, tickSize: real): Option<real> {
    if ticks.Some? then Some(ticks.value as real * tickSize) else None
  }

  /** The mark that the tick gives its symbol. */
  function TickMark(products: map<string, ProductSpec>, tick: MarketDataTick): Option<real> {
    var tickSize := SpecOf(products, tick.symbol).tickSize;
    MarkOf(InPoints(tick.last, tickSize), InPoints(tick.bestBid, tickSize), InPoints(tick.bestAsk, tickSize))
  }

  /** A trade marks at its own price, a quote at its middle, in the product's ticks. */
  lemma TickMarkIs(products: map<string, ProductSpec>, spec: ProductSpec, tick: MarketDataTick)
    ensures var mark := TickMark(products[tick.symbol := spec], tick);
      && (tick.last.Some? ==> mark == Some(tick.last.value as real * spec.tickSize))
      && (tick.last.None? && tick.bestBid.Some? && tick.bestAsk.Some? ==>
            mark == Some((tick.bestBid.value as real * spec.tickSize
              + tick.bestAsk.value as real * spec.tickSize) / 2.0))
      && (tick.last.None? && tick.bestBid.None? && tick.bestAsk.Some? ==>
            mark == Some(tick.bestAsk.value as real * spec.tickSize))
      && (tick.last.None? && tick.bestBid.Some? && tick.bestAsk.None? ==>
            mark == Some(tick.bestBid.value as real * spec.tickSize))
  {
    OwnProduct(products, tick.symbol, spec);
    MarkAtTickSize(tick, spec.tickSize);
    hide SpecOf, InPoints, MarkOf;
  }

  lemma MarkAtTickSize(tick: MarketDataTick, size: real)
    ensures var mark := MarkOf(InPoints(tick.last, size), InPoints(tick.bestBid, size), InPoints(tick.bestAsk, size));
      && (tick.last.Some? ==> mark == Some(tick.last.value as real * size))
      && (tick.last.None? && tick.bestBid.Some? && tick.bestAsk.Some? ==>
            mark == Some((tick.bestBid.value as real * size + tick.bestAsk.value as real * size) / 2.0))
      && (tick.last.None? && tick.bestBid.None? && tick.bestAsk.Some? ==>
        mark == Some(tick.bestAsk.value as real * size))
      && (tick.last.None? && tick.bestBid.Some? && tick.bestAsk.None? ==>
        mark == Some(tick.bestBid.value as real * size))
  {
    PointsAre(tick.last, size);
    PointsAre(tick.bestBid, size);
    PointsAre(tick.bestAsk, size);
    hide InPoints;
  }

  lemma PointsAre(ticks: Option<PriceTicks>, size: real)
    ensures ticks.Some? ==> InPoints(ticks, size) == Some(ticks.value as real * size)
    ensures ticks.None? ==> InPoints(ticks, size) == None
  {
  }

  /** One symbol has moved by what the reports fill: by their net, and in money by their moves to any mark. */
  ghost predicate MovedBy(products: map<string, ProductSpec>, before: map<string, PositionState>,
                          after: map<string, PositionState>, reports: seq<ExecutionReport>, symbol: string)
  {
    var p, q, spec := PositionOf(before, symbol), PositionOf(after, symbol), SpecOf(products, symbol);
    && q.qty == p.qty + NetOf(reports, symbol)
    && (Positive(spec) ==> forall mark: real :: MovedAt(p, q, spec, reports, symbol, mark))
  }

  ghost predicate MovedAt(p: PositionState, q: PositionState, spec: ProductSpec, reports: seq<ExecutionReport>,
                          symbol: string, mark: real)
    requires Positive(spec)
  {
    TotalPnl(q, mark, spec)
    == TotalPnl(p, mark, spec) + Worth(spec, MoveOf(mark, spec.tickSize, NetOf(reports, symbol),
                                                    CashOf(reports, symbol)))
  }

  /** The tick marks its symbol, trades at the resting orders' prices, and moves every position by what it filled. */
  method ApplyMarket(x: DeterministicExchange, server: ExchangeServerState, tick: MarketDataTick, now: Clock)
    returns (batch: Batch)
    requires x.Valid() && server.Valid()
    modifies x, server
    ensures x.Valid() && server.Valid()
    ensures Outcome(x.View(), batch) == ApplyTick(old(x.View()), tick, now)
    ensures server.history == old(server.history) + Recorded(server.products, batch.reports)
    ensures server.marks == old(server.marks)
      + (var mark := TickMark(server.products, tick); if mark.Some? then map[tick.symbol := mark.value] else map[])
    ensures forall symbol :: MovedBy(server.products, old(server.positions), server.positions, batch.reports, symbol)
    ensures forall symbol :: symbol in server.marks && symbol in server.positions ==>
      ShownAt(server.positions[symbol], server.marks[symbol], SpecOf(server.products, symbol))
  {
    hide ApplyTick, Recorded, MovedBy, BooksOk, WellFormed, ShownAt;
    ghost var h, before := server.history, server.positions;
    var tickSize := SpecOf(server.products, tick.symbol).tickSize;
    server.UpdateMark(tick.symbol, InPoints(tick.last, tickSize), InPoints(tick.bestBid, tickSize),
                      InPoints(tick.bestAsk, tickSize));
    batch := x.ApplyMarketDataBatch(tick, now);
    server.ApplyBatch(batch);
    forall symbol
      ensures MovedBy(server.products, before, server.positions, batch.reports, symbol)
    {
      PositionMoves(server.products, before, server.positions, h, batch.reports, symbol);
    }
    forall symbol | symbol in server.marks && symbol in server.positions
      ensures ShownAt(server.positions[symbol], server.marks[symbol], SpecOf(server.products, symbol))
    {
      MarkIsShown(server.products, server.positions, server.history, server.marks, symbol);
    }
  }

  /** The position shows this mark, and as its profit the total at it. */
  ghost predicate ShownAt(p: PositionState, mark: real, spec: ProductSpec) {
    p.markPrice == mark && p.realizedPnl + p.openPnl == TotalPnl(p, mark, spec)
  }

  lemma MarkIsShown(products: map<string, ProductSpec>, positions: map<string, PositionState>, history: seq<FillState>,
                    marks: map<string, real>, symbol: string)
    requires BooksOk(products, positions, history) && ShowMarks(marks, positions)
    requires symbol in marks && symbol in positions
    ensures ShownAt(positions[symbol], marks[symbol], SpecOf(products, symbol))
  {
    assert SymbolOk(products, positions, Of(history, symbol), symbol);
    hide AfterFill, TickPnl;
  }

  lemma PositionMoves(products: map<string, ProductSpec>, before: map<string, PositionState>,
                      after: map<string, PositionState>, history: seq<FillState>, reports: seq<ExecutionReport>,
                      symbol: string)
    requires BooksOk(products, before, history) && BooksOk(products, after, history + Recorded(products, reports))
    ensures MovedBy(products, before, after, reports, symbol)
  {
    var spec := SpecOf(products, symbol);
    var f, g := Of(history, symbol), FillsOf(reports, symbol, spec.tickSize);
    var p, q := PositionOf(before, symbol), PositionOf(after, symbol);
    PositionIs(products, before, history, symbol);
    PositionIs(products, after, history + Recorded(products, reports), symbol);
    OfAppend(history, Recorded(products, reports), symbol);
    ServerRecords(products, reports, symbol);
    hide AfterFills, FillsOf, SameCore, BooksOk, MovedAt, SpecOf, PositionOf, Positive, Of, Fills;
    PositionMovesAt(f, reports, symbol, p, q, spec, 0.0);
    forall mark: real | Positive(spec)
      ensures MovedAt(p, q, spec, reports, symbol, mark)
    {
      PositionMovesAt(f, reports, symbol, p, q, spec, mark);
    }
  }

  lemma PositionMovesAt(f: seq<FillState>, reports: seq<ExecutionReport>, symbol: string, p: PositionState,
                        q: PositionState, spec: ProductSpec, mark: real)
    requires Fills(f) && Fills(f + FillsOf(reports, symbol, spec.tickSize))
    requires SameCore(p, AfterFills(FLAT, f, spec))
    requires SameCore(q, AfterFills(FLAT, f + FillsOf(reports, symbol, spec.tickSize), spec))
    ensures q.qty == p.qty + NetOf(reports, symbol)
    ensures Positive(spec) ==> MovedAt(p, q, spec, reports, symbol, mark)
  {
    hide AfterFills, TickPnl, Worth, MoveOf, Moves, NetQuantity, NetOf, CashOf, TotalPnl, FillsOf, SameCore;
    FillSums(reports, symbol, spec.tickSize, mark);
    AccountMoves(f, FillsOf(reports, symbol, spec.tickSize), p, q, spec, mark);
  }

  /** More fills add their net, and their moves to the mark. */
  lemma AccountMoves(f: seq<FillState>, g: seq<FillState>, p: PositionState, q: PositionState, spec: ProductSpec,
                     mark: real)
    requires Fills(f) && Fills(f + g)
    requires SameCore(p, AfterFills(FLAT, f, spec)) && SameCore(q, AfterFills(FLAT, f + g, spec))
    ensures q.qty == p.qty + NetQuantity(g)
    ensures Positive(spec) ==> TotalPnl(q, mark, spec) == TotalPnl(p, mark, spec) + Worth(spec, Moves(g, mark))
  {
    hide AfterFill, TickPnl, Worth, Gain, Moves, NetQuantity;
    FillsNet(FLAT, f, spec);
    FillsNet(FLAT, f + g, spec);
    NetAppend(f, g);
    if Positive(spec) {
      CashFlowIdentity(FLAT, f, spec, mark);
      CashFlowIdentity(FLAT, f + g, spec, mark);
      MovesAppend(f, g, mark);
      WorthAdds(spec, Moves(f, mark), Moves(g, mark));
    }
  }
}
