/**
  The gateway's loop around the exchange: an order is shown to the covering
  desk and posted, its response is handed to the desk, and the cover orders
  that the desk answers with are posted at once, their responses thrown away.
 */
module Gateway {
  import opened Orders
  import opened BookSpec
  import opened BookInvariant
  import opened Runs
  import opened Exchange
  import opened Responses
  import opened CoverRuns
  import C = Covers

  /** How the exchange reads the price and the tags in the text of a cover order. */
  datatype Reader = Reader(ticks: (string, real) -> Price, metadata: C.CoverOrder -> string)

  /** A cover is a limit order for the day, without a time of its own. */
  function CommandOf(p: Reader, o: C.CoverOrder): OrderCommand {
    OrderCommand(o.id, o.market, if o.side == "offer" then Sell else Buy, Limit, Day, p.ticks(o.market, o.price),
                 o.quantity, 0, p.metadata(o))
  }

  function Commands(p: Reader, orders: seq<C.CoverOrder>): seq<OrderCommand> {
    seq(|orders|, i requires 0 <= i < |orders| => CommandOf(p, orders[i]))
  }

  function Posts(p: Reader, orders: seq<C.CoverOrder>, now: Clock): seq<Request> {
    seq(|orders|, i requires 0 <= i < |orders| => Own(CommandOf(p, orders[i]), now))
  }

  /** What the desk makes of one request and its response. */
  function Answered(w: Wire, s: State, d: C.Desk, r: Request): C.Handled
    requires WellFormed(s)
  {
    C.Handle(d, StepsOf(w, r, Next(s, r.Posted()).batch.reports))
  }

  /** A request and the cover orders posted in answer to it. */
  function Served(w: Wire, p: Reader, s: State, d: C.Desk, r: Request): seq<Request>
    requires WellFormed(s)
  {
    [r] + Posts(p, Answered(w, s, d, r).orders, r.Posted().now)
  }

  /** Everything that is posted to the exchange when these calls come from outside. */
  function Trace(w: Wire, p: Reader, s: State, d: C.Desk, calls: seq<Request>): seq<Request>
    requires WellFormed(s)
    decreases |calls|
  {
    if calls == [] then []
    else
      var served := Served(w, p, s, d, calls[0]);
      served + Trace(w, p, Run(s, Inputs(served)).state, Answered(w, s, d, calls[0]).desk, calls[1..])
  }

  // ---------- the gateway posts what the desk answers ----------

  function OwnOrders(requests: seq<Request>): seq<OrderCommand> {
    if requests == [] then []
    else (if requests[0].Own? then [requests[0].order] else []) + OwnOrders(requests[1..])
  }

  lemma {:induction false} OwnAppend(a: seq<Request>, b: seq<Request>)
    ensures OwnOrders(a + b) == OwnOrders(a) + OwnOrders(b)
  {
    if a == [] {
      assert a + b == b;
    } else {
      OwnAppend(a[1..], b);
      assert (a + b)[1..] == a[1..] + b;
    }
  }

  lemma {:induction false} PostsAreOwn(p: Reader, orders: seq<C.CoverOrder>, now: Clock)
    ensures OwnOrders(Posts(p, orders, now)) == Commands(p, orders)
  {
    if orders != [] {
      PostsAreOwn(p, orders[1..], now);
      assert Posts(p, orders, now)[1..] == Posts(p, orders[1..], now);
      assert Commands(p, orders) == [CommandOf(p, orders[0])] + Commands(p, orders[1..]);
    }
  }

  ghost predicate AllOwn(requests: seq<Request>) {
    forall i :: 0 <= i < |requests| ==> requests[i].Own?
  }

  /** The desk sees nothing of the gateway's own orders. */
  lemma {:induction false} OwnIsUnseen(w: Wire, s: State, requests: seq<Request>)
    requires WellFormed(s) && AllOwn(requests)
    ensures Documents(w, s, requests) == []
    decreases |requests|
  {
    if requests != [] {
      assert requests[0].Own? && requests == [requests[0]] + requests[1..];
      DocumentsUnfold(w, s, requests[0], requests[1..]);
      OwnIsUnseen(w, Next(s, requests[0].Posted()).state, requests[1..]);
    }
  }

  lemma ServedDocuments(w: Wire, p: Reader, s: State, d: C.Desk, r: Request)
    requires WellFormed(s)
    ensures Documents(w, s, Served(w, p, s, d, r)) == StepsOf(w, r, Next(s, r.Posted()).batch.reports)
  {
    var own := Posts(p, Answered(w, s, d, r).orders, r.Posted().now);
    DocumentsUnfold(w, s, r, own);
    OwnIsUnseen(w, Next(s, r.Posted()).state, own);
  }

  /**
    Whatever calls come from outside, the orders that the gateway posts of its
    own are exactly the covers of what the desk gets to see, each once, in order.
   */
  lemma {:induction false} OwnOrdersAreCovers(w: Wire, p: Reader, s: State, d: C.Desk, calls: seq<Request>)
    requires WellFormed(s) && forall r :: r in calls ==> !r.Own?
    ensures var trace := Trace(w, p, s, d, calls);
      OwnOrders(trace) == Commands(p, C.Handle(d, Documents(w, s, trace)).orders)
    decreases |calls|
  {
    if calls == [] {
      assert Documents(w, s, []) == [];
    } else {
      hide *;
      var r, served := calls[0], Served(w, p, s, d, calls[0]);
      var s1, h := Run(s, Inputs(served)).state, Answered(w, s, d, r);
      var later := Trace(w, p, s1, h.desk, calls[1..]);
      TraceUnfolds(w, p, s, d, calls);
      OwnOrdersAreCovers(w, p, s1, h.desk, calls[1..]);
      DocumentsAppend(w, s, served, later);
      ServedDocuments(w, p, s, d, r);
      C.HandleAppend(d, Documents(w, s, served), Documents(w, s1, later));
      OwnAppend(served, later);
      ServedOwn(w, p, s, d, r);
      AnsweredIs(w, s, d, r);
      CommandsAppend(p, h.orders, C.Handle(h.desk, Documents(w, s1, later)).orders);
    }
  }

  lemma TraceUnfolds(w: Wire, p: Reader, s: State, d: C.Desk, calls: seq<Request>)
    requires WellFormed(s) && calls != []
    ensures var served := Served(w, p, s, d, calls[0]);
      Trace(w, p, s, d, calls)
      == served + Trace(w, p, Run(s, Inputs(served)).state, Answered(w, s, d, calls[0]).desk, calls[1..])
  {
    hide Served, Answered, Run, WellFormed;
  }

  lemma AnsweredIs(w: Wire, s: State, d: C.Desk, r: Request)
    requires WellFormed(s)
    ensures Answered(w, s, d, r) == C.Handle(d, StepsOf(w, r, Next(s, r.Posted()).batch.reports))
  {
  }

  lemma ServedOwn(w: Wire, p: Reader, s: State, d: C.Desk, r: Request)
    requires WellFormed(s) && !r.Own?
    ensures OwnOrders(Served(w, p, s, d, r)) == Commands(p, Answered(w, s, d, r).orders)
  {
    hide Answered, WellFormed;
    var own := Posts(p, Answered(w, s, d, r).orders, r.Posted().now);
    PostsAreOwn(p, Answered(w, s, d, r).orders, r.Posted().now);
    assert ([r] + own)[1..] == own;
  }

  lemma CommandsAppend(p: Reader, a: seq<C.CoverOrder>, b: seq<C.CoverOrder>)
    ensures Commands(p, a + b) == Commands(p, a) + Commands(p, b)
  {
  }

  // ---------- the loop in place ----------

  class ExecutionGateway {
    const wire: Wire
    const reader: Reader
    const exchange: DeterministicExchange
    const desk: C.CoverDesk

    constructor (w: Wire, p: Reader, x: DeterministicExchange, d: C.CoverDesk)
      ensures wire == w && reader == p && exchange == x && desk == d
    {
      wire, reader, exchange, desk := w, p, x, d;
    }

    /** The desk gets the response; its covers are posted, and what comes back is ignored. */
    method ProcessResponse(batch: Batch, now: Clock)
      requires exchange.Valid()
      modifies exchange, desk
      ensures exchange.Valid()
      ensures var h := C.Handle(old(desk.State()), AsSteps(ResponseEvents(wire, batch.reports), now));
        && desk.State() == h.desk
        && exchange.View() == Run(old(exchange.View()), Inputs(Posts(reader, h.orders, now))).state
    {
      var events := ResponseEvents(wire, batch.reports);
      var clock := seq(|events|, _ => now);
      assert C.FillSteps(events, clock) == AsSteps(events, now);
      var orders := desk.ProcessExchangeFillEvents(events, clock);
      SendCovers(orders, now);
    }

    method SendCovers(orders: seq<C.CoverOrder>, now: Clock)
      requires exchange.Valid()
      modifies exchange
      ensures exchange.Valid()
      ensures exchange.View() == Run(old(exchange.View()), Inputs(Posts(reader, orders, now))).state
    {
      hide CommandOf, Step, WellFormed;
      ghost var goal := Run(exchange.View(), Inputs(Posts(reader, orders, now))).state;
      for i := 0 to |orders|
        invariant exchange.Valid()
        invariant Run(exchange.View(), Inputs(Posts(reader, orders[i..], now))).state == goal
      {
        ghost var rest := Inputs(Posts(reader, orders[i..], now));
        assert rest[0] == Input(SubmitOrder(CommandOf(reader, orders[i])), now);
        assert rest[1..] == Inputs(Posts(reader, orders[i + 1..], now));
        ghost var before := exchange.View();
        var _ := exchange.SubmitOrderBatch(CommandOf(reader, orders[i]), now);
        SubmitIsNext(before, CommandOf(reader, orders[i]), now);
      }
    }

    method PlaceOrder(body: C.AlgoOrder, order: OrderCommand, now: Clock) returns (batch: Batch)
      requires exchange.Valid()
      modifies exchange, desk
      ensures exchange.Valid()
      ensures var s, d, r := old(exchange.View()), old(desk.State()), Forwarded(body, order, now);
        && batch == Next(s, r.Posted()).batch
        && desk.State() == Answered(wire, s, d, r).desk
        && exchange.View() == Run(s, Inputs(Served(wire, reader, s, d, r))).state
    {
      hide WellFormed, Next, ResponseEvents, C.Handle, C.HandleStep, Run;
      ghost var s, d, r := exchange.View(), desk.State(), Forwarded(body, order, now);
      desk.RememberAlgoCoverPolicy(body);
      batch := exchange.SubmitOrderBatch(order, now);
      SubmitIsNext(s, order, now);
      ProcessResponse(batch, now);
      ServedEnds(wire, reader, s, d, r);
    }

    method PublishMarket(tick: MarketDataTick, now: Clock) returns (batch: Batch)
      requires exchange.Valid()
      modifies exchange, desk
      ensures exchange.Valid()
      ensures var s, d, r := old(exchange.View()), old(desk.State()), Published(tick, now);
        && batch == Next(s, r.Posted()).batch
        && desk.State() == Answered(wire, s, d, r).desk
        && exchange.View() == Run(s, Inputs(Served(wire, reader, s, d, r))).state
    {
      hide WellFormed, Next, ResponseEvents, C.Handle, C.HandleStep, Run;
      ghost var s, d, r := exchange.View(), desk.State(), Published(tick, now);
      batch := exchange.ApplyMarketDataBatch(tick, now);
      TickIsNext(s, tick, now);
      ProcessResponse(batch, now);
      ServedEnds(wire, reader, s, d, r);
    }
  }

  lemma SubmitIsNext(s: State, c: OrderCommand, now: Clock)
    requires WellFormed(s)
    ensures Sound(s) && Next(s, Input(SubmitOrder(c), now)) == Submit(s, c, now)
  {
    WellFormedIsSound(s);
    hide WellFormed, Submit;
  }

  lemma TickIsNext(s: State, tick: MarketDataTick, now: Clock)
    requires WellFormed(s)
    ensures Sound(s) && Next(s, Input(MarketData(tick), now)) == ApplyTick(s, tick, now)
  {
    WellFormedIsSound(s);
    hide WellFormed, ApplyTick;
  }

  /** The desk has read the body of an order when the response comes. */
  function Shown(d: C.Desk, r: Request): C.Desk {
    if r.Forwarded? then C.HandleStep(d, C.Remember(r.body)).desk else d
  }

  /** Handing over a response and posting the covers is serving the request. */
  lemma ServedEnds(w: Wire, p: Reader, s: State, d: C.Desk, r: Request)
    requires WellFormed(s) && r.HandsOver()
    ensures var o := Next(s, r.Posted());
      var h := C.Handle(Shown(d, r), AsSteps(ResponseEvents(w, o.batch.reports), r.now));
      && h.desk == Answered(w, s, d, r).desk
      && Run(o.state, Inputs(Posts(p, h.orders, r.now))).state == Run(s, Inputs(Served(w, p, s, d, r))).state
  {
    hide *;
    AnsweredByResponse(w, s, d, r);
    PostedNow(r);
    ServedIs(w, p, s, d, r);
    DocumentsUnfold(w, s, r, Posts(p, Answered(w, s, d, r).orders, r.now));
  }

  lemma AnsweredByResponse(w: Wire, s: State, d: C.Desk, r: Request)
    requires WellFormed(s) && r.HandsOver()
    ensures Answered(w, s, d, r)
      == C.Handle(Shown(d, r), AsSteps(ResponseEvents(w, Next(s, r.Posted()).batch.reports), r.now))
  {
    hide *;
    PostedNow(r);
    var reports := Next(s, r.Posted()).batch.reports;
    var told := AsSteps(ResponseEvents(w, reports), r.now);
    AnsweredIs(w, s, d, r);
    StepsSplit(w, r, reports);
    ShownIs(d, r);
    if r.Forwarded? {
      C.HandleAppend(d, [C.Remember(r.body)], told);
      assert [] + C.Handle(Shown(d, r), told).orders == C.Handle(Shown(d, r), told).orders;
    } else {
      assert [] + told == told;
    }
  }

  lemma StepsSplit(w: Wire, r: Request, reports: seq<ExecutionReport>)
    requires r.HandsOver()
    ensures StepsOf(w, r, reports)
      == (if r.Forwarded? then [C.Remember(r.body)] else []) + AsSteps(ResponseEvents(w, reports), r.now)
  {
    hide ResponseEvents;
  }

  lemma PostedNow(r: Request)
    requires r.HandsOver()
    ensures !r.Direct? && r.Posted().now == r.now
  {
  }

  lemma ServedIs(w: Wire, p: Reader, s: State, d: C.Desk, r: Request)
    requires WellFormed(s)
    ensures Served(w, p, s, d, r) == [r] + Posts(p, Answered(w, s, d, r).orders, r.Posted().now)
  {
    hide Answered, WellFormed;
  }

  lemma ShownIs(d: C.Desk, r: Request)
    ensures if r.Forwarded? then C.Handle(d, [C.Remember(r.body)]) == C.Handled(Shown(d, r), []) else Shown(d, r) == d
  {
    if r.Forwarded? {
      var steps := [C.Remember(r.body)];
      assert C.Init(steps) == [] && C.Last(steps) == C.Remember(r.body);
    }
  }
}
