/**
  What the exchange does, on values. Each side of a book is one flat sequence
  in price-time order; there are no levels here. Matching and sweeping are
  written one order at a time, carrying the batch emitted so far.
 */
module BookSpec {
  import opened Orders

  datatype Book = Book(bids: seq<Order>, asks: seq<Order>)
  {
    function Orders(d: Side): seq<Order> { if d.Buy? then bids else asks }
    function With(d: Side, f: seq<Order>): Book { if d.Buy? then this.(bids := f) else this.(asks := f) }
  }

  datatype State = State(books: map<string, Book>, registry: Registry, sequence: nat)

  datatype Outcome = Outcome(state: State, batch: Batch)

  // ---------- one side ----------

  function LevelQuantity(f: seq<Order>, price: int): int {
    if f == [] then 0
    else (if f[0].price == price then f[0].remaining else 0) + LevelQuantity(f[1..], price)
  }

  function LevelCount(f: seq<Order>, price: int): nat {
    if f == [] then 0
    else (if f[0].price == price then 1 else 0) + LevelCount(f[1..], price)
  }

  /** Behind every order of the same or a better price, ahead of every worse one. */
  function Insert(d: Side, f: seq<Order>, o: Order): seq<Order> {
    if f == [] || Ahead(d, o.price, f[0].price) then [o] + f
    else [f[0]] + Insert(d, f[1..], o)
  }

  predicate HasId(f: seq<Order>, id: string) {
    exists i :: 0 <= i < |f| && f[i].id == id
  }

  function Find(f: seq<Order>, id: string): Order
    requires HasId(f, id)
  {
    if f[0].id == id then f[0] else Find(f[1..], id)
  }

  function Without(f: seq<Order>, id: string): seq<Order> {
    if f == [] then []
    else if f[0].id == id then f[1..]
    else [f[0]] + Without(f[1..], id)
  }

  function DeltaFor(symbol: string, d: Side, price: int, f: seq<Order>, action: BookDeltaAction, time: nat,
                    sequence: nat)
    : BookDelta
  {
    if action.Delete? then BookDelta(symbol, Delete, d, price, 0, 0, time, sequence)
    else BookDelta(symbol, action, d, price, LevelQuantity(f, price), LevelCount(f, price), time, sequence)
  }

  // ---------- matching ----------

  /** An incoming order, the side it trades against, and what is to be reported. */
  datatype Matching = Matching(
    incoming: Order,
    resting: seq<Order>,
    registry: Registry,
    sequence: nat,
    batch: Batch)

  predicate Priced(o: Order) {
    MIN_TICKS <= o.price <= MAX_TICKS
  }

  /** Something is left of the order, at a 64-bit price. */
  predicate Live(o: Order) {
    o.remaining > 0 && Priced(o)
  }

  ghost predicate LiveSide(f: seq<Order>) {
    forall i :: 0 <= i < |f| ==> Live(f[i])
  }

  ghost predicate Tradable(m: Matching) {
    Priced(m.incoming) && LiveSide(m.resting)
  }

  predicate CanMatch(m: Matching) {
    && m.resting != []
    && m.incoming.remaining > 0
    && Crosses(m.incoming.side, m.incoming.price, m.resting[0].price)
  }

  /** The first order of the side trades once with the incoming one. */
  function Trade(m: Matching, time: nat): Matching
    requires CanMatch(m) && Priced(m.incoming) && Priced(m.resting[0])
  {
    var head := m.resting[0];
    var quantity := Min(m.incoming.remaining, head.remaining);
    var incoming := m.incoming.(remaining := m.incoming.remaining - quantity);
    var left := head.(remaining := head.remaining - quantity);
    var batch := m.batch
      .Report(FillReport(incoming, head.id, quantity, head.price, time, m.sequence + 1))
      .Report(FillReport(left, m.incoming.id, quantity, head.price, time, m.sequence + 2));
    if left.remaining == 0 then
      Matching(incoming, m.resting[1..], m.registry - {head.id}, m.sequence + 2, batch)
    else
      Matching(incoming, m.resting[0 := left], m.registry, m.sequence + 2, batch)
  }

  /** The level at `price` is finished: it is empty, or the incoming order is. */
  predicate LevelDone(m: Matching, price: int) {
    m.incoming.remaining <= 0 || m.resting == [] || m.resting[0].price != price
  }

  function Announce(m: Matching, price: int, time: nat): Matching {
    var d := Opposite(m.incoming.side);
    var action := if m.resting == [] || m.resting[0].price != price then Delete else Modify;
    m.(batch := m.batch.Delta(DeltaFor(m.incoming.symbol, d, price, m.resting, action, time, m.sequence)))
  }

  function MatchStep(m: Matching, time: nat): (r: Matching)
    requires CanMatch(m) && Tradable(m)
    ensures Tradable(r) && r.incoming.remaining < m.incoming.remaining
  {
    var t := Trade(m, time);
    if LevelDone(t, m.resting[0].price) then Announce(t, m.resting[0].price, time) else t
  }

  function Matched(m: Matching, time: nat): (r: Matching)
    requires Tradable(m)
    ensures Tradable(r) && !CanMatch(r)
    decreases m.incoming.remaining
  {
    if CanMatch(m) then Matched(MatchStep(m, time), time) else m
  }

  /** The two reports of a trade, and nothing else, are what a step adds. */
  lemma StepReports(m: Matching, time: nat)
    requires CanMatch(m) && Tradable(m)
    ensures var r, head := MatchStep(m, time), m.resting[0];
      var q := Min(m.incoming.remaining, head.remaining);
      r.batch.reports == m.batch.reports + [
        FillReport(m.incoming.(remaining := m.incoming.remaining - q), head.id, q, head.price, time, m.sequence + 1),
        FillReport(head.(remaining := head.remaining - q), m.incoming.id, q, head.price, time, m.sequence + 2)]
  {
  }

  lemma MatchUnfolds(m: Matching, time: nat)
    requires Tradable(m)
    ensures CanMatch(m) ==> m.resting != [] && Matched(m, time) == Matched(MatchStep(m, time), time)
    ensures !CanMatch(m) ==> Matched(m, time) == m
  {
  }

  // ---------- the market-data sweep ----------

  /** One side being swept. */
  datatype Sweeping = Sweeping(resting: seq<Order>, registry: Registry, sequence: nat, batch: Batch)

  /** The first order fills in full at its own limit. */
  function SweepStep(w: Sweeping, symbol: string, d: Side, time: nat): Sweeping
    requires w.resting != [] && LiveSide(w.resting)
  {
    var head := w.resting[0];
    var rest := w.resting[1..];
    var filled := w.batch.Report(
      FillReport(head.(remaining := 0), "MARKET_DATA", head.remaining, head.price, time, w.sequence + 1));
    var batch :=
      if rest == [] || rest[0].price != head.price then
        filled.Delta(DeltaFor(symbol, d, head.price, rest, Delete, time, w.sequence + 1))
      else filled;
    Sweeping(rest, w.registry - {head.id}, w.sequence + 1, batch)
  }

  function Sweep(w: Sweeping, symbol: string, d: Side, tick: MarketDataTick, time: nat): (r: Sweeping)
    requires LiveSide(w.resting)
    ensures LiveSide(r.resting)
    decreases |w.resting|
  {
    if w.resting != [] && Triggered(d, tick, w.resting[0].price)
    then Sweep(SweepStep(w, symbol, d, time), symbol, d, tick, time)
    else w
  }

  // ---------- the commands ----------

  function Refusal(s: State, c: OrderCommand): Option<string> {
    if c.symbol !in s.books then Some("unknown_symbol")
    else if c.id == "" then Some("order_id_required")
    else if c.id in s.registry then Some("duplicate_order_id")
    else if c.quantity <= 0 then Some("quantity_must_be_positive")
    else if c.kind.Limit? && c.price.NotFinite? then Some("limit_price_required")
    else None
  }

  function RejectReport(c: OrderCommand, reason: string, time: nat, sequence: nat): ExecutionReport {
    ExecutionReport(c.id, "", c.symbol, c.side, Rejected, c.price, 0, 0, 0, time, sequence, reason, c.metadata)
  }

  function NotFoundReport(id: string, time: nat, sequence: nat): ExecutionReport {
    ExecutionReport(id, "", "", Buy, Rejected, Ticks(0), 0, 0, 0, time, sequence, "order_not_found", "")
  }

  function NewOrder(c: OrderCommand, time: nat, sequence: nat): (o: Order)
    requires c.kind.Limit? ==> c.price.Ticks?
    ensures Priced(o)
  {
    Order(c.id, c.symbol, c.side, c.kind, c.tif,
          if c.kind.Market? then MarketBoundary(c.side) else c.price.ticks,
          c.quantity, c.quantity, time, sequence, c.metadata)
  }

  ghost predicate Sound(s: State) {
    forall symbol :: symbol in s.books ==> LiveSide(s.books[symbol].bids) && LiveSide(s.books[symbol].asks)
  }

  function PutSide(s: State, symbol: string, d: Side, f: seq<Order>, registry: Registry, sequence: nat): State
    requires symbol in s.books
  {
    State(s.books[symbol := s.books[symbol].With(d, f)], registry, sequence)
  }

  /** A limit order's remainder joins its own side and is registered. */
  function Rest(s: State, o: Order, batch: Batch, time: nat): Outcome
    requires o.symbol in s.books && Priced(o)
  {
    var f := s.books[o.symbol].Orders(o.side);
    var g := Insert(o.side, f, o);
    var action := if LevelCount(f, o.price) == 0 then Add else Modify;
    Outcome(
      PutSide(s, o.symbol, o.side, g, s.registry[o.id := Location(o.symbol, o.side, o.price)], s.sequence + 1),
      batch.Delta(DeltaFor(o.symbol, o.side, o.price, g, action, time, s.sequence))
           .Report(ReportFor(o, Resting, 0, 0, "resting", time, s.sequence + 1)))
  }

  /** An accepted order right before matching. */
  function StartMatch(s: State, c: OrderCommand, now: Clock): (m: Matching)
    requires Sound(s) && Refusal(s, c).None?
    ensures Tradable(m)
  {
    var time := EffectiveTime(c.time, now);
    var o := NewOrder(c, time, s.sequence + 1);
    Matching(o, s.books[c.symbol].Orders(Opposite(c.side)), s.registry, s.sequence + 2,
             EMPTY.Report(ReportFor(o, Accepted, 0, 0, "accepted", time, s.sequence + 2)))
  }

  function AfterMatch(s: State, c: OrderCommand, m: Matching): State
    requires c.symbol in s.books
  {
    PutSide(s, c.symbol, Opposite(c.side), m.resting, m.registry, m.sequence)
  }

  /** What happens to the part of an order that found no match. */
  function Remainder(s: State, m: Matching, time: nat): Outcome
    requires m.incoming.symbol in s.books && Priced(m.incoming)
  {
    var o := m.incoming;
    if o.remaining > 0 && o.kind.Limit? && !o.tif.Ioc? then
      Rest(s, o, m.batch, time)
    else if o.remaining > 0 then
      Outcome(s.(sequence := s.sequence + 1),
              m.batch.Report(ReportFor(o, Canceled, 0, 0, "unfilled_ioc_or_market_remainder", time, s.sequence + 1)))
    else Outcome(s, m.batch)
  }

  function Submit(s: State, c: OrderCommand, now: Clock): Outcome
    requires Sound(s)
  {
    var time := EffectiveTime(c.time, now);
    match Refusal(s, c)
    case Some(reason) =>
      Outcome(s.(sequence := s.sequence + 1), EMPTY.Report(RejectReport(c, reason, time, s.sequence + 1)))
    case None =>
      var m := Matched(StartMatch(s, c, now), time);
      MatchKeepsOrder(StartMatch(s, c, now), time);
      Remainder(AfterMatch(s, c, m), m, time)
  }

  /** Matching changes nothing of the incoming order but its remaining quantity. */
  lemma {:induction false} MatchKeepsOrder(m: Matching, time: nat)
    requires Tradable(m)
    ensures Matched(m, time).incoming == m.incoming.(remaining := Matched(m, time).incoming.remaining)
    decreases m.incoming.remaining
  {
    if CanMatch(m) {
      MatchKeepsOrder(MatchStep(m, time), time);
    }
  }

  /** The registry points into the books. */
  ghost predicate Locatable(s: State) {
    forall id :: id in s.registry ==>
      && s.registry[id].symbol in s.books
      && HasId(s.books[s.registry[id].symbol].Orders(s.registry[id].side), id)
  }

  function Located(s: State, id: string): Order
    requires Locatable(s) && id in s.registry
  {
    Find(s.books[s.registry[id].symbol].Orders(s.registry[id].side), id)
  }

  function Remove(s: State, id: string, time: nat): Outcome
    requires Locatable(s) && id in s.registry
  {
    var at := s.registry[id];
    var g := Without(s.books[at.symbol].Orders(at.side), id);
    var action := if LevelCount(g, at.price) == 0 then Delete else Modify;
    Outcome(PutSide(s, at.symbol, at.side, g, s.registry - {id}, s.sequence),
            EMPTY.Delta(DeltaFor(at.symbol, at.side, at.price, g, action, time, s.sequence)))
  }

  function CancelReason(reason: string): string {
    if reason == "" then "cancelled" else reason
  }

  function Cancel(s: State, c: CancelCommand, now: Clock): Outcome
    requires Sound(s) && Locatable(s)
  {
    var time := EffectiveTime(c.time, now);
    if c.id !in s.registry then
      Outcome(s.(sequence := s.sequence + 1), EMPTY.Report(NotFoundReport(c.id, time, s.sequence + 1)))
    else
      var o := Located(s, c.id);
      FindIsMember(s.books[s.registry[c.id].symbol].Orders(s.registry[c.id].side), c.id);
      var r := Remove(s, c.id, time);
      Outcome(r.state.(sequence := s.sequence + 1),
              r.batch.Report(ReportFor(o, Canceled, 0, 0, CancelReason(c.reason), time, s.sequence + 1)))
  }

  lemma {:induction false} FindIsMember(f: seq<Order>, id: string)
    requires HasId(f, id)
    ensures Find(f, id) in f && Find(f, id).id == id
  {
    if f[0].id != id {
      assert HasId(f[1..], id) by {
        var i :| 0 <= i < |f| && f[i].id == id;
        assert f[1..][i - 1] == f[i];
      }
      FindIsMember(f[1..], id);
    }
  }

  lemma {:induction false} WithoutKeepsMembers(f: seq<Order>, id: string)
    ensures forall o :: o in Without(f, id) ==> o in f
  {
    if f != [] && f[0].id != id {
      WithoutKeepsMembers(f[1..], id);
    }
  }

  /** The order that a replace puts back. */
  function ReplacementOf(o: Order, c: ReplaceCommand, time: nat): OrderCommand
    requires Priced(o)
  {
    OrderCommand(o.id, o.symbol, o.side, o.kind, o.tif,
                 if c.price.Some? then c.price.value else Ticks(o.price),
                 if c.quantity.Some? then c.quantity.value else o.remaining,
                 time, o.metadata)
  }

  lemma RemoveKeepsSound(s: State, id: string, time: nat)
    requires Sound(s) && Locatable(s) && id in s.registry
    ensures Sound(Remove(s, id, time).state)
  {
    var at := s.registry[id];
    var f := s.books[at.symbol].Orders(at.side);
    WithoutKeepsMembers(f, id);
    assert LiveSide(f);
    assert forall i :: 0 <= i < |Without(f, id)| ==> Without(f, id)[i] in f;
  }

  function Replace(s: State, c: ReplaceCommand, now: Clock): Outcome
    requires Sound(s) && Locatable(s)
  {
    var time := EffectiveTime(c.time, now);
    if c.id !in s.registry then
      Outcome(s.(sequence := s.sequence + 1), EMPTY.Report(NotFoundReport(c.id, time, s.sequence + 1)))
    else
      var o := Located(s, c.id);
      FindIsMember(s.books[s.registry[c.id].symbol].Orders(s.registry[c.id].side), c.id);
      RemoveKeepsSound(s, c.id, time);
      var r := Remove(s, c.id, time);
      var removed := r.batch.Report(ReportFor(o, Replaced, 0, 0, "cancel_replace", time, s.sequence + 1));
      var again := Submit(r.state.(sequence := s.sequence + 1), ReplacementOf(o, c, time), now);
      Outcome(again.state, removed.Then(again.batch))
  }

  function ApplyTick(s: State, tick: MarketDataTick, now: Clock): Outcome
    requires Sound(s)
  {
    if tick.symbol !in s.books then Outcome(s, EMPTY)
    else
      var time := EffectiveTime(tick.time, now);
      var b := s.books[tick.symbol];
      var asks := Sweep(Sweeping(b.asks, s.registry, s.sequence, EMPTY), tick.symbol, Sell, tick, time);
      var bids := Sweep(Sweeping(b.bids, asks.registry, asks.sequence, asks.batch), tick.symbol, Buy, tick, time);
      Outcome(State(s.books[tick.symbol := Book(bids.resting, asks.resting)], bids.registry, bids.sequence), bids.batch)
  }

  function Reset(s: State): State {
    State(map symbol | symbol in s.books :: Book([], []), map[], s.sequence + 1)
  }

  // ---------- runs ----------

  datatype Command =
    | SubmitOrder(order: OrderCommand)
    | CancelOrder(cancel: CancelCommand)
    | ReplaceOrder(replace: ReplaceCommand)
    | MarketData(tick: MarketDataTick)
    | ResetBooks

  datatype Input = Input(command: Command, now: Clock)

  function Step(s: State, input: Input): Outcome
    requires Sound(s) && Locatable(s)
  {
    match input.command
    case SubmitOrder(c) => Submit(s, c, input.now)
    case CancelOrder(c) => Cancel(s, c, input.now)
    case ReplaceOrder(c) => Replace(s, c, input.now)
    case MarketData(t) => ApplyTick(s, t, input.now)
    case ResetBooks => Outcome(Reset(s), EMPTY)
  }
}
