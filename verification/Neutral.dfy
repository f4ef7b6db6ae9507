/**
  Orders that trade with each other inside the exchange cancel out in the
  ledger: only fills against the market change a symbol's net position or its
  total at any mark.
 */
module Neutral {
  import opened Orders
  import opened BookSpec
  import opened BookInvariant
  import opened Runs
  import opened Ledger
  import Server

  predicate Counts(r: ExecutionReport, symbol: string) {
    r.fill > 0 && r.symbol == symbol
  }

  /** Signed quantity filled for a symbol. */
  function NetOf(reports: seq<ExecutionReport>, symbol: string): int {
    if reports == [] then 0
    else
      var n := |reports| - 1;
      NetOf(reports[..n], symbol) + if Counts(reports[n], symbol) then Signed(reports[n].side, reports[n].fill) else 0
  }

  /** What a report moves: signed quantity, times price in ticks. */
  function CashMove(r: ExecutionReport): int {
    Signed(r.side, r.fill) * r.execution
  }

  function CashOf(reports: seq<ExecutionReport>, symbol: string): int {
    if reports == [] then 0
    else
      var n := |reports| - 1;
      CashOf(reports[..n], symbol)
      + if Counts(reports[n], symbol) then CashMove(reports[n]) else 0
  }

  lemma {:induction false} SumsAppend(a: seq<ExecutionReport>, b: seq<ExecutionReport>, symbol: string)
    ensures NetOf(a + b, symbol) == NetOf(a, symbol) + NetOf(b, symbol)
    ensures CashOf(a + b, symbol) == CashOf(a, symbol) + CashOf(b, symbol)
  {
    if b == [] {
      assert a + b == a;
    } else {
      var n := |b| - 1;
      SumsAppend(a, b[..n], symbol);
      assert (a + b)[..|a + b| - 1] == a + b[..n];
    }
  }

  lemma SumsSnoc(reports: seq<ExecutionReport>, r: ExecutionReport, symbol: string)
    ensures NetOf(reports + [r], symbol)
         == NetOf(reports, symbol) + if Counts(r, symbol) then Signed(r.side, r.fill) else 0
    ensures CashOf(reports + [r], symbol)
         == CashOf(reports, symbol) + if Counts(r, symbol) then CashMove(r) else 0
  {
    hide CashMove, Signed, Counts;
    assert (reports + [r])[..|reports|] == reports;
  }

  /** Neither quantity nor cash moves, for any symbol. */
  ghost predicate Balanced(reports: seq<ExecutionReport>) {
    forall symbol :: NetOf(reports, symbol) == 0 && CashOf(reports, symbol) == 0
  }

  /** The two reports of a trade are on opposite sides, at one price, for one quantity. */
  lemma TradeBalances(reports: seq<ExecutionReport>, a: ExecutionReport, b: ExecutionReport)
    requires Balanced(reports) && a.symbol == b.symbol && a.side == Opposite(b.side)
    requires a.fill == b.fill && a.execution == b.execution
    ensures Balanced(reports + [a, b])
  {
    hide CashMove, Signed, NetOf, CashOf;
    OppositeMoves(a, b);
    forall symbol
      ensures NetOf(reports + [a, b], symbol) == 0 && CashOf(reports + [a, b], symbol) == 0
    {
      SumsSnoc(reports, a, symbol);
      SumsSnoc(reports + [a], b, symbol);
      assert (reports + [a]) + [b] == reports + [a, b];
    }
  }

  lemma OppositeMoves(a: ExecutionReport, b: ExecutionReport)
    requires a.side == Opposite(b.side) && a.fill == b.fill && a.execution == b.execution
    ensures Signed(a.side, a.fill) == -Signed(b.side, b.fill) && CashMove(a) == -CashMove(b)
  {
    var x, y := Signed(a.side, a.fill), Signed(b.side, b.fill);
    assert x == -y;
    assert x * a.execution == -(y * a.execution);
  }

  lemma NoFillBalances(reports: seq<ExecutionReport>, r: ExecutionReport)
    requires Balanced(reports) && r.fill <= 0
    ensures Balanced(reports + [r])
  {
    forall symbol
      ensures NetOf(reports + [r], symbol) == 0 && CashOf(reports + [r], symbol) == 0
    {
      SumsSnoc(reports, r, symbol);
    }
  }

  lemma {:induction false} MatchBalances(m: Matching, symbol: string, time: nat)
    requires Tradable(m) && MatchOk(m, symbol) && Balanced(m.batch.reports)
    ensures Balanced(Matched(m, time).batch.reports)
    decreases m.incoming.remaining
  {
    hide *;
    MatchUnfolds(m, time);
    if CanMatch(m) {
      var next, head := MatchStep(m, time), m.resting[0];
      var q := Min(m.incoming.remaining, head.remaining);
      StepReports(m, time);
      MatchStepShape(m, time);
      TradeOpposes(m, symbol, q, time);
      TradeBalances(m.batch.reports,
        FillReport(m.incoming.(remaining := m.incoming.remaining - q), head.id, q, head.price, time, m.sequence + 1),
        FillReport(head.(remaining := head.remaining - q), m.incoming.id, q, head.price, time, m.sequence + 2));
      TradesHeadOk(m, next, symbol);
      MatchBalances(next, symbol, time);
    }
  }

  lemma TradeOpposes(m: Matching, symbol: string, q: int, time: nat)
    requires MatchOk(m, symbol) && Tradable(m) && CanMatch(m)
    ensures m.resting != [] && Priced(m.resting[0]) && Priced(m.incoming)
    ensures var head := m.resting[0];
      var a := FillReport(m.incoming.(remaining := m.incoming.remaining - q), head.id, q, head.price, time,
                          m.sequence + 1);
      var b := FillReport(head.(remaining := head.remaining - q), m.incoming.id, q, head.price, time, m.sequence + 2);
      a.symbol == b.symbol && a.side == Opposite(b.side) && a.fill == b.fill && a.execution == b.execution
  {
    assert MayRest(m.resting[0], symbol, Opposite(m.incoming.side), m.sequence);
  }

  lemma SubmitBalances(s: State, c: OrderCommand, now: Clock)
    requires WellFormed(s) && Sound(s)
    ensures Balanced(Submit(s, c, now).batch.reports)
  {
    var time := EffectiveTime(c.time, now);
    assert Balanced([]);
    match Refusal(s, c)
    case Some(reason) =>
      NoFillBalances([], RejectReport(c, reason, time, s.sequence + 1));
    case None =>
      var m := StartMatch(s, c, now);
      NoFillBalances([], ReportFor(m.incoming, Accepted, 0, 0, "accepted", time, s.sequence + 2));
      StartOk(s, c, now);
      MatchBalances(m, c.symbol, time);
      MatchKeepsOrder(m, time);
      RemainderBalances(AfterMatch(s, c, Matched(m, time)), Matched(m, time), time);
  }

  lemma RemainderBalances(s: State, m: Matching, time: nat)
    requires m.incoming.symbol in s.books && Priced(m.incoming) && Balanced(m.batch.reports)
    ensures Balanced(Remainder(s, m, time).batch.reports)
  {
    hide Balanced;
    var o := m.incoming;
    if o.remaining > 0 && o.kind.Limit? && !o.tif.Ioc? {
      NoFillBalances(m.batch.reports, ReportFor(o, Resting, 0, 0, "resting", time, s.sequence + 1));
    } else if o.remaining > 0 {
      NoFillBalances(m.batch.reports,
        ReportFor(o, Canceled, 0, 0, "unfilled_ioc_or_market_remainder", time, s.sequence + 1));
    }
  }

  lemma BalancedThen(a: seq<ExecutionReport>, b: seq<ExecutionReport>)
    requires Balanced(a) && Balanced(b)
    ensures Balanced(a + b)
  {
    forall symbol
      ensures NetOf(a + b, symbol) == 0 && CashOf(a + b, symbol) == 0
    {
      SumsAppend(a, b, symbol);
    }
  }

  /** Every command but a market-data tick is balanced. */
  lemma CommandBalances(s: State, input: Input)
    requires WellFormed(s) && Sound(s) && Locatable(s) && !input.command.MarketData?
    ensures Balanced(Step(s, input).batch.reports)
  {
    assert Balanced([]);
    match input.command
    case SubmitOrder(c) => SubmitBalances(s, c, input.now);
    case CancelOrder(c) =>
      var r := Cancel(s, c, input.now).batch.reports;
      assert |r| == 1 && r == [] + [r[0]];
      NoFillBalances([], r[0]);
    case ReplaceOrder(c) => ReplaceBalances(s, c, input.now);
    case ResetBooks =>
  }

  lemma ReplaceBalances(s: State, c: ReplaceCommand, now: Clock)
    requires WellFormed(s) && Sound(s) && Locatable(s)
    ensures Balanced(Replace(s, c, now).batch.reports)
  {
    assert Balanced([]);
    hide WellFormed, Submit, Balanced;
    var time := EffectiveTime(c.time, now);
    if c.id !in s.registry {
      NoFillBalances([], NotFoundReport(c.id, time, s.sequence + 1));
    } else {
      var o := Located(s, c.id);
      FindIsMember(s.books[s.registry[c.id].symbol].Orders(s.registry[c.id].side), c.id);
      RemoveKeepsSound(s, c.id, time);
      RemoveOk(s, c.id, time);
      var t := Remove(s, c.id, time).state.(sequence := s.sequence + 1);
      SequenceOk(Remove(s, c.id, time).state, s.sequence + 1);
      WellFormedIsSound(t);
      var r := ReportFor(o, Replaced, 0, 0, "cancel_replace", time, s.sequence + 1);
      NoFillBalances([], r);
      SubmitBalances(t, ReplacementOf(o, c, time), now);
      BalancedThen([] + [r], Submit(t, ReplacementOf(o, c, time), now).batch.reports);
    }
  }

  // ---------- what it means for the ledger ----------

  /** The recorded fills of one symbol, as the ledger gets them. */
  function FillsOf(reports: seq<ExecutionReport>, symbol: string, tickSize: real): (fills: seq<FillState>)
    ensures Fills(fills)
  {
    if reports == [] then []
    else
      var n := |reports| - 1;
      FillsOf(reports[..n], symbol, tickSize)
      + if Counts(reports[n], symbol) then [Server.FillOf(reports[n], tickSize)] else []
  }

  /** These are the fills that the server files under the symbol. */
  lemma {:induction false} ServerRecords(products: map<string, ProductSpec>, reports: seq<ExecutionReport>,
                                         symbol: string)
    ensures Server.Of(Server.Recorded(products, reports), symbol)
         == FillsOf(reports, symbol, SpecOf(products, symbol).tickSize)
  {
    if reports != [] {
      var n := |reports| - 1;
      ServerRecords(products, reports[..n], symbol);
      var r := Server.Recorded(products, reports[..n]);
      assert r + [] == r && Server.Of(r, symbol) + [] == Server.Of(r, symbol);
      if reports[n].fill > 0 {
        var f := Server.FillOf(reports[n], SpecOf(products, reports[n].symbol).tickSize);
        Server.HistoryGrows(r, f, symbol);
      }
    }
  }

  /** The move to `mark` of a net quantity bought for a sum of quantity times ticks. */
  function MoveOf(mark: real, tickSize: real, net: int, cash: int): real {
    mark * net as real - tickSize * cash as real
  }

  /** Sums over fills are the sums over reports. */
  lemma {:induction false} FillSums(reports: seq<ExecutionReport>, symbol: string, tickSize: real, mark: real)
    ensures var f := FillsOf(reports, symbol, tickSize);
      && NetQuantity(f) == NetOf(reports, symbol)
      && Moves(f, mark) == MoveOf(mark, tickSize, NetOf(reports, symbol), CashOf(reports, symbol))
  {
    if reports != [] {
      hide NetOf, CashOf, Moves, NetQuantity, Gain, Signed, MoveOf, Server.FillOf;
      var n := |reports| - 1;
      var r := reports[n];
      var f := FillsOf(reports[..n], symbol, tickSize);
      FillSums(reports[..n], symbol, tickSize, mark);
      SumsSnoc(reports[..n], r, symbol);
      assert reports[..n] + [r] == reports && f + [] == f;
      if Counts(r, symbol) {
        var g := Server.FillOf(r, tickSize);
        NetSnoc(f, g);
        MovesSnoc(f, g, mark);
        OneFill(mark, tickSize, NetOf(reports[..n], symbol), CashOf(reports[..n], symbol), r);
      }
    }
  }

  lemma OneFill(mark: real, tick: real, net: int, cash: int, r: ExecutionReport)
    ensures var g := Server.FillOf(r, tick); var signed := Signed(r.side, r.fill);
      && Signed(g.side, g.qty) == signed
      && MoveOf(mark, tick, net, cash) + Gain(g.price, mark, signed)
        == MoveOf(mark, tick, net + signed, cash + signed * r.execution)
  {
    OneMove(mark, tick, net, cash, Signed(r.side, r.fill), r.execution);
  }

  lemma NetSnoc(f: seq<FillState>, g: FillState)
    ensures NetQuantity(f + [g]) == NetQuantity(f) + Signed(g.side, g.qty)
  {
    Server.NetAppend(f, [g]);
  }

  lemma OneMove(mark: real, tick: real, net: int, cash: int, signed: int, ticks: int)
    ensures MoveOf(mark, tick, net, cash) + Gain(ticks as real * tick, mark, signed)
         == MoveOf(mark, tick, net + signed, cash + signed * ticks)
  {
    var s, t := signed as real, ticks as real;
    assert (signed * ticks) as real == s * t;
    assert (mark - t * tick) * s == mark * s - tick * (s * t);
    assert mark * (net as real + s) == mark * net as real + mark * s;
    assert tick * (cash as real + s * t) == tick * cash as real + tick * (s * t);
  }

  lemma {:induction false} MovesSnoc(f: seq<FillState>, g: FillState, mark: real)
    ensures Moves(f + [g], mark) == Moves(f, mark) + Gain(g.price, mark, Signed(g.side, g.qty))
  {
    if f == [] {
      assert f + [g] == [g];
    } else {
      MovesSnoc(f[1..], g, mark);
      assert (f + [g])[1..] == f[1..] + [g];
    }
  }

  /**
    Submitting, cancelling or replacing orders moves neither a symbol's net
    position nor its total at any mark, whatever trades it causes.
   */
  lemma InternalTradesAreNeutral(s: State, input: Input, symbol: string, pos: PositionState, spec: ProductSpec,
                                 mark: real)
    requires WellFormed(s) && !input.command.MarketData? && Positive(spec)
    ensures Sound(s) && Locatable(s)
    ensures var p := AfterFills(pos, FillsOf(Step(s, input).batch.reports, symbol, spec.tickSize), spec);
      p.qty == pos.qty && TotalPnl(p, mark, spec) == TotalPnl(pos, mark, spec)
  {
    WellFormedIsSound(s);
    CommandBalances(s, input);
    BalancedFills(Step(s, input).batch.reports, symbol, pos, spec, mark);
  }

  /** The same for the server's books: applying the batch of such a command moves no position and no total. */
  lemma ServerStaysNeutral(products: map<string, ProductSpec>, before: map<string, PositionState>,
                           after: map<string, PositionState>, history: seq<FillState>, s: State, input: Input,
                           symbol: string, mark: real)
    requires WellFormed(s) && !input.command.MarketData?
    requires Server.BooksOk(products, before, history)
    requires Server.BooksOk(products, after, history + Server.Recorded(products, Next(s, input).batch.reports))
    ensures var p, q := Server.PositionOf(before, symbol), Server.PositionOf(after, symbol);
      var spec := SpecOf(products, symbol);
      q.qty == p.qty && (Positive(spec) ==> TotalPnl(q, mark, spec) == TotalPnl(p, mark, spec))
  {
    var reports, spec := Next(s, input).batch.reports, SpecOf(products, symbol);
    var old_fills, new_fills := Server.Of(history, symbol), FillsOf(reports, symbol, spec.tickSize);
    Server.PositionIs(products, before, history, symbol);
    Server.PositionIs(products, after, history + Server.Recorded(products, reports), symbol);
    Server.OfAppend(history, Server.Recorded(products, reports), symbol);
    ServerRecords(products, reports, symbol);
    WellFormedIsSound(s);
    CommandBalances(s, input);
    assert Step(s, input) == Next(s, input);
    hide Next, Step, Server.BooksOk, WellFormed, Sound, Locatable, AfterFill, TickPnl;
    AfterFillsAppend(FLAT, old_fills, new_fills, spec);
    var pos := AfterFills(FLAT, old_fills, spec);
    BalancedFills(reports, symbol, pos, spec, mark);
  }

  /** Fills of balanced reports leave a position's quantity, and its total at any mark. */
  lemma BalancedFills(reports: seq<ExecutionReport>, symbol: string, pos: PositionState, spec: ProductSpec, mark: real)
    requires Balanced(reports)
    ensures var p := AfterFills(pos, FillsOf(reports, symbol, spec.tickSize), spec);
      p.qty == pos.qty && (Positive(spec) ==> TotalPnl(p, mark, spec) == TotalPnl(pos, mark, spec))
  {
    assert NetOf(reports, symbol) == 0 && CashOf(reports, symbol) == 0;
    FillSums(reports, symbol, spec.tickSize, mark);
    var f := FillsOf(reports, symbol, spec.tickSize);
    assert Moves(f, mark) == 0.0;
    Server.FillsNet(pos, f, spec);
    hide AfterFills, Moves;
    if Positive(spec) {
      CashFlowIdentity(pos, f, spec, mark);
      WorthAdds(spec, 0.0, 0.0);
    }
  }

  /** Signed quantity, and quantity times ticks, filled by market-data ticks alone. */
  function MarketNet(s: State, inputs: seq<Input>, symbol: string): int
    requires WellFormed(s)
    decreases |inputs|
  {
    if inputs == [] then 0
    else
      var o := Next(s, inputs[0]);
      (if inputs[0].command.MarketData? then NetOf(o.batch.reports, symbol) else 0)
        + MarketNet(o.state, inputs[1..], symbol)
  }

  function MarketCash(s: State, inputs: seq<Input>, symbol: string): int
    requires WellFormed(s)
    decreases |inputs|
  {
    if inputs == [] then 0
    else
      var o := Next(s, inputs[0]);
      (if inputs[0].command.MarketData? then CashOf(o.batch.reports, symbol) else 0)
        + MarketCash(o.state, inputs[1..], symbol)
  }

  lemma {:induction false} RunNet(s: State, inputs: seq<Input>, symbol: string)
    requires WellFormed(s)
    ensures NetOf(Run(s, inputs).batch.reports, symbol) == MarketNet(s, inputs, symbol)
    ensures CashOf(Run(s, inputs).batch.reports, symbol) == MarketCash(s, inputs, symbol)
    decreases |inputs|
  {
    if inputs != [] {
      WellFormedIsSound(s);
      var o := Next(s, inputs[0]);
      RunNet(o.state, inputs[1..], symbol);
      SumsAppend(o.batch.reports, Run(o.state, inputs[1..]).batch.reports, symbol);
      if !inputs[0].command.MarketData? {
        CommandBalances(s, inputs[0]);
      }
    }
  }

  /**
    Over a whole run, resets included, the ledger's position is the net of the
    fills against the market, and its total at any mark is what those fills
    alone have made at that mark.
   */
  lemma RunPosition(s: State, inputs: seq<Input>, symbol: string, spec: ProductSpec, mark: real)
    requires WellFormed(s)
    ensures var p := AfterFills(FLAT, FillsOf(Run(s, inputs).batch.reports, symbol, spec.tickSize), spec);
      && p.qty == MarketNet(s, inputs, symbol)
      && (Positive(spec) ==>
            TotalPnl(p, mark, spec)
            == Worth(spec, MoveOf(mark, spec.tickSize, MarketNet(s, inputs, symbol), MarketCash(s, inputs, symbol))))
  {
    var reports := Run(s, inputs).batch.reports;
    RunNet(s, inputs, symbol);
    FillSums(reports, symbol, spec.tickSize, mark);
    var f := FillsOf(reports, symbol, spec.tickSize);
    Server.FillsNet(FLAT, f, spec);
    hide AfterFills, Moves, Worth, MoveOf, Run, MarketNet, MarketCash;
    if Positive(spec) {
      CashFlowIdentity(FLAT, f, spec, mark);
    }
  }
}
