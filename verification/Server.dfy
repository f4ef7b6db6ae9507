/**
  The exchange server's books of account: fills are recorded, positions are
  updated in place and marked, and a restart replays the saved fills.
 */
module Server {
  import opened Orders
  import opened Ledger
  import opened Numbers

  const FILL_CAPACITY := 5000

  function Last(fills: seq<FillState>, n: nat): seq<FillState> {
    if |fills| <= n then fills else fills[|fills| - n..]
  }

  /** The fills of one symbol, in order. */
  function Of(fills: seq<FillState>, symbol: string): seq<FillState> {
    if fills == [] then []
    else
      var n := |fills| - 1;
      Of(fills[..n], symbol) + if fills[n].symbol == symbol then [fills[n]] else []
  }

  /** A position without its mark. */
  predicate SameCore(p: PositionState, q: PositionState) {
    p == q.(markPrice := p.markPrice, openPnl := p.openPnl)
  }

  function PositionOf(positions: map<string, PositionState>, symbol: string): PositionState {
    if symbol in positions then positions[symbol] else FLAT
  }

  /** Every fill has an id. */
  ghost predicate Tagged(fills: seq<FillState>) {
    forall i :: 0 <= i < |fills| ==> fills[i].tag.id != ""
  }

  /** The mark a tick gives, if any. */
  function MarkOf(last: Option<real>, bid: Option<real>, ask: Option<real>): Option<real> {
    if last.Some? then last
    else if bid.Some? && ask.Some? then Some((bid.value + ask.value) / 2.0)
    else if bid.Some? then bid
    else ask
  }

  /** The last trade marks; without one the middle of the quote, or the only side there is. */
  lemma MarkIsTheMarket(last: Option<real>, bid: Option<real>, ask: Option<real>)
    ensures var mark := MarkOf(last, bid, ask);
      && (mark.None? <==> last.None? && bid.None? && ask.None?)
      && (last.Some? ==> mark == last)
      && (last.None? && bid.Some? && ask.Some? ==> mark.value - bid.value == ask.value - mark.value)
      && (last.None? && ask.None? ==> mark == bid)
      && (last.None? && bid.None? ==> mark == ask)
  {
  }

  function FillOf(r: ExecutionReport, tickSize: real): FillState {
    FillState(r.symbol, r.side, r.fill, r.execution as real * tickSize,
              FillTag("CERX-FILL-" + Decimal(r.sequence), r.id, r.time, r.metadata))
  }

  /** The fills a batch of reports records, each at its product's tick size. */
  function Recorded(products: map<string, ProductSpec>, reports: seq<ExecutionReport>): seq<FillState> {
    if reports == [] then []
    else
      var n := |reports| - 1;
      Recorded(products, reports[..n])
      + if reports[n].fill > 0 then [FillOf(reports[n], SpecOf(products, reports[n].symbol).tickSize)] else []
  }

  /** A filling report is recorded on its order's side, at its price in the product's ticks; no other is. */
  lemma RecordedFill(products: map<string, ProductSpec>, spec: ProductSpec, reports: seq<ExecutionReport>,
                     r: ExecutionReport)
    ensures var all := products[r.symbol := spec];
      Recorded(all, reports + [r]) == Recorded(all, reports)
        + if r.fill > 0 then [FillState(r.symbol, r.side, r.fill, r.execution as real * spec.tickSize,
                                        FillTag("CERX-FILL-" + Decimal(r.sequence), r.id, r.time, r.metadata))]
          else []
  {
    hide SpecOf, FillOf;
    var all, longer := products[r.symbol := spec], reports + [r];
    assert longer[..|reports|] == reports && longer[|reports|] == r;
    OwnProduct(products, r.symbol, spec);
    FillIs(r, spec.tickSize);
    if r.fill > 0 {
      assert Recorded(all, longer) == Recorded(all, reports) + [FillOf(r, SpecOf(all, r.symbol).tickSize)];
      assert FillOf(r, SpecOf(all, r.symbol).tickSize) == FillOf(r, spec.tickSize);
      assert Recorded(all, longer) == Recorded(all, reports) + [FillOf(r, spec.tickSize)];
      assert FillOf(r, spec.tickSize) == FillState(r.symbol, r.side, r.fill, r.execution as real * spec.tickSize,
                                        FillTag("CERX-FILL-" + Decimal(r.sequence), r.id, r.time, r.metadata));
    } else {
      assert Recorded(all, longer) == Recorded(all, reports) + [];
    }
  }

  lemma FillIs(r: ExecutionReport, tickSize: real)
    ensures FillOf(r, tickSize)
      == FillState(r.symbol, r.side, r.fill, r.execution as real * tickSize,
                   FillTag("CERX-FILL-" + Decimal(r.sequence), r.id, r.time, r.metadata))
  {
  }

  /** p is what all the fills of the symbol make of a flat position, marked. */
  ghost predicate PositionOk(p: PositionState, fills: seq<FillState>, spec: ProductSpec)
    requires Fills(fills)
  {
    SameCore(p, AfterFills(FLAT, fills, spec)) && p.openPnl == TickPnl(p.avgPrice, p.markPrice, p.qty, spec)
  }

  /** Positions account for the whole history: no fills, no position. */
  ghost predicate BooksOk(products: map<string, ProductSpec>, positions: map<string, PositionState>,
                          history: seq<FillState>) {
    && Fills(history)
    && forall symbol {:trigger Of(history, symbol)} :: SymbolOk(products, positions, Of(history, symbol), symbol)
  }

  ghost predicate SymbolOk(products: map<string, ProductSpec>, positions: map<string, PositionState>,
                           fills: seq<FillState>, symbol: string)
  {
    && Fills(fills)
    && if symbol in positions then PositionOk(positions[symbol], fills, SpecOf(products, symbol)) else fills == []
  }

  /** Marks do not influence what a fill does. */
  lemma NextCore(p: PositionState, q: PositionState, fill: FillState, spec: ProductSpec)
    requires fill.qty > 0 && SameCore(p, q)
    ensures SameCore(AfterFill(p, fill, spec), AfterFill(q, fill, spec))
  {
    hide TickPnl, Average;
  }

  lemma HistoryGrows(h: seq<FillState>, fill: FillState, symbol: string)
    ensures Of(h + [fill], symbol) == Of(h, symbol) + if fill.symbol == symbol then [fill] else []
  {
    assert (h + [fill])[..|h|] == h;
  }

  /** A fill moves one position and leaves the others alone. */
  lemma BooksAfterFill(products: map<string, ProductSpec>, positions: map<string, PositionState>,
                       history: seq<FillState>, fill: FillState, mark: real)
    requires BooksOk(products, positions, history) && fill.qty > 0
    ensures var spec := SpecOf(products, fill.symbol);
      var pos := PositionOf(positions, fill.symbol);
      BooksOk(products, positions[fill.symbol := Marked(AfterFill(pos, fill, spec), mark, spec)], history + [fill])
  {
    var spec := SpecOf(products, fill.symbol);
    var marked := Marked(AfterFill(PositionOf(positions, fill.symbol), fill, spec), mark, spec);
    hide SymbolOk, AfterFill, Marked, SpecOf, Of;
    forall s
      ensures SymbolOk(products, positions[fill.symbol := marked], Of(history + [fill], s), s)
    {
      HistoryGrows(history, fill, s);
      assert SymbolOk(products, positions, Of(history, s), s);
      if s == fill.symbol {
        SymbolAfterFill(products, positions, Of(history, s), fill, mark);
      } else {
        SymbolElsewhere(products, positions, Of(history, s), fill.symbol, marked, s);
        assert Of(history, s) + [] == Of(history, s);
      }
    }
    assert Fills(history + [fill]);
  }

  lemma SymbolElsewhere(products: map<string, ProductSpec>, positions: map<string, PositionState>,
                        fills: seq<FillState>, other: string, marked: PositionState, symbol: string)
    requires SymbolOk(products, positions, fills, symbol) && symbol != other
    ensures SymbolOk(products, positions[other := marked], fills, symbol)
  {
    hide PositionOk;
  }

  lemma SymbolAfterFill(products: map<string, ProductSpec>, positions: map<string, PositionState>,
                        fills: seq<FillState>, fill: FillState, mark: real)
    requires SymbolOk(products, positions, fills, fill.symbol) && fill.qty > 0
    ensures var spec := SpecOf(products, fill.symbol);
      var marked := Marked(AfterFill(PositionOf(positions, fill.symbol), fill, spec), mark, spec);
      SymbolOk(products, positions[fill.symbol := marked], fills + [fill], fill.symbol)
  {
    hide AfterFill, Marked, TickPnl;
    MarkedAfterFill(PositionOf(positions, fill.symbol), fills, fill, SpecOf(products, fill.symbol), mark);
    hide PositionOk;
  }

  lemma MarkedAfterFill(pos: PositionState, fills: seq<FillState>, fill: FillState, spec: ProductSpec, mark: real)
    requires Fills(fills) && fill.qty > 0 && SameCore(pos, AfterFills(FLAT, fills, spec))
    ensures Fills(fills + [fill]) && PositionOk(Marked(AfterFill(pos, fill, spec), mark, spec), fills + [fill], spec)
  {
    NextCore(pos, AfterFills(FLAT, fills, spec), fill, spec);
    AfterFillsAppend(FLAT, fills, [fill], spec);
    hide AfterFill, TickPnl;
    assert AfterFills(AfterFills(FLAT, fills, spec), [fill], spec)
      == AfterFill(AfterFills(FLAT, fills, spec), fill, spec);
  }

  ghost predicate ShowMarks(marks: map<string, real>, positions: map<string, PositionState>) {
    forall symbol :: symbol in marks && symbol in positions ==> positions[symbol].markPrice == marks[symbol]
  }

  class ExchangeServerState {
    const products: map<string, ProductSpec>
    var marks: map<string, real>
    var positions: map<string, PositionState>
    var fills: seq<FillState>
    ghost var history: seq<FillState>

    ghost predicate Consistent()
      reads this`positions, this`history
    {
      BooksOk(products, positions, history)
    }

    /** The list of fills keeps the latest ones, and a position shows the mark of its symbol. */
    ghost predicate Valid()
      reads this
    {
      Consistent() && Tagged(history) && fills == Last(history, FILL_CAPACITY) && ShowMarks(marks, positions)
    }

    constructor (specs: map<string, ProductSpec>)
      ensures Valid() && history == [] && products == specs && fresh(this)
    {
      products := specs;
      marks, positions, fills, history := map[], map[], [], [];
    }

    method UpdateMark(symbol: string, last: Option<real>, bid: Option<real>, ask: Option<real>)
      requires Valid()
      modifies this`marks, this`positions
      ensures Valid()
      ensures marks
        == if MarkOf(last, bid, ask).None? then old(marks) else old(marks)[symbol := MarkOf(last, bid, ask).value]
      ensures positions.Keys == old(positions.Keys)
      ensures forall s :: s in positions ==>
        positions[s] == if s == symbol && MarkOf(last, bid, ask).Some?
                        then Marked(old(positions[s]), MarkOf(last, bid, ask).value, SpecOf(products, s))
                        else old(positions[s])
    {
      var mark := MarkOf(last, bid, ask);
      if mark.None? { return; }
      marks := marks[symbol := mark.value];
      if symbol in positions {
        positions := positions[symbol := Marked(positions[symbol], mark.value, SpecOf(products, symbol))];
      }
    }

    method UpdatePosition(fill: FillState)
      requires Consistent() && fill.qty > 0
      modifies this`positions, this`history
      ensures Consistent() && history == old(history) + [fill]
      ensures fill.symbol in positions
      ensures SameCore(positions[fill.symbol],
        AfterFill(PositionOf(old(positions), fill.symbol), fill, SpecOf(products, fill.symbol)))
      ensures positions[fill.symbol].markPrice == if fill.symbol in marks then marks[fill.symbol] else fill.price
      ensures positions == old(positions)[fill.symbol := positions[fill.symbol]]
    {
      var symbol := fill.symbol;
      var spec := SpecOf(products, symbol);
      var pos := PositionOf(positions, symbol);
      var next := AfterFill(pos, fill, spec);
      var mark := if symbol in marks then marks[symbol] else fill.price;
      BooksAfterFill(products, positions, history, fill, mark);
      positions := positions[symbol := Marked(next, mark, spec)];
      history := history + [fill];
    }

    static lemma LastGrows(h: seq<FillState>, fill: FillState, n: nat)
      ensures var f := Last(h, n) + [fill]; Last(h + [fill], n) == if |f| > n then f[|f| - n..] else f
    {
    }

    method RecordFill(report: ExecutionReport)
      requires Valid() && report.fill > 0
      modifies this`positions, this`history, this`fills
      ensures Valid()
      ensures history == old(history) + [FillOf(report, SpecOf(products, report.symbol).tickSize)]
    {
      var fill := FillOf(report, SpecOf(products, report.symbol).tickSize);
      LastGrows(history, fill, FILL_CAPACITY);
      fills := fills + [fill];
      if |fills| > FILL_CAPACITY {
        fills := fills[|fills| - FILL_CAPACITY..];
      }
      UpdatePosition(fill);
    }

    /** Only reports that fill something count. */
    method ApplyBatch(batch: Batch)
      requires Valid()
      modifies this`positions, this`history, this`fills
      ensures Valid()
      ensures history == old(history) + Recorded(products, batch.reports)
    {
      var reports := batch.reports;
      for i := 0 to |reports|
        invariant Valid()
        invariant history == old(history) + Recorded(products, reports[..i])
      {
        assert reports[..i + 1][..i] == reports[..i];
        if reports[i].fill > 0 {
          RecordFill(reports[i]);
        }
      }
      assert reports[..|reports|] == reports;
    }

    /** Replaying saved fills into a fresh server: records that name no symbol or no quantity are skipped. */
    method LoadFills(saved: seq<FillState>)
      requires Consistent() && history == [] && fills == []
      modifies this`positions, this`history, this`fills
      ensures Consistent() && Tagged(history) && history == Loadable(saved) && fills == Loadable(saved)
      ensures old(ShowMarks(marks, positions)) ==> ShowMarks(marks, positions)
    {
      for i := 0 to |saved|
        invariant Consistent() && Tagged(history) && history == Loadable(saved[..i]) && fills == Loadable(saved[..i])
        invariant old(ShowMarks(marks, positions)) ==> ShowMarks(marks, positions)
      {
        assert saved[..i + 1][..i] == saved[..i];
        if saved[i].symbol != "" && saved[i].qty > 0 {
          var fill := Named(saved[i], |fills|);
          fills := fills + [fill];
          UpdatePosition(fill);
        }
      }
      assert saved[..|saved|] == saved;
    }
  }

  /** A saved fill that has lost its id gets one from its place. */
  function Named(fill: FillState, before: nat): FillState {
    if fill.tag.id == "" then fill.(tag := fill.tag.(id := "CERX-FILL-RESTORED-" + Decimal(before + 1))) else fill
  }

  function Loadable(saved: seq<FillState>): seq<FillState> {
    if saved == [] then []
    else
      var n := |saved| - 1;
      var before := Loadable(saved[..n]);
      before + if saved[n].symbol != "" && saved[n].qty > 0 then [Named(saved[n], |before|)] else []
  }

  /** Whatever is loaded names a symbol, a quantity and an id. */
  lemma {:induction false} LoadableIsComplete(saved: seq<FillState>)
    ensures forall f :: f in Loadable(saved) ==> f.symbol != "" && f.qty > 0 && f.tag.id != ""
  {
    if saved != [] {
      LoadableIsComplete(saved[..|saved| - 1]);
    }
  }

  /** A saved fill is loaded, named by its place among those loaded if need be; without symbol or quantity it is not. */
  lemma LoadedFill(saved: seq<FillState>, f: FillState)
    ensures var place := |Loadable(saved)| + 1;
      Loadable(saved + [f]) == Loadable(saved)
        + if f.symbol == "" || f.qty <= 0 then []
          else if f.tag.id != "" then [f]
          else [f.(tag := f.tag.(id := "CERX-FILL-RESTORED-" + Decimal(place)))]
  {
    var longer := saved + [f];
    assert longer[..|saved|] == saved && longer[|saved|] == f;
    hide Decimal;
  }

  lemma {:induction false} LoadableIsShorter(saved: seq<FillState>)
    ensures |Loadable(saved)| <= |saved|
  {
    if saved != [] {
      LoadableIsShorter(saved[..|saved| - 1]);
    }
  }

  /** Nothing is lost of the fills that a server records itself. */
  lemma {:induction false} LoadableIsAll(saved: seq<FillState>)
    requires Fills(saved) && forall i :: 0 <= i < |saved| ==> saved[i].symbol != "" && saved[i].tag.id != ""
    ensures Loadable(saved) == saved
  {
    if saved != [] {
      var n := |saved| - 1;
      assert saved[n].qty > 0;
      LoadableIsAll(saved[..n]);
      assert saved == saved[..n] + [saved[n]];
    }
  }

  lemma {:induction false} OfAppend(a: seq<FillState>, b: seq<FillState>, symbol: string)
    ensures Of(a + b, symbol) == Of(a, symbol) + Of(b, symbol)
  {
    if b == [] {
      assert a + b == a;
    } else {
      var n := |b| - 1;
      OfAppend(a, b[..n], symbol);
      assert (a + b)[..|a + b| - 1] == a + b[..n];
    }
  }

  /** Loading drops no fill of a named symbol. */
  lemma {:induction false} LoadableKeeps(saved: seq<FillState>, symbol: string)
    requires Fills(saved) && Tagged(saved) && symbol != ""
    ensures Of(Loadable(saved), symbol) == Of(saved, symbol)
  {
    if saved != [] {
      var n := |saved| - 1;
      assert saved[n].qty > 0 && saved[n].tag.id != "";
      LoadableKeeps(saved[..n], symbol);
      var before := Loadable(saved[..n]);
      assert before + [] == before && Of(before, symbol) + [] == Of(before, symbol);
      HistoryGrows(before, saved[n], symbol);
    }
  }

  /** What a server loses when it is restarted from the fills it kept: the fills that no longer fit. */
  ghost function Dropped(history: seq<FillState>, symbol: string): seq<FillState> {
    Of(history[..|history| - |Last(history, FILL_CAPACITY)|], symbol)
  }

  /**
    A server restarted from the fills that another one kept: its quantity is the
    old one less the net of the dropped fills, and its total at any mark is the
    old one less what the dropped fills have made at that mark. So the quantity
    survives if and only if the dropped fills net to zero, and the total at a
    mark if and only if they have made nothing at that mark.
   */
  lemma RestartedPosition(before: ExchangeServerState, after: ExchangeServerState, symbol: string, mark: real)
    requires before.Valid() && after.Consistent() && after.products == before.products
    requires after.history == Loadable(before.fills) && symbol != ""
    ensures var p, q := PositionOf(before.positions, symbol), PositionOf(after.positions, symbol);
      var dropped, spec := Dropped(before.history, symbol), SpecOf(before.products, symbol);
      && p.qty == q.qty + NetQuantity(dropped)
      && (p.qty == q.qty <==> NetQuantity(dropped) == 0)
      && (Positive(spec) ==>
            && TotalPnl(p, mark, spec) == TotalPnl(q, mark, spec) + Worth(spec, Moves(dropped, mark))
            && (TotalPnl(p, mark, spec) == TotalPnl(q, mark, spec) <==> Moves(dropped, mark) == 0.0))
      && (|before.history| <= FILL_CAPACITY ==> SameCore(p, q))
  {
    var h, kept := before.history, before.fills;
    var spec := SpecOf(before.products, symbol);
    var front := h[..|h| - |kept|];
    assert h == front + kept;
    LoadableKeeps(kept, symbol);
    OfAppend(front, kept, symbol);
    PositionIs(before.products, before.positions, h, symbol);
    PositionIs(after.products, after.positions, after.history, symbol);
    hide *;
    RestartedAccount(Of(front, symbol), Of(kept, symbol), PositionOf(before.positions, symbol),
                     PositionOf(after.positions, symbol), spec, mark);
    DroppedIs(h, symbol);
  }

  lemma DroppedIs(h: seq<FillState>, symbol: string)
    ensures var kept := Last(h, FILL_CAPACITY); |kept| <= |h| && Dropped(h, symbol) == Of(h[..|h| - |kept|], symbol)
    ensures |h| <= FILL_CAPACITY ==> Dropped(h, symbol) == []
  {
  }

  lemma PositionIs(products: map<string, ProductSpec>, positions: map<string, PositionState>, history: seq<FillState>,
                   symbol: string)
    requires BooksOk(products, positions, history)
    ensures Fills(Of(history, symbol))
    ensures SameCore(PositionOf(positions, symbol), AfterFills(FLAT, Of(history, symbol), SpecOf(products, symbol)))
  {
    hide AfterFill, TickPnl;
    assert Fills(Of(history, symbol));
  }

  /** The same on one symbol's fills: `dropped` came before `kept`. */
  lemma RestartedAccount(dropped: seq<FillState>, kept: seq<FillState>, p: PositionState, q: PositionState,
                         spec: ProductSpec, mark: real)
    requires Fills(dropped + kept) && Fills(kept)
    requires SameCore(p, AfterFills(FLAT, dropped + kept, spec)) && SameCore(q, AfterFills(FLAT, kept, spec))
    ensures p.qty == q.qty + NetQuantity(dropped)
    ensures Positive(spec) ==> TotalPnl(p, mark, spec) == TotalPnl(q, mark, spec) + Worth(spec, Moves(dropped, mark))
    ensures Positive(spec) ==> (Worth(spec, Moves(dropped, mark)) == 0.0 <==> Moves(dropped, mark) == 0.0)
    ensures dropped == [] ==> SameCore(p, q)
  {
    hide AfterFill, TickPnl, Worth, Gain, Moves, NetQuantity;
    FillsNet(FLAT, dropped + kept, spec);
    FillsNet(FLAT, kept, spec);
    NetAppend(dropped, kept);
    if Positive(spec) {
      CashFlowIdentity(FLAT, dropped + kept, spec, mark);
      CashFlowIdentity(FLAT, kept, spec, mark);
      MovesAppend(dropped, kept, mark);
      WorthAdds(spec, Moves(dropped, mark), Moves(kept, mark));
      WorthIsZero(spec, Moves(dropped, mark));
    }
    if dropped == [] {
      assert dropped + kept == kept;
    }
  }

  lemma WorthIsZero(spec: ProductSpec, points: real)
    requires Positive(spec)
    ensures Worth(spec, points) == 0.0 <==> points == 0.0
  {
    var value := spec.tickValue / spec.tickSize;
    assert value > 0.0;
    var size := if points < 0.0 then -points else points;
    assert value * size == Worth(spec, points) || value * size == -Worth(spec, points);
    assert size > 0.0 ==> value * size > 0.0;
  }

  /** A restart: the new server loads what the old one kept. */
  method Restart(before: ExchangeServerState) returns (after: ExchangeServerState)
    requires before.Valid()
    ensures fresh(after) && after.Valid() && after.products == before.products
    ensures after.history == Loadable(before.fills) == after.fills
    ensures (forall i :: 0 <= i < |before.fills| ==> before.fills[i].symbol != "") ==> after.fills == before.fills
    ensures forall symbol :: symbol != "" ==>
      (PositionOf(after.positions, symbol).qty == PositionOf(before.positions, symbol).qty
       <==> NetQuantity(Dropped(before.history, symbol)) == 0)
  {
    after := new ExchangeServerState(before.products);
    after.LoadFills(before.fills);
    LoadableIsShorter(before.fills);
    assert Fills(before.fills) && Tagged(before.fills);
    if forall i :: 0 <= i < |before.fills| ==> before.fills[i].symbol != "" {
      LoadableIsAll(before.fills);
    }
    forall symbol | symbol != ""
      ensures PositionOf(after.positions, symbol).qty == PositionOf(before.positions, symbol).qty
              <==> NetQuantity(Dropped(before.history, symbol)) == 0
    {
      RestartedPosition(before, after, symbol, 0.0);
    }
  }

  // ---------- a history that a restart does not bring back ----------

  function Buys(n: nat, spec: ProductSpec): (fills: seq<FillState>)
    ensures |fills| == n && Fills(fills) && Tagged(fills)
    ensures forall i :: 0 <= i < n ==> fills[i].symbol == "ES" && fills[i].side.Buy? && fills[i].qty == 1
  {
    seq(n, i requires 0 <= i < n => FillState("ES", Buy, 1, spec.tickSize,
                                              FillTag("CERX-FILL-" + Decimal(i + 1), "B", i + 1, "")))
  }

  lemma {:induction false} BuysAre(fills: seq<FillState>)
    requires forall i :: 0 <= i < |fills| ==> fills[i].symbol == "ES" && fills[i].side.Buy? && fills[i].qty == 1
    ensures Of(fills, "ES") == fills && NetQuantity(fills) == |fills|
  {
    hide Signed;
    if fills != [] {
      var n := |fills| - 1;
      BuysAre(fills[..n]);
      assert fills == fills[..n] + [fills[n]];
      NetAppend(fills[..n], [fills[n]]);
      OneBuy(fills[n]);
      hide NetQuantity;
    }
  }

  lemma OneBuy(fill: FillState)
    requires fill.side.Buy? && fill.qty == 1
    ensures NetQuantity([fill]) == 1
  {
  }

  /** One buy too many: the server holds 5001 contracts, the one restarted from its fills 5000. */
  lemma OneFillTooMany(spec: ProductSpec)
    ensures var h := Buys(FILL_CAPACITY + 1, spec);
      && NetQuantity(Dropped(h, "ES")) == 1
      && AfterFills(FLAT, h, spec).qty == 5001 && AfterFills(FLAT, Last(h, FILL_CAPACITY), spec).qty == 5000
  {
    hide Of, NetQuantity, AfterFills, Dropped;
    var h := Buys(FILL_CAPACITY + 1, spec);
    var kept := Last(h, FILL_CAPACITY);
    DroppedIs(h, "ES");
    BuysAre(h);
    BuysAre(kept);
    BuysAre(h[..1]);
    FillsNet(FLAT, h, spec);
    FillsNet(FLAT, kept, spec);
  }

  lemma {:induction false} FillsNet(pos: PositionState, fills: seq<FillState>, spec: ProductSpec)
    requires Fills(fills)
    ensures AfterFills(pos, fills, spec).qty == pos.qty + NetQuantity(fills)
    decreases |fills|
  {
    if fills != [] {
      assert fills[0].qty > 0;
      FillQuantities(pos, fills[0], spec);
      FillsNet(AfterFill(pos, fills[0], spec), fills[1..], spec);
    }
  }

  lemma {:induction false} NetAppend(a: seq<FillState>, b: seq<FillState>)
    ensures NetQuantity(a + b) == NetQuantity(a) + NetQuantity(b)
  {
    if a == [] {
      assert a + b == b;
    } else {
      NetAppend(a[1..], b);
      assert (a + b)[1..] == a[1..] + b;
    }
  }
}
