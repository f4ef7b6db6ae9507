/**
  Reports carry the exchange's sequence: over any run they are numbered in
  increasing order, so no two reports share a number.
 */
module Numbering {
  import opened Orders
  import opened BookSpec
  import opened BookInvariant
  import opened Runs

  predicate Earlier(a: ExecutionReport, b: ExecutionReport) {
    a.sequence < b.sequence
  }

  predicate Within(r: ExecutionReport, lo: nat, hi: nat) {
    lo < r.sequence <= hi
  }

  /** Numbers rise from report to report, above `lo` and up to `hi`. */
  ghost predicate Numbered(reports: seq<ExecutionReport>, lo: nat, hi: nat) {
    && lo <= hi
    && (forall i :: 0 <= i < |reports| ==> Within(reports[i], lo, hi))
    && (forall i, j {:trigger Earlier(reports[i], reports[j])} :: 0 <= i < j < |reports| ==>
      Earlier(reports[i], reports[j]))
  }

  lemma NumberedAppend(a: seq<ExecutionReport>, b: seq<ExecutionReport>, lo: nat, mid: nat, hi: nat)
    requires Numbered(a, lo, mid) && Numbered(b, mid, hi)
    ensures Numbered(a + b, lo, hi)
  {
    var c := a + b;
    forall i | 0 <= i < |c|
      ensures Within(c[i], lo, hi)
    {
      if i < |a| { assert Within(a[i], lo, mid); } else { assert Within(b[i - |a|], mid, hi); }
    }
    forall i, j | 0 <= i < j < |c|
      ensures Earlier(c[i], c[j])
    {
      if j < |a| {
        assert Earlier(a[i], a[j]);
      } else if i >= |a| {
        assert Earlier(b[i - |a|], b[j - |a|]);
      } else {
        assert Within(a[i], lo, mid) && Within(b[j - |a|], mid, hi);
      }
    }
  }

  lemma NumberedSnoc(a: seq<ExecutionReport>, r: ExecutionReport, lo: nat, mid: nat)
    requires Numbered(a, lo, mid) && r.sequence == mid + 1
    ensures Numbered(a + [r], lo, mid + 1)
  {
    assert Numbered([r], mid, mid + 1);
    NumberedAppend(a, [r], lo, mid, mid + 1);
  }

  lemma NothingNumbered(lo: nat, hi: nat)
    requires lo <= hi
    ensures Numbered([], lo, hi)
  {
  }

  lemma {:induction false} MatchNumbered(m: Matching, time: nat, lo: nat)
    requires Tradable(m) && Numbered(m.batch.reports, lo, m.sequence)
    ensures Numbered(Matched(m, time).batch.reports, lo, Matched(m, time).sequence)
    decreases m.incoming.remaining
  {
    hide *;
    MatchUnfolds(m, time);
    if CanMatch(m) {
      var next := MatchStep(m, time);
      StepNumbers(m, time);
      var a, b := next.batch.reports[|m.batch.reports|], next.batch.reports[|m.batch.reports| + 1];
      NumberedSnoc(m.batch.reports, a, lo, m.sequence);
      NumberedSnoc(m.batch.reports + [a], b, lo, m.sequence + 1);
      assert m.batch.reports + [a] + [b] == next.batch.reports;
      MatchNumbered(next, time, lo);
    }
  }

  /** A step adds two reports with the next two numbers. */
  lemma StepNumbers(m: Matching, time: nat)
    requires CanMatch(m) && Tradable(m)
    ensures var n, old_reports, reports := |m.batch.reports|, m.batch.reports, MatchStep(m, time).batch.reports;
      && |reports| == n + 2 && reports[..n] == old_reports
      && reports[n].sequence == m.sequence + 1 && reports[n + 1].sequence == m.sequence + 2
      && MatchStep(m, time).sequence == m.sequence + 2
    ensures Tradable(MatchStep(m, time)) && MatchStep(m, time).incoming.remaining < m.incoming.remaining
    ensures m.incoming.remaining > 0
  {
    StepReports(m, time);
    MatchStepShape(m, time);
  }

  lemma SubmitNumbered(s: State, c: OrderCommand, now: Clock)
    requires Sound(s)
    ensures Numbered(Submit(s, c, now).batch.reports, s.sequence, Submit(s, c, now).state.sequence)
  {
    var time := EffectiveTime(c.time, now);
    NothingNumbered(s.sequence, s.sequence);
    match Refusal(s, c)
    case Some(reason) =>
      NumberedSnoc([], RejectReport(c, reason, time, s.sequence + 1), s.sequence, s.sequence);
    case None =>
      var m := StartMatch(s, c, now);
      NothingNumbered(s.sequence, s.sequence + 1);
      NumberedSnoc([], ReportFor(m.incoming, Accepted, 0, 0, "accepted", time, s.sequence + 2), s.sequence,
                   s.sequence + 1);
      MatchNumbered(m, time, s.sequence);
      MatchKeepsOrder(m, time);
      RemainderNumbered(AfterMatch(s, c, Matched(m, time)), Matched(m, time), time, s.sequence);
  }

  lemma RemainderNumbered(s: State, m: Matching, time: nat, lo: nat)
    requires m.incoming.symbol in s.books && Priced(m.incoming)
    requires s.sequence == m.sequence && Numbered(m.batch.reports, lo, m.sequence)
    ensures Numbered(Remainder(s, m, time).batch.reports, lo, Remainder(s, m, time).state.sequence)
  {
    hide Numbered;
    var o := m.incoming;
    if o.remaining > 0 && o.kind.Limit? && !o.tif.Ioc? {
      NumberedSnoc(m.batch.reports, ReportFor(o, Resting, 0, 0, "resting", time, s.sequence + 1), lo, m.sequence);
    } else if o.remaining > 0 {
      NumberedSnoc(m.batch.reports,
        ReportFor(o, Canceled, 0, 0, "unfilled_ioc_or_market_remainder", time, s.sequence + 1), lo, m.sequence);
    }
  }

  lemma {:induction false} SweepNumbered(w: Sweeping, symbol: string, d: Side, tick: MarketDataTick, time: nat, lo: nat)
    requires LiveSide(w.resting) && Numbered(w.batch.reports, lo, w.sequence)
    ensures var r := Sweep(w, symbol, d, tick, time); Numbered(r.batch.reports, lo, r.sequence)
    decreases |w.resting|
  {
    hide Numbered;
    if w.resting != [] && Triggered(d, tick, w.resting[0].price) {
      var head := w.resting[0];
      NumberedSnoc(w.batch.reports,
        FillReport(head.(remaining := 0), "MARKET_DATA", head.remaining, head.price, time, w.sequence + 1), lo,
          w.sequence);
      SweepNumbered(SweepStep(w, symbol, d, time), symbol, d, tick, time, lo);
    }
  }

  lemma TickNumbered(s: State, tick: MarketDataTick, now: Clock)
    requires Sound(s)
    ensures Numbered(ApplyTick(s, tick, now).batch.reports, s.sequence, ApplyTick(s, tick, now).state.sequence)
  {
    NothingNumbered(s.sequence, s.sequence);
    hide Numbered;
    if tick.symbol in s.books {
      var time, b := EffectiveTime(tick.time, now), s.books[tick.symbol];
      var w := Sweeping(b.asks, s.registry, s.sequence, EMPTY);
      SweepNumbered(w, tick.symbol, Sell, tick, time, s.sequence);
      var asks := Sweep(w, tick.symbol, Sell, tick, time);
      SweepNumbered(Sweeping(b.bids, asks.registry, asks.sequence, asks.batch), tick.symbol, Buy, tick, time,
                    s.sequence);
    }
  }

  lemma ReplaceNumbered(s: State, c: ReplaceCommand, now: Clock)
    requires Sound(s) && Locatable(s)
    ensures Numbered(Replace(s, c, now).batch.reports, s.sequence, Replace(s, c, now).state.sequence)
  {
    hide *;
    NothingNumbered(s.sequence, s.sequence);
    var r, t, again;
    if c.id in s.registry {
      r, t, again := ReplaceParts(s, c, now);
      NumberedSnoc([], r, s.sequence, s.sequence);
      SubmitNumbered(t, again, now);
      NumberedAppend([] + [r], Submit(t, again, now).batch.reports, s.sequence, s.sequence + 1,
                     Submit(t, again, now).state.sequence);
      assert [] + [r] + Submit(t, again, now).batch.reports == [r] + Submit(t, again, now).batch.reports;
    } else {
      r := ReplaceMissing(s, c, now);
      NumberedSnoc([], r, s.sequence, s.sequence);
      assert [] + [r] == [r];
    }
  }

  lemma ReplaceMissing(s: State, c: ReplaceCommand, now: Clock) returns (r: ExecutionReport)
    requires Sound(s) && Locatable(s) && c.id !in s.registry
    ensures r.sequence == s.sequence + 1 == Replace(s, c, now).state.sequence
    ensures Replace(s, c, now).batch.reports == [r]
  {
    r := NotFoundReport(c.id, EffectiveTime(c.time, now), s.sequence + 1);
  }

  /** A replace of a registered order: one report, and then what the submit reports. */
  lemma ReplaceParts(s: State, c: ReplaceCommand, now: Clock)
    returns (r: ExecutionReport, t: State, again: OrderCommand)
    requires Sound(s) && Locatable(s) && c.id in s.registry
    ensures r.sequence == s.sequence + 1 && t.sequence == s.sequence + 1 && Sound(t)
    ensures Replace(s, c, now).batch.reports == [r] + Submit(t, again, now).batch.reports
    ensures Replace(s, c, now).state == Submit(t, again, now).state
  {
    hide Submit, Without, DeltaFor, LevelCount, Find, HasId, LiveSide;
    var time := EffectiveTime(c.time, now);
    var o := Located(s, c.id);
    FindIsMember(s.books[s.registry[c.id].symbol].Orders(s.registry[c.id].side), c.id);
    OrdersArePriced(s, s.registry[c.id].symbol, s.registry[c.id].side);
    RemoveKeepsSound(s, c.id, time);
    r := ReportFor(o, Replaced, 0, 0, "cancel_replace", time, s.sequence + 1);
    t := Remove(s, c.id, time).state.(sequence := s.sequence + 1);
    again := ReplacementOf(o, c, time);
  }

  lemma OrdersArePriced(s: State, symbol: string, d: Side)
    requires Sound(s) && symbol in s.books
    ensures forall o :: o in s.books[symbol].Orders(d) ==> Priced(o)
  {
  }

  /** Every command numbers its reports upwards from the old sequence to the new one. */
  lemma StepNumbered(s: State, input: Input)
    requires WellFormed(s)
    ensures Numbered(Next(s, input).batch.reports, s.sequence, Next(s, input).state.sequence)
  {
    WellFormedIsSound(s);
    NothingNumbered(s.sequence, s.sequence);
    match input.command
    case SubmitOrder(c) => SubmitNumbered(s, c, input.now);
    case CancelOrder(c) => CancelNumbered(s, c, input.now);
    case ReplaceOrder(c) => ReplaceNumbered(s, c, input.now);
    case MarketData(t) => TickNumbered(s, t, input.now);
    case ResetBooks => NothingNumbered(s.sequence, s.sequence + 1);
  }

  lemma CancelNumbered(s: State, c: CancelCommand, now: Clock)
    requires Sound(s) && Locatable(s)
    ensures Numbered(Cancel(s, c, now).batch.reports, s.sequence, Cancel(s, c, now).state.sequence)
  {
    var r := Cancel(s, c, now);
    NothingNumbered(s.sequence, s.sequence);
    assert |r.batch.reports| == 1 && r.batch.reports == [] + [r.batch.reports[0]];
    NumberedSnoc([], r.batch.reports[0], s.sequence, s.sequence);
  }

  lemma {:induction false} RunNumbered(s: State, inputs: seq<Input>)
    requires WellFormed(s)
    ensures Numbered(Run(s, inputs).batch.reports, s.sequence, Run(s, inputs).state.sequence)
    decreases |inputs|
  {
    hide Numbered, WellFormed;
    if inputs == [] {
      NothingNumbered(s.sequence, s.sequence);
    } else {
      var o := Next(s, inputs[0]);
      StepNumbered(s, inputs[0]);
      RunNumbered(o.state, inputs[1..]);
      NumberedAppend(o.batch.reports, Run(o.state, inputs[1..]).batch.reports, s.sequence, o.state.sequence,
                     Run(o.state, inputs[1..]).state.sequence);
    }
  }
}
