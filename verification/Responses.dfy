/**
  What the exchange prints of its reports, as the gateway's covering desk
  reads it. A fill is printed twice in every response, once as a report and
  once as a fill of the event packet, in two different forms; both count as
  one.
 */
module Responses {
  import opened Orders
  import opened Numbers
  import opened Covers
  import L = ReportLog
  import N = Numbering

  // What the desk takes from an order's metadata.
  datatype Tags = Tags(source: string, role: string, coverTicks: real, tickSize: real, detail: string)

  /** How prices and metadata are printed: as numbers and as text, by symbol and ticks. */
  datatype Wire = Wire(price: (string, int) -> real, priceText: (string, int) -> string, tags: string -> Tags)

  /** The text of a number has no bar in it. */
  ghost predicate NoBars(w: Wire) {
    forall symbol, ticks :: '|' !in w.priceText(symbol, ticks)
  }

  function StatusText(status: ExecStatus): string {
    match status
    case Accepted => "accepted"
    case Resting => "working"
    case PartialFill => "partial"
    case Filled => "filled"
    case Canceled => "cancelled"
    case Rejected => "rejected"
    case Replaced => "replaced"
  }

  function SideText(d: Side): string {
    if d.Buy? then "buy" else "sell"
  }

  /** An object of the list of reports: no timestamp, no size and no display side. */
  function ReportEvent(w: Wire, r: ExecutionReport): FillEvent {
    var t := w.tags(r.metadata);
    FillEvent(r.id, StatusText(r.status), r.fill as real, None, Decimal(r.time), Decimal(r.sequence),
              w.priceText(r.symbol, r.execution), Decimal(r.fill), t.role, t.source, Some(r.symbol), t.detail,
              Some(w.price(r.symbol, r.execution)), "", SideText(r.side), None, None, t.coverTicks, t.tickSize)
  }

  /** An object of the packet's fills: the size and the display side are there, names of the algo are not. */
  function PacketFill(w: Wire, r: ExecutionReport): FillEvent {
    ReportEvent(w, r).(detail := "", size := Some(r.fill as real), displaySide := if r.side.Buy? then "BUY" else "SELL")
  }

  /** An object of the packet's orders: nothing that reads as a filled quantity, and no tags. */
  function PacketOrder(w: Wire, r: ExecutionReport): FillEvent {
    FillEvent(r.id, StatusText(r.status), 0.0, None, Decimal(r.time), Decimal(r.sequence),
              if r.limit.Ticks? then w.priceText(r.symbol, r.limit.ticks) else "nan", "0", "", "", Some(r.symbol), "",
              if r.limit.Ticks? then Some(w.price(r.symbol, r.limit.ticks)) else None, "", SideText(r.side),
              Some((r.fill + r.remaining) as real), None, 0.0, 0.0)
  }

  function Reports(w: Wire, reports: seq<ExecutionReport>): seq<FillEvent> {
    seq(|reports|, i requires 0 <= i < |reports| => ReportEvent(w, reports[i]))
  }

  /** The packet's list of one kind: reports that fill something, or those that do not. */
  function Packet(w: Wire, reports: seq<ExecutionReport>, filled: bool): seq<FillEvent> {
    if reports == [] then []
    else
      var n := |reports| - 1;
      var rest := Packet(w, reports[..n], filled);
      if (reports[n].fill > 0) != filled then rest
      else rest + [if filled then PacketFill(w, reports[n]) else PacketOrder(w, reports[n])]
  }

  /** The objects of one response that carry an order id, in the order they are printed. */
  function ResponseEvents(w: Wire, reports: seq<ExecutionReport>): seq<FillEvent> {
    Reports(w, reports) + Packet(w, reports, false) + Packet(w, reports, true)
  }

  /** e is one of the ways r is printed. */
  predicate Prints(w: Wire, r: ExecutionReport, e: FillEvent) {
    e == ReportEvent(w, r) || (r.fill > 0 && e == PacketFill(w, r)) || (r.fill <= 0 && e == PacketOrder(w, r))
  }

  predicate Fillish(r: ExecutionReport) {
    r.status.PartialFill? || r.status.Filled?
  }

  /** Of a report that fills something, both printed forms are read as the same fill. */
  lemma PrintedTwice(w: Wire, r: ExecutionReport, e: FillEvent)
    requires Prints(w, r, e) && Reported(e)
    ensures r.fill > 0 && Fillish(r) && Key(e) == Key(ReportEvent(w, r)) && Size(e) == r.fill
    ensures forall now, then_, id :: Agree(Fill(e, now), Fill(ReportEvent(w, r), then_), id)
    ensures forall now, id :: EntryFill(Fill(e, now), id) <==> r.id == id && IsEntry(ReportEvent(w, r))
  {
    RoundedWhole(r.fill);
    hide Rounded;
  }

  lemma FillsAreReported(w: Wire, r: ExecutionReport)
    requires r.fill > 0 && Fillish(r) && r.id != ""
    ensures Reported(ReportEvent(w, r)) && Prints(w, r, ReportEvent(w, r)) && Prints(w, r, PacketFill(w, r))
  {
  }

  // ---------- a key names one report ----------

  /** What follows the last bar. */
  function AfterBar(s: string): string {
    if s == "" || s[|s| - 1] == '|' then "" else AfterBar(s[..|s| - 1]) + [s[|s| - 1]]
  }

  lemma {:induction false} AfterBarIs(x: string, u: string)
    requires '|' !in u
    ensures AfterBar(x + "|" + u) == u
  {
    var s := x + "|" + u;
    if u != "" {
      var n := |u| - 1;
      AfterBarIs(x, u[..n]);
      assert s[..|s| - 1] == x + "|" + u[..n] && s[|s| - 1] == u[n];
    }
  }

  lemma LastBar(x: string, u: string, y: string, v: string)
    requires x + "|" + u == y + "|" + v && '|' !in u && '|' !in v
    ensures x == y && u == v
  {
    AfterBarIs(x, u);
    AfterBarIs(y, v);
    var s := x + "|" + u;
    assert s[..|x|] == x && s[..|y|] == y;
  }

  /** The five parts of a key, of which only the id may hold bars, are determined by it. */
  lemma KeyParts(e: FillEvent, f: FillEvent)
    requires Key(e) == Key(f)
    requires '|' !in TimeOf(e) && '|' !in e.sequence && '|' !in e.priceText && '|' !in e.quantityText
    requires '|' !in TimeOf(f) && '|' !in f.sequence && '|' !in f.priceText && '|' !in f.quantityText
    ensures e.id == f.id && TimeOf(e) == TimeOf(f) && e.sequence == f.sequence
  {
    hide TimeOf;
    var e1, f1 := e.id + "|" + TimeOf(e), f.id + "|" + TimeOf(f);
    var e2, f2 := e1 + "|" + e.sequence, f1 + "|" + f.sequence;
    var e3, f3 := e2 + "|" + e.priceText, f2 + "|" + f.priceText;
    assert Key(e) == e3 + "|" + e.quantityText && Key(f) == f3 + "|" + f.quantityText;
    hide Key;
    LastBar(e3, e.quantityText, f3, f.quantityText);
    LastBar(e2, e.priceText, f2, f.priceText);
    LastBar(e1, e.sequence, f1, f.sequence);
    LastBar(e.id, TimeOf(e), f.id, TimeOf(f));
  }

  lemma DecimalHasNoBar(n: int)
    ensures '|' !in Decimal(n)
  {
    DigitsDenote(if n < 0 then -n else n);
    hide Digits, Value;
  }

  lemma KeyNamesReport(w: Wire, r: ExecutionReport, q: ExecutionReport)
    requires NoBars(w) && Key(ReportEvent(w, r)) == Key(ReportEvent(w, q))
    ensures r.id == q.id && r.sequence == q.sequence
  {
    hide Key, Decimal;
    DecimalHasNoBar(r.time);
    DecimalHasNoBar(q.time);
    DecimalHasNoBar(r.sequence);
    DecimalHasNoBar(q.sequence);
    DecimalHasNoBar(r.fill);
    DecimalHasNoBar(q.fill);
    KeyParts(ReportEvent(w, r), ReportEvent(w, q));
    DecimalIsDigits(r.sequence);
    DecimalIsDigits(q.sequence);
  }

  // ---------- histories made of responses ----------

  /** Every fill event of the history is printed from a report of the log. */
  ghost predicate PrintedFrom(w: Wire, log: seq<ExecutionReport>, steps: seq<Step>) {
    forall s {:trigger s in steps} :: s in steps && s.Fill? ==> IsPrint(w, log, s.event)
  }

  ghost predicate IsPrint(w: Wire, log: seq<ExecutionReport>, e: FillEvent) {
    exists i :: 0 <= i < |log| && Prints(w, log[i], e)
  }

  ghost predicate Numbered(log: seq<ExecutionReport>) {
    forall i, j {:trigger N.Earlier(log[i], log[j])} :: 0 <= i < j < |log| ==> N.Earlier(log[i], log[j])
  }

  /** Whatever is printed of a numbered log, and however often: reports under one key agree. */
  lemma ResponsesAgree(w: Wire, log: seq<ExecutionReport>, steps: seq<Step>, id: string)
    requires NoBars(w) && Numbered(log) && PrintedFrom(w, log, steps)
    ensures KeysAgree(steps, id)
  {
    hide Key, Reported, Agree, Prints, ReportEvent;
    forall s, t | s in steps && t in steps && s.Fill? && t.Fill? && Reported(s.event) && Reported(t.event)
      && SameKey(s.event, t.event)
      ensures Agree(s, t, id)
    {
      assert IsPrint(w, log, s.event) && IsPrint(w, log, t.event);
      var i :| 0 <= i < |log| && Prints(w, log[i], s.event);
      var j :| 0 <= j < |log| && Prints(w, log[j], t.event);
      PrintedTwice(w, log[i], s.event);
      PrintedTwice(w, log[j], t.event);
      KeyNamesReport(w, log[i], log[j]);
      SameNumber(log, i, j);
      AgreeThrough(s, t, Fill(ReportEvent(w, log[i]), 0), id);
    }
  }

  lemma SameNumber(log: seq<ExecutionReport>, i: nat, j: nat)
    requires Numbered(log) && i < |log| && j < |log| && log[i].sequence == log[j].sequence
    ensures i == j
  {
    assert i < j ==> N.Earlier(log[i], log[j]);
    assert j < i ==> N.Earlier(log[j], log[i]);
  }

  lemma AgreeThrough(s: Step, t: Step, m: Step, id: string)
    requires s.Fill? && t.Fill? && m.Fill? && Agree(s, m, id) && Agree(t, m, id)
    ensures Agree(s, t, id)
  {
    hide EntryFill, Size;
  }

  // ---------- covers of a log ----------

  /** One event per report: the history that tells every fill once. */
  function Told(w: Wire, log: seq<ExecutionReport>): seq<Step> {
    seq(|log|, i requires 0 <= i < |log| => Fill(ReportEvent(w, log[i]), 0))
  }

  /** The log's fills of an entry are really the entry's: tagged as such, and partial or full. */
  ghost predicate EntryLog(w: Wire, log: seq<ExecutionReport>, id: string) {
    forall i :: 0 <= i < |log| ==> OwnFill(w, log[i], id)
  }

  predicate OwnFill(w: Wire, r: ExecutionReport, id: string) {
    && r.fill >= 0
    && (r.fill > 0 ==> Fillish(r))
    && (r.id == id && r.fill > 0 ==> w.tags(r.metadata).source == "algo" && w.tags(r.metadata).role == "entry")
  }

  function LargestFill(log: seq<ExecutionReport>, id: string): int {
    if log == [] then 0
    else
      var n := |log| - 1;
      Max(LargestFill(log[..n], id), if log[n].id == id then log[n].fill else 0)
  }

  lemma FilledSnoc(log: seq<ExecutionReport>, r: ExecutionReport, id: string)
    ensures L.FilledQuantity(log + [r], id) == L.FilledQuantity(log, id) + (if r.id == id then r.fill else 0)
  {
    L.FilledAppend(log, [r], id);
    assert [r][1..] == [];
  }

  /** Told once each, the entry's fills are the log's. */
  lemma {:induction false} ToldFills(w: Wire, log: seq<ExecutionReport>, id: string)
    requires NoBars(w) && Numbered(log) && EntryLog(w, log, id) && id != ""
    ensures Total(EntryFills(Told(w, log), id)) == L.FilledQuantity(log, id)
    ensures Largest(EntryFills(Told(w, log), id)) == LargestFill(log, id)
  {
    if log != [] {
      var n := |log| - 1;
      var before, r := log[..n], log[n];
      assert log == before + [r];
      assert Init(Told(w, log)) == Told(w, before) && Last(Told(w, log)) == Fill(ReportEvent(w, r), 0);
      FrontNumbered(log);
      assert OwnFill(w, r, id);
      ToldFills(w, before, id);
      FilledSnoc(before, r, id);
      FillsStep(Told(w, log), id);
      ToldLast(w, log, id);
      LargestNotNegative(before, id);
      hide Told, EntryFills, Total, Largest, L.FilledQuantity, EntryLog, ReportEvent, NoBars, KeysOf, EntryFill, Key,
        Size;
    }
  }

  lemma FrontNumbered(log: seq<ExecutionReport>)
    requires Numbered(log) && log != []
    ensures Numbered(log[..|log| - 1])
  {
    var front := log[..|log| - 1];
    forall i, j | 0 <= i < j < |front|
      ensures N.Earlier(front[i], front[j])
    {
      assert N.Earlier(log[i], log[j]);
    }
  }

  lemma {:induction false} LargestNotNegative(log: seq<ExecutionReport>, id: string)
    ensures LargestFill(log, id) >= 0
  {
    if log != [] {
      LargestNotNegative(log[..|log| - 1], id);
    }
  }

  /** The last report of a log counts for the entry exactly if it fills the entry, and its key is new. */
  lemma ToldLast(w: Wire, log: seq<ExecutionReport>, id: string)
    requires NoBars(w) && Numbered(log) && EntryLog(w, log, id) && id != "" && log != []
    ensures var n := |log| - 1; var e := ReportEvent(w, log[n]);
      && (EntryFill(Fill(e, 0), id) <==> log[n].id == id && log[n].fill > 0)
      && (EntryFill(Fill(e, 0), id) ==> Size(e) == log[n].fill && Key(e) !in KeysOf(Told(w, log[..n])))
  {
    var n := |log| - 1;
    var e := ReportEvent(w, log[n]);
    assert OwnFill(w, log[n], id);
    OwnFillIsRead(w, log[n], id);
    hide ReportEvent, Key, Reported, IsEntry, EntryFill, OwnFill, EntryLog, NoBars, Size;
    if EntryFill(Fill(e, 0), id) {
      KeyIsNew(w, log);
    }
  }

  lemma OwnFillIsRead(w: Wire, r: ExecutionReport, id: string)
    requires OwnFill(w, r, id) && id != ""
    ensures var e := ReportEvent(w, r);
      && (EntryFill(Fill(e, 0), id) <==> r.id == id && r.fill > 0)
      && (EntryFill(Fill(e, 0), id) ==> Size(e) == r.fill)
  {
    if r.id == id && r.fill > 0 {
      FillsAreReported(w, r);
      PrintedTwice(w, r, ReportEvent(w, r));
    }
  }

  lemma KeyIsNew(w: Wire, log: seq<ExecutionReport>)
    requires NoBars(w) && Numbered(log) && log != []
    ensures var n := |log| - 1; Key(ReportEvent(w, log[n])) !in KeysOf(Told(w, log[..n]))
  {
    var n := |log| - 1;
    var told, key := Told(w, log[..n]), Key(ReportEvent(w, log[n]));
    KeysOfAre(told, key);
    hide Key, Reported, KeysOf, NoBars, ReportEvent, Numbered;
    forall s | s in told
      ensures s.Fill? && Key(s.event) != key
    {
      var i :| 0 <= i < |told| && told[i] == s;
      assert s.event == ReportEvent(w, log[i]);
      if Key(s.event) == key {
        KeyNamesReport(w, log[i], log[n]);
        SameNumber(log, i, n);
      }
    }
  }

  /** The history holds every fill of the entry, in one form or another, at least once. */
  ghost predicate TellsAll(w: Wire, log: seq<ExecutionReport>, steps: seq<Step>, id: string) {
    forall i :: 0 <= i < |log| && log[i].id == id && log[i].fill > 0 ==> Tells(w, log[i], steps)
  }

  ghost predicate Tells(w: Wire, r: ExecutionReport, steps: seq<Step>) {
    exists k :: 0 <= k < |steps| && steps[k].Fill?
      && (steps[k].event == ReportEvent(w, r) || steps[k].event == PacketFill(w, r))
  }

  /**
    A desk that is told every fill of an entry, in whatever form, order and
    repetition, covers the lesser of the policy quantity and the log's filled
    quantity exactly if no fill is larger than the policy.
   */
  lemma LogIsCovered(w: Wire, log: seq<ExecutionReport>, steps: seq<Step>, id: string, quantity: int)
    requires NoBars(w) && Numbered(log) && EntryLog(w, log, id) && id != ""
    requires PrintedFrom(w, log, steps) && TellsAll(w, log, steps, id)
    requires quantity >= 1 && Governed(steps, id, quantity)
    ensures var covers := CoverQuantity(Handle(FRESH_DESK, steps).orders, id);
      && covers == Max(Min(quantity, L.FilledQuantity(log, id)), LargestFill(log, id))
      && (covers == Min(quantity, L.FilledQuantity(log, id)) <==> LargestFill(log, id) <= quantity)
  {
    var told := Told(w, log);
    ToldIsPrinted(w, log, steps);
    ResponsesAgree(w, log, steps + told, id);
    ToldHasTheKeys(w, log, steps, id);
    ToldFills(w, log, id);
    hide *;
    SameKeysSameTotal(steps, told, id);
    CoverTotal(steps, id, quantity);
    LargestAgainstPolicy(quantity, L.FilledQuantity(log, id), LargestFill(log, id));
  }

  lemma LargestAgainstPolicy(quantity: int, total: int, largest: int)
    requires quantity >= 1 && total >= largest >= 0
    ensures Max(Min(quantity, total), largest) == Min(quantity, total) <==> largest <= quantity
  {
  }

  lemma ToldIsPrinted(w: Wire, log: seq<ExecutionReport>, steps: seq<Step>)
    requires PrintedFrom(w, log, steps)
    ensures PrintedFrom(w, log, steps + Told(w, log))
  {
    hide ReportEvent;
    var told := Told(w, log);
    forall s | s in steps + told && s.Fill?
      ensures IsPrint(w, log, s.event)
    {
      if s !in steps {
        var i :| 0 <= i < |told| && told[i] == s;
        assert Prints(w, log[i], s.event);
      }
    }
  }

  lemma ToldHasTheKeys(w: Wire, log: seq<ExecutionReport>, steps: seq<Step>, id: string)
    requires PrintedFrom(w, log, steps) && TellsAll(w, log, steps, id) && EntryLog(w, log, id)
    ensures SameEntryKeys(steps, Told(w, log), id)
  {
    hide PrintedFrom, TellsAll, EntryLog, HasEntryKey, Told;
    forall key
      ensures HasEntryKey(steps, id, key) <==> HasEntryKey(Told(w, log), id, key)
    {
      if HasEntryKey(steps, id, key) { PrintedKeyIsTold(w, log, steps, id, key); }
      if HasEntryKey(Told(w, log), id, key) { ToldKeyIsPrinted(w, log, steps, id, key); }
    }
  }

  lemma PrintedKeyIsTold(w: Wire, log: seq<ExecutionReport>, steps: seq<Step>, id: string, key: string)
    requires PrintedFrom(w, log, steps) && HasEntryKey(steps, id, key)
    ensures HasEntryKey(Told(w, log), id, key)
  {
    hide ReportEvent, PacketFill, Key, Prints, Reported, IsEntry;
    var k :| 0 <= k < |steps| && EntryFill(steps[k], id) && Key(steps[k].event) == key;
    assert steps[k] in steps && IsPrint(w, log, steps[k].event);
    var i :| 0 <= i < |log| && Prints(w, log[i], steps[k].event);
    var told := Told(w, log);
    assert told[i].event == ReportEvent(w, log[i]);
    ToldToo(w, log[i], steps[k], told[i], id);
  }

  lemma ToldKeyIsPrinted(w: Wire, log: seq<ExecutionReport>, steps: seq<Step>, id: string, key: string)
    requires TellsAll(w, log, steps, id) && HasEntryKey(Told(w, log), id, key)
    ensures HasEntryKey(steps, id, key)
  {
    var told := Told(w, log);
    hide ReportEvent, PacketFill, Key, Reported, IsEntry;
    var i :| 0 <= i < |told| && EntryFill(told[i], id) && Key(told[i].event) == key;
    assert told[i].event == ReportEvent(w, log[i]);
    FillsOfEntry(w, log[i], told[i], id);
    assert Tells(w, log[i], steps);
    var k :| 0 <= k < |steps| && steps[k].Fill?
             && (steps[k].event == ReportEvent(w, log[i]) || steps[k].event == PacketFill(w, log[i]));
    ToldToo(w, log[i], told[i], steps[k], id);
  }

  lemma FillsOfEntry(w: Wire, r: ExecutionReport, s: Step, id: string)
    requires s.Fill? && s.event == ReportEvent(w, r) && EntryFill(s, id)
    ensures r.id == id && r.fill > 0
  {
    PrintedTwice(w, r, s.event);
  }

  /** If one print of a report is the entry's fill, so is the other, under the same key. */
  lemma ToldToo(w: Wire, r: ExecutionReport, s: Step, t: Step, id: string)
    requires s.Fill? && t.Fill? && Prints(w, r, s.event) && EntryFill(s, id)
    requires t.event == ReportEvent(w, r) || t.event == PacketFill(w, r)
    ensures EntryFill(t, id) && Key(t.event) == Key(s.event)
  {
    PrintedTwice(w, r, s.event);
    FillsAreReported(w, r);
    hide Key;
    assert Reported(t.event) && Prints(w, r, t.event) by {
      assert Reported(PacketFill(w, r)) == Reported(ReportEvent(w, r));
    }
    PrintedTwice(w, r, t.event);
  }
}
