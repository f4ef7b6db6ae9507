/**
  The gateway's cover orders: every fill of an algo entry is answered with an
  order on the other side, counted once however often the fill is reported.
 */
module Covers {
  import opened Orders
  import opened Numbers

  datatype AlgoOrder = AlgoOrder(id: string, source: string, role: string, market: string, detail: string,
                                 size: Option<real>, coverTicks: real, tickSize: real)

  datatype Policy = Policy(market: string, detail: string, quantity: int, coverTicks: real, tickSize: real)

  /**
    One object of a state or response document; absent texts are empty, absent
    numbers are None or zero. `stamp` is its own "timestamp", `time` the text
    that stands in for one.
   */
  datatype FillEvent = FillEvent(
    id: string, kind: string, quantity: real, stamp: Option<string>, time: string, sequence: string, priceText: string,
    quantityText: string,
    role: string, source: string, market: Option<string>, detail: string, price: Option<real>, displaySide: string,
    side: string, original: Option<real>, size: Option<real>, coverTicks: real, tickSize: real)

  datatype CoverOrder = CoverOrder(id: string, parent: string, market: string, side: string, price: real, quantity: int,
                                   detail: string, trigger: string)

  datatype Desk = Desk(policies: map<string, Policy>, processed: set<string>, covered: map<string, int>)

  const FRESH_DESK := Desk(map[], {}, map[])

  // ---------- reading one order or one event ----------

  /** Half away from zero. */
  function Rounded(x: real): int {
    if x >= 0.0 then (x + 0.5).Floor else -((-x + 0.5).Floor)
  }

  function AtLeastOne(x: real): (q: int)
    ensures q >= 1
  {
    Max(1, Rounded(x))
  }

  function OrElse(first: Option<real>, second: real): real {
    if first.Some? then first.value else second
  }

  predicate Remembered(o: AlgoOrder) {
    o.id != "" && o.source == "algo" && o.role == "entry" && o.coverTicks > 0.0 && o.tickSize > 0.0
  }

  function PolicyOf(o: AlgoOrder): (p: Policy)
    ensures p.quantity >= 1
  {
    Policy(o.market, o.detail, AtLeastOne(OrElse(o.size, 1.0)), o.coverTicks, o.tickSize)
  }

  predicate Reported(e: FillEvent) {
    e.id != "" && e.kind in {"filled", "partial", "partial_fill", "fill"} && e.quantity > 0.0
  }

  predicate IsEntry(e: FillEvent) {
    e.source == "algo" && e.role == "entry" && e.price.Some?
  }

  function TimeOf(e: FillEvent): string {
    if e.stamp.Some? then e.stamp.value else e.time
  }

  function Key(e: FillEvent): string {
    e.id + "|" + TimeOf(e) + "|" + e.sequence + "|" + e.priceText + "|" + e.quantityText
  }

  function Size(e: FillEvent): (q: int)
    ensures q >= 1
  {
    AtLeastOne(e.quantity)
  }

  predicate Usable(p: Policy) {
    p.coverTicks > 0.0 && p.tickSize > 0.0
  }

  function Recalled(policies: map<string, Policy>, id: string): Policy {
    if id in policies then policies[id] else Policy("", "", 0, 0.0, 0.0)
  }

  function MarketOf(e: FillEvent, recalled: Policy): string {
    if e.market.Some? then e.market.value else recalled.market
  }

  /** The remembered policy, or the one the event itself carries. */
  function Governing(policies: map<string, Policy>, e: FillEvent): Policy {
    var recalled := Recalled(policies, e.id);
    if Usable(recalled) then recalled
    else Policy(MarketOf(e, recalled), e.detail, AtLeastOne(OrElse(e.original, OrElse(e.size, Size(e) as real))),
                e.coverTicks, e.tickSize)
  }

  predicate EntryBuy(e: FillEvent) {
    e.displaySide == "BUY" || e.side in {"yes", "bid", "buy"}
  }

  function RoundToTick(price: real, tickSize: real): real
    requires tickSize > 0.0
  {
    Rounded(price / tickSize) as real * tickSize
  }

  function CoverPrice(buy: bool, price: real, p: Policy): real
    requires Usable(p)
  {
    RoundToTick(RawCover(buy, price, p.coverTicks, p.tickSize), p.tickSize)
  }

  function RawCover(buy: bool, price: real, ticks: real, tickSize: real): real {
    if buy then price + ticks * tickSize else price - ticks * tickSize
  }

  /** Parent and time; an event without its own timestamp gets the gateway's clock. */
  function CoverId(e: FillEvent, now: nat): string {
    e.id + "-COVER-" + (if e.stamp.Some? then e.stamp.value else Decimal(now))
  }

  function CoverFor(e: FillEvent, now: nat, market: string, p: Policy, quantity: int): CoverOrder
    requires e.price.Some? && Usable(p)
  {
    CoverOrder(CoverId(e, now), e.id, market, if EntryBuy(e) then "offer" else "bid",
               CoverPrice(EntryBuy(e), e.price.value, p), quantity, p.detail, "cover from fill " + e.id)
  }

  // ---------- the steps ----------

  // A fill is handled at a reading of the gateway's clock.
  datatype Step = Remember(order: AlgoOrder) | Fill(event: FillEvent, now: nat)

  datatype Handled = Handled(desk: Desk, orders: seq<CoverOrder>)

  function Covered(d: Desk, id: string): int {
    if id in d.covered then d.covered[id] else 0
  }

  function HandleFill(d: Desk, e: FillEvent, now: nat): Handled {
    if !Reported(e) || Key(e) in d.processed then Handled(d, [])
    else
      var seen := d.(processed := d.processed + {Key(e)});
      var p := Governing(d.policies, e);
      if !IsEntry(e) || !Usable(p) then Handled(seen, [])
      else
        var left := Max(p.quantity, Size(e)) - Covered(d, e.id);
        if left <= 0 then Handled(seen, [])
        else
          var quantity := Min(Size(e), left);
          Handled(seen.(covered := d.covered[e.id := Covered(d, e.id) + quantity]),
                  [CoverFor(e, now, MarketOf(e, Recalled(d.policies, e.id)), p, quantity)])
  }

  function HandleStep(d: Desk, s: Step): Handled {
    match s
    case Remember(o) => Handled(if Remembered(o) then d.(policies := d.policies[o.id := PolicyOf(o)]) else d, [])
    case Fill(e, now) => HandleFill(d, e, now)
  }

  function Handle(d: Desk, steps: seq<Step>): Handled {
    if steps == [] then Handled(d, [])
    else
      var before := Handle(d, Init(steps));
      var last := HandleStep(before.desk, Last(steps));
      Handled(last.desk, before.orders + last.orders)
  }

  function Init<T>(s: seq<T>): (r: seq<T>)
    requires s != []
    ensures |r| == |s| - 1
  {
    s[..|s| - 1]
  }

  function Last<T>(s: seq<T>): T
    requires s != []
  {
    s[|s| - 1]
  }

  function FillSteps(events: seq<FillEvent>, clock: seq<nat>): seq<Step>
    requires |events| == |clock|
  {
    seq(|events|, i requires 0 <= i < |events| => Fill(events[i], clock[i]))
  }

  class CoverDesk {
    var policies: map<string, Policy>
    var processed: set<string>
    var covered: map<string, int>

    ghost function State(): Desk
      reads this
    {
      Desk(policies, processed, covered)
    }

    constructor ()
      ensures State() == FRESH_DESK
    {
      policies, processed, covered := map[], {}, map[];
    }

    method ResetSession()
      modifies this
      ensures State() == FRESH_DESK
    {
      policies, processed, covered := map[], {}, map[];
    }

    method RememberAlgoCoverPolicy(o: AlgoOrder)
      modifies this
      ensures State() == HandleStep(old(State()), Remember(o)).desk
    {
      if o.id == "" { return; }
      if o.source != "algo" { return; }
      if o.role != "entry" { return; }
      if o.coverTicks <= 0.0 || o.tickSize <= 0.0 { return; }
      policies := policies[o.id := PolicyOf(o)];
    }

    /** The cover orders to send for one document; `clock` are the readings the loop takes. */
    method ProcessExchangeFillEvents(events: seq<FillEvent>, clock: seq<nat>) returns (orders: seq<CoverOrder>)
      requires |events| == |clock|
      modifies this
      ensures Handled(State(), orders) == Handle(old(State()), FillSteps(events, clock))
    {
      orders := [];
      for i := 0 to |events|
        invariant Handled(State(), orders) == Handle(old(State()), FillSteps(events[..i], clock[..i]))
      {
        assert Init(FillSteps(events[..i + 1], clock[..i + 1])) == FillSteps(events[..i], clock[..i]);
        assert Last(FillSteps(events[..i + 1], clock[..i + 1])) == Fill(events[i], clock[i]);
        var sent := ProcessFill(events[i], clock[i]);
        orders := orders + sent;
      }
      assert events[..|events|] == events && clock[..|events|] == clock;
    }

    method ProcessFill(e: FillEvent, now: nat) returns (orders: seq<CoverOrder>)
      modifies this
      ensures Handled(State(), orders) == HandleFill(old(State()), e, now)
    {
      hide CoverFor, MarketOf, Key;
      orders := [];
      if e.id == "" { return; }
      if e.kind !in {"filled", "partial", "partial_fill", "fill"} || e.quantity <= 0.0 { return; }
      if Key(e) in processed { return; }
      processed := processed + {Key(e)};
      if e.source != "algo" || e.role != "entry" { return; }
      if e.price == None { return; }
      var size := AtLeastOne(e.quantity);
      var policy := if e.id in policies then policies[e.id] else Policy("", "", 0, 0.0, 0.0);
      var market := MarketOf(e, policy);
      if policy.coverTicks <= 0.0 || policy.tickSize <= 0.0 {
        policy := Policy(market, e.detail, AtLeastOne(OrElse(e.original, OrElse(e.size, size as real))), e.coverTicks,
                         e.tickSize);
      }
      if policy.coverTicks <= 0.0 || policy.tickSize <= 0.0 { return; }
      var already := if e.id in covered then covered[e.id] else 0;
      var remaining := Max(policy.quantity, size) - already;
      if remaining <= 0 { return; }
      var quantity := Min(size, remaining);
      covered := covered[e.id := already + quantity];
      orders := [CoverFor(e, now, market, policy, quantity)];
    }
  }

  // ---------- what the history alone says ----------

  /** The keys reported so far, and the policies remembered so far. */
  function KeysOf(steps: seq<Step>): set<string> {
    if steps == [] then {}
    else if Last(steps).Fill? && Reported(Last(steps).event) then KeysOf(Init(steps)) + {Key(Last(steps).event)}
    else KeysOf(Init(steps))
  }

  function PoliciesOf(steps: seq<Step>): map<string, Policy> {
    if steps == [] then map[]
    else if Last(steps).Remember? && Remembered(Last(steps).order) then
      PoliciesOf(Init(steps))[Last(steps).order.id := PolicyOf(Last(steps).order)]
    else PoliciesOf(Init(steps))
  }

  predicate EntryFill(s: Step, id: string) {
    s.Fill? && s.event.id == id && Reported(s.event) && IsEntry(s.event)
  }

  /** The distinct fills of one entry: each reported key at its first appearance. */
  function EntryFills(steps: seq<Step>, id: string): seq<FillEvent> {
    if steps == [] then []
    else if EntryFill(Last(steps), id) && Key(Last(steps).event) !in KeysOf(Init(steps)) then
      EntryFills(Init(steps), id) + [Last(steps).event]
    else EntryFills(Init(steps), id)
  }

  function Total(fills: seq<FillEvent>): int {
    if fills == [] then 0 else Total(Init(fills)) + Size(Last(fills))
  }

  function Largest(fills: seq<FillEvent>): int {
    if fills == [] then 0 else Max(Largest(Init(fills)), Size(Last(fills)))
  }

  function CoverQuantity(orders: seq<CoverOrder>, id: string): int {
    if orders == [] then 0
    else CoverQuantity(Init(orders), id) + (if Last(orders).parent == id then Last(orders).quantity else 0)
  }

  /** Whenever a fill of this entry comes in, the policy that applies has this quantity. */
  predicate Governed(steps: seq<Step>, id: string, quantity: int) {
    steps == []
    || (Governed(Init(steps), id, quantity)
        && (EntryFill(Last(steps), id) ==>
              var p := Governing(PoliciesOf(Init(steps)), Last(steps).event);
              Usable(p) && p.quantity == quantity))
  }

  // ---------- covers are sent exactly once ----------

  lemma {:induction false} DeskFollowsHistory(steps: seq<Step>)
    ensures Handle(FRESH_DESK, steps).desk.processed == KeysOf(steps)
    ensures Handle(FRESH_DESK, steps).desk.policies == PoliciesOf(steps)
  {
    if steps != [] {
      DeskFollowsHistory(Init(steps));
      hide Key, Reported, IsEntry, Remembered, PolicyOf, Governing, Usable, CoverFor, Size;
      var d, s := Handle(FRESH_DESK, Init(steps)).desk, Last(steps);
      assert Handle(FRESH_DESK, steps).desk == HandleStep(d, s).desk;
      if s.Fill? && Reported(s.event) && Key(s.event) in d.processed {
        assert d.processed + {Key(s.event)} == d.processed;
      }
    }
  }

  lemma CoverQuantityAppend(orders: seq<CoverOrder>, more: seq<CoverOrder>, id: string)
    requires |more| <= 1
    ensures CoverQuantity(orders + more, id)
            == CoverQuantity(orders, id) + (if |more| == 1 && more[0].parent == id then more[0].quantity else 0)
  {
    if more == [] {
      assert orders + more == orders;
    } else {
      assert Init(orders + more) == orders && Last(orders + more) == more[0];
    }
  }

  /**
    Everything sent to cover an entry: its policy quantity or its distinct
    fills, whichever is less, but never less than its largest fill.
   */
  lemma {:induction false} CoverTotal(steps: seq<Step>, id: string, quantity: int)
    requires quantity >= 1 && Governed(steps, id, quantity)
    ensures var h := Handle(FRESH_DESK, steps); var fills := EntryFills(steps, id);
      CoverQuantity(h.orders, id) == Covered(h.desk, id) == Max(Min(quantity, Total(fills)), Largest(fills))
    ensures Total(EntryFills(steps, id)) >= Largest(EntryFills(steps, id)) >= 0
    decreases |steps|
  {
    hide *;
    if steps == [] {
      NothingCovered(id, quantity);
    } else {
      var before, s := Init(steps), Last(steps);
      GovernedNow(steps, id, quantity);
      CoverTotal(before, id, quantity);
      DeskFollowsHistory(before);
      HandleUnfolds(FRESH_DESK, steps);
      var h := Handle(FRESH_DESK, before);
      StepCovers(h.desk, s, id);
      CoverQuantityAppend(h.orders, HandleStep(h.desk, s).orders, id);
      FillsStep(steps, id);
      if EntryFill(s, id) && Key(s.event) !in KeysOf(before) {
        var fills := EntryFills(before, id);
        NextCovered(Covered(h.desk, id), quantity, Total(fills), Largest(fills), Size(s.event));
      }
    }
  }

  lemma NothingCovered(id: string, quantity: int)
    requires quantity >= 1
    ensures var h := Handle(FRESH_DESK, []); var fills := EntryFills([], id);
      && CoverQuantity(h.orders, id) == Covered(h.desk, id) == Max(Min(quantity, Total(fills)), Largest(fills))
      && Total(fills) == 0 == Largest(fills)
  {
  }

  lemma NextCovered(covered: int, quantity: int, total: int, largest: int, size: int)
    requires covered == Max(Min(quantity, total), largest) && total >= largest >= 0 && size >= 1 && quantity >= 1
    ensures (if covered >= Max(quantity, size) then covered else Min(covered + size, Max(quantity, size)))
            == Max(Min(quantity, total + size), Max(largest, size))
    ensures total + size >= Max(largest, size) >= 0
  {
  }

  lemma HandleUnfolds(d: Desk, steps: seq<Step>)
    requires steps != []
    ensures var before := Handle(d, Init(steps)); var last := HandleStep(before.desk, Last(steps));
      Handle(d, steps) == Handled(last.desk, before.orders + last.orders)
  {
    hide HandleStep;
  }

  lemma GovernedNow(steps: seq<Step>, id: string, quantity: int)
    requires steps != [] && Governed(steps, id, quantity)
    ensures Governed(Init(steps), id, quantity) && |Init(steps)| < |steps|
    ensures EntryFill(Last(steps), id) ==>
      var p := Governing(PoliciesOf(Init(steps)), Last(steps).event); Usable(p) && p.quantity == quantity
  {
  }

  /** One step: only a fresh entry fill under a usable policy covers anything, up to what that policy leaves. */
  lemma StepCovers(d: Desk, s: Step, id: string)
    ensures var last := HandleStep(d, s);
      && |last.orders| <= 1
      && Covered(last.desk, id) - Covered(d, id)
         == (if |last.orders| == 1 && last.orders[0].parent == id then last.orders[0].quantity else 0)
    ensures EntryFill(s, id) ==> s.Fill? && Size(s.event) >= 1
    ensures !EntryFill(s, id) || Key(s.event) in d.processed ==> Covered(HandleStep(d, s).desk, id) == Covered(d, id)
    ensures EntryFill(s, id) && Key(s.event) !in d.processed && Usable(Governing(d.policies, s.event)) ==>
      var most, size := Max(Governing(d.policies, s.event).quantity, Size(s.event)), Size(s.event);
      Covered(HandleStep(d, s).desk, id)
      == if Covered(d, id) >= most then Covered(d, id) else Min(Covered(d, id) + size, most)
  {
    hide Key, Governing, MarketOf, CoverPrice, Usable, Size, Remembered, PolicyOf;
    match s
    case Remember(o) =>
    case Fill(e, now) =>
  }

  lemma FillsStep(steps: seq<Step>, id: string)
    requires steps != []
    ensures var fills, before := EntryFills(steps, id), EntryFills(Init(steps), id);
      if EntryFill(Last(steps), id) && Key(Last(steps).event) !in KeysOf(Init(steps)) then
        var size := Size(Last(steps).event);
        Total(fills) == Total(before) + size && Largest(fills) == Max(Largest(before), size)
      else fills == before
  {
    hide Size, Key, EntryFill, KeysOf;
    var fills, before := EntryFills(steps, id), EntryFills(Init(steps), id);
    if fills != before {
      assert Init(fills) == before;
    }
  }

  /** The covers add up to the lesser of policy and fills exactly when no single fill exceeds the policy. */
  lemma CoveredExactlyOnce(steps: seq<Step>, id: string, quantity: int)
    requires quantity >= 1 && Governed(steps, id, quantity)
    ensures var fills := EntryFills(steps, id);
      CoverQuantity(Handle(FRESH_DESK, steps).orders, id) == Min(quantity, Total(fills))
      <==> forall f :: f in fills ==> Size(f) <= quantity
  {
    CoverTotal(steps, id, quantity);
    LargestBounds(EntryFills(steps, id), quantity);
  }

  lemma {:induction false} LargestBounds(fills: seq<FillEvent>, bound: int)
    requires bound >= 0
    ensures Largest(fills) <= bound <==> forall f :: f in fills ==> Size(f) <= bound
  {
    if fills != [] {
      LargestBounds(Init(fills), bound);
      assert fills == Init(fills) + [Last(fills)];
    }
  }

  /** A policy of one contract and a fill of two: two are covered. */
  lemma LargeFillOvershoots(now: nat) returns (steps: seq<Step>)
    ensures Governed(steps, "E1", 1) && Total(EntryFills(steps, "E1")) == 2
    ensures CoverQuantity(Handle(FRESH_DESK, steps).orders, "E1") == 2
  {
    var o := AlgoOrder("E1", "algo", "entry", "ES", "", Some(1.0), 4.0, 0.25);
    var e := FillEvent("E1", "filled", 2.0, None, "1", "3", "5000", "2", "entry", "algo", None, "", Some(5000.0), "BUY",
                       "buy", None, Some(2.0), 4.0, 0.25);
    var first := [Remember(o)];
    steps := [Remember(o), Fill(e, now)];
    assert Init(steps) == first && Init(first) == [];
    RoundedWhole(1);
    RoundedWhole(2);
    assert 1 as real == 1.0 && 2 as real == 2.0;
    assert EntryFill(Fill(e, now), "E1") && Size(e) == 2;
    assert PoliciesOf(first) == map["E1" := PolicyOf(o)] && PolicyOf(o).quantity == 1;
    assert KeysOf(first) == {};
    hide Key, Size, PolicyOf, CoverFor, Rounded;
    assert Governed(first, "E1", 1);
    assert EntryFills(first, "E1") == [] && EntryFills(steps, "E1") == [] + [e];
    assert Init([e]) == [];
    CoverTotal(steps, "E1", 1);
  }

  /** A policy remembered before the first fill, and not replaced, governs every fill. */
  lemma {:induction false} RememberedGoverns(before: seq<Step>, o: AlgoOrder, after: seq<Step>)
    requires Remembered(o)
    requires forall s :: s in before ==> !EntryFill(s, o.id)
    requires forall s :: s in after && s.Remember? && s.order.id == o.id ==> PolicyOf(s.order) == PolicyOf(o)
    ensures Governed(before + [Remember(o)] + after, o.id, PolicyOf(o).quantity)
    ensures o.id in PoliciesOf(before + [Remember(o)] + after)
      && PoliciesOf(before + [Remember(o)] + after)[o.id] == PolicyOf(o)
    decreases |after|
  {
    var steps := before + [Remember(o)] + after;
    if after == [] {
      assert Init(steps) == before && Last(steps) == Remember(o);
      NoFillsGoverned(before, o.id, PolicyOf(o).quantity);
    } else {
      assert Init(steps) == before + [Remember(o)] + Init(after) && Last(steps) == Last(after);
      RememberedGoverns(before, o, Init(after));
    }
  }

  lemma {:induction false} NoFillsGoverned(steps: seq<Step>, id: string, quantity: int)
    requires forall s :: s in steps ==> !EntryFill(s, id)
    ensures Governed(steps, id, quantity)
  {
    if steps != [] {
      assert Last(steps) in steps;
      NoFillsGoverned(Init(steps), id, quantity);
    }
  }

  // ---------- order and repetition do not matter ----------

  predicate SameKey(e: FillEvent, f: FillEvent) {
    Key(e) == Key(f)
  }

  /** Two reports under one key are fills of the entry together, and of one size. */
  predicate Agree(s: Step, t: Step, id: string) {
    && EntryFill(s, id) == EntryFill(t, id)
    && (EntryFill(s, id) ==> Size(s.event) == Size(t.event))
  }

  /** However differently they are printed, reports under one key agree. */
  ghost predicate KeysAgree(steps: seq<Step>, id: string) {
    forall s, t {:trigger SameKey(s.event, t.event)} ::
      s in steps && t in steps && s.Fill? && t.Fill? && Reported(s.event) && Reported(t.event)
        && SameKey(s.event, t.event)
      ==> Agree(s, t, id)
  }

  predicate HasEntryKey(steps: seq<Step>, id: string, key: string) {
    exists i :: 0 <= i < |steps| && EntryFill(steps[i], id) && Key(steps[i].event) == key
  }

  ghost predicate SameEntryKeys(a: seq<Step>, b: seq<Step>, id: string) {
    forall key {:trigger HasEntryKey(a, id, key)} {:trigger HasEntryKey(b, id, key)} ::
      HasEntryKey(a, id, key) <==> HasEntryKey(b, id, key)
  }

  predicate HasKey(fills: seq<FillEvent>, key: string) {
    exists i :: 0 <= i < |fills| && Key(fills[i]) == key
  }

  ghost predicate NoKeyTwice(fills: seq<FillEvent>) {
    forall i, j {:trigger SameKey(fills[i], fills[j])} :: 0 <= i < j < |fills| ==> !SameKey(fills[i], fills[j])
  }

  lemma {:induction false} KeysOfAre(steps: seq<Step>, key: string)
    ensures key in KeysOf(steps) <==> exists s :: s in steps && s.Fill? && Reported(s.event) && Key(s.event) == key
  {
    if steps != [] {
      KeysOfAre(Init(steps), key);
      assert steps == Init(steps) + [Last(steps)];
    }
  }

  lemma HasEntryKeySnoc(steps: seq<Step>, s: Step, id: string, key: string)
    ensures HasEntryKey(steps + [s], id, key)
            <==> HasEntryKey(steps, id, key) || (s.Fill? && EntryFill(s, id) && Key(s.event) == key)
  {
    hide Key, Reported, IsEntry;
    var w := steps + [s];
    if HasEntryKey(steps, id, key) {
      var i :| 0 <= i < |steps| && EntryFill(steps[i], id) && Key(steps[i].event) == key;
      assert w[i] == steps[i];
    }
    assert w[|steps|] == s;
  }

  lemma HasKeySnoc(fills: seq<FillEvent>, e: FillEvent, key: string)
    ensures HasKey(fills + [e], key) <==> HasKey(fills, key) || Key(e) == key
  {
    hide Key;
    var w := fills + [e];
    if HasKey(fills, key) {
      var i :| 0 <= i < |fills| && Key(fills[i]) == key;
      assert w[i] == fills[i];
    }
    assert w[|fills|] == e;
  }

  /** If keys agree, the distinct fills of an entry have its keys, once each, and are events of the history. */
  lemma {:induction false} EntryFillsAre(steps: seq<Step>, id: string)
    requires KeysAgree(steps, id)
    ensures NoKeyTwice(EntryFills(steps, id))
    ensures forall key :: HasKey(EntryFills(steps, id), key) <==> HasEntryKey(steps, id, key)
    ensures forall e :: e in EntryFills(steps, id) ==> IsEvent(steps, id, e)
  {
    if steps != [] {
      var before, s := Init(steps), Last(steps);
      assert steps == before + [s];
      EntryFillsAre(before, id);
      hide EntryFill, Key, KeysAgree, Size;
      forall key
        ensures HasEntryKey(steps, id, key)
                <==> HasEntryKey(before, id, key) || (s.Fill? && EntryFill(s, id) && Key(s.event) == key)
      {
        HasEntryKeySnoc(before, s, id, key);
      }
      forall e | IsEvent(before, id, e)
        ensures IsEvent(steps, id, e)
      {
        var t :| t in before && EntryFill(t, id) && t.event == e;
        assert t in steps;
      }
      var fills := EntryFills(before, id);
      if EntryFill(s, id) {
        FirstOfItsKey(before, s, id);
        if Key(s.event) !in KeysOf(before) {
          AddedFill(fills, s.event);
          assert IsEvent(steps, id, s.event) by { assert s in steps; }
        }
      }
    }
  }

  ghost predicate IsEvent(steps: seq<Step>, id: string, e: FillEvent) {
    exists s :: s in steps && EntryFill(s, id) && s.event == e
  }

  /** The key of an entry's fill was reported before exactly if it was reported before for this entry. */
  lemma FirstOfItsKey(before: seq<Step>, s: Step, id: string)
    requires KeysAgree(before + [s], id) && EntryFill(s, id)
    ensures s.Fill? && (Key(s.event) in KeysOf(before) <==> HasEntryKey(before, id, Key(s.event)))
  {
    KeysOfAre(before, Key(s.event));
    hide Key;
    var steps := before + [s];
    if Key(s.event) in KeysOf(before) {
      var t :| t in before && t.Fill? && Reported(t.event) && Key(t.event) == Key(s.event);
      assert t in steps && s in steps && SameKey(t.event, s.event);
      var i :| 0 <= i < |before| && before[i] == t;
      assert EntryFill(before[i], id);
    }
    if HasEntryKey(before, id, Key(s.event)) {
      var i :| 0 <= i < |before| && EntryFill(before[i], id) && Key(before[i].event) == Key(s.event);
      assert before[i] in before;
    }
  }

  lemma AddedFill(fills: seq<FillEvent>, e: FillEvent)
    requires NoKeyTwice(fills) && !HasKey(fills, Key(e))
    ensures NoKeyTwice(fills + [e])
    ensures forall key :: HasKey(fills + [e], key) <==> HasKey(fills, key) || Key(e) == key
  {
    hide Key;
    var w := fills + [e];
    forall key
      ensures HasKey(w, key) <==> HasKey(fills, key) || Key(e) == key
    {
      HasKeySnoc(fills, e, key);
    }
    forall i, j | 0 <= i < j < |w|
      ensures !SameKey(w[i], w[j])
    {
      if j < |fills| { assert !SameKey(fills[i], fills[j]); } else { assert Key(fills[i]) == Key(w[i]); }
    }
  }

  /** Fills under one key are of one size. */
  ghost predicate SizesAgree(a: seq<FillEvent>, b: seq<FillEvent>) {
    forall e, f {:trigger SameKey(e, f)} :: e in a && f in b && SameKey(e, f) ==> Size(e) == Size(f)
  }

  lemma {:induction false} SameKeysSameSize(a: seq<FillEvent>, b: seq<FillEvent>)
    requires NoKeyTwice(a) && NoKeyTwice(b) && SizesAgree(a, b)
    requires forall key :: HasKey(a, key) <==> HasKey(b, key)
    ensures Total(a) == Total(b) && Largest(a) == Largest(b)
  {
    hide Key, Size;
    if a == [] {
      if b != [] {
        NoKeys(Key(b[0]));
        FirstHasKey(b);
      }
    } else {
      var n := |a| - 1;
      assert HasKey(a, Key(a[n]));
      var j :| 0 <= j < |b| && Key(b[j]) == Key(a[n]);
      assert SameKey(a[n], b[j]) && a[n] in a && b[j] in b;
      assert a[..n] + a[n + 1..] == Init(a);
      TakeOutKeys(a, n);
      TakeOutKeys(b, j);
      var rest := b[..j] + b[j + 1..];
      forall e, f | e in Init(a) && f in rest && SameKey(e, f)
        ensures Size(e) == Size(f)
      {
        assert e in a && f in b;
      }
      SameKeysSameSize(Init(a), rest);
      TakeOut(b, j);
    }
  }

  lemma FirstHasKey(b: seq<FillEvent>)
    requires b != []
    ensures HasKey(b, Key(b[0]))
  {
  }

  lemma NoKeys(key: string)
    ensures !HasKey([], key)
  {
  }

  lemma TakeOutKeys(b: seq<FillEvent>, j: nat)
    requires j < |b| && NoKeyTwice(b)
    ensures var rest := b[..j] + b[j + 1..];
      NoKeyTwice(rest) && forall key :: HasKey(rest, key) <==> HasKey(b, key) && key != Key(b[j])
  {
    hide Key;
    var rest := b[..j] + b[j + 1..];
    forall m, n | 0 <= m < n < |rest|
      ensures !SameKey(rest[m], rest[n])
    {
      assert !SameKey(b[if m < j then m else m + 1], b[if n < j then n else n + 1]);
    }
    forall key
      ensures HasKey(rest, key) <==> HasKey(b, key) && key != Key(b[j])
    {
      if HasKey(rest, key) {
        var m :| 0 <= m < |rest| && Key(rest[m]) == key;
        var i := if m < j then m else m + 1;
        assert b[i] == rest[m];
        assert !SameKey(b[if i < j then i else j], b[if i < j then j else i]);
      }
      if HasKey(b, key) && key != Key(b[j]) {
        var i :| 0 <= i < |b| && Key(b[i]) == key;
        assert rest[if i < j then i else i - 1] == b[i];
      }
    }
  }

  lemma {:induction false} TakeOut(b: seq<FillEvent>, j: nat)
    requires j < |b|
    ensures Total(b) == Total(b[..j] + b[j + 1..]) + Size(b[j])
    ensures Largest(b) == Max(Largest(b[..j] + b[j + 1..]), Size(b[j]))
  {
    hide Size;
    var rest := b[..j] + b[j + 1..];
    if j == |b| - 1 {
      assert rest == Init(b);
    } else {
      TakeOut(Init(b), j);
      assert Init(b)[..j] + Init(b)[j + 1..] == Init(rest);
      assert Last(rest) == Last(b);
    }
  }

  /** Two histories whose keys agree and name the same fills of an entry hold the same distinct quantity. */
  lemma SameKeysSameTotal(a: seq<Step>, b: seq<Step>, id: string)
    requires KeysAgree(a + b, id) && SameEntryKeys(a, b, id)
    ensures Total(EntryFills(a, id)) == Total(EntryFills(b, id))
    ensures Largest(EntryFills(a, id)) == Largest(EntryFills(b, id))
  {
    PartsAgree(a, b, id);
    EntryFillsAre(a, id);
    EntryFillsAre(b, id);
    forall e, f | e in EntryFills(a, id) && f in EntryFills(b, id) && SameKey(e, f)
      ensures Size(e) == Size(f)
    {
      assert IsEvent(a, id, e) && IsEvent(b, id, f);
      var s :| s in a && EntryFill(s, id) && s.event == e;
      var t :| t in b && EntryFill(t, id) && t.event == f;
      assert s in a + b && t in a + b && SameKey(s.event, t.event);
      assert Agree(s, t, id);
    }
    hide EntryFills, EntryFill, Key, KeysAgree, Size;
    forall key
      ensures HasKey(EntryFills(a, id), key) <==> HasKey(EntryFills(b, id), key)
    {
      assert HasEntryKey(a, id, key) <==> HasEntryKey(b, id, key);
    }
    SameKeysSameSize(EntryFills(a, id), EntryFills(b, id));
  }

  lemma PartsAgree(a: seq<Step>, b: seq<Step>, id: string)
    requires KeysAgree(a + b, id)
    ensures KeysAgree(a, id) && KeysAgree(b, id)
  {
    hide Reported, Agree, Key;
    forall s, t | s in a && t in a && s.Fill? && t.Fill? && Reported(s.event) && Reported(t.event)
      && SameKey(s.event, t.event)
      ensures Agree(s, t, id)
    {
      assert s in a + b && t in a + b;
    }
    forall s, t | s in b && t in b && s.Fill? && t.Fill? && Reported(s.event) && Reported(t.event)
      && SameKey(s.event, t.event)
      ensures Agree(s, t, id)
    {
      assert s in a + b && t in a + b;
    }
  }

  /**
    Two histories that report the same fills of an entry, printed in whatever
    form, in any order and however often, are covered by the same quantity.
   */
  lemma OrderDoesNotMatter(a: seq<Step>, b: seq<Step>, id: string, quantity: int)
    requires quantity >= 1 && Governed(a, id, quantity) && Governed(b, id, quantity)
    requires KeysAgree(a + b, id) && SameEntryKeys(a, b, id)
    ensures CoverQuantity(Handle(FRESH_DESK, a).orders, id) == CoverQuantity(Handle(FRESH_DESK, b).orders, id)
  {
    CoverTotal(a, id, quantity);
    CoverTotal(b, id, quantity);
    SameKeysSameTotal(a, b, id);
  }

  /** Documents handled one after the other leave what one long document would. */
  lemma {:induction false} HandleAppend(d: Desk, a: seq<Step>, b: seq<Step>)
    ensures var first := Handle(d, a); var second := Handle(first.desk, b);
      Handle(d, a + b) == Handled(second.desk, first.orders + second.orders)
  {
    hide HandleStep;
    if b == [] {
      assert a + b == a;
    } else {
      assert Init(a + b) == a + Init(b) && Last(a + b) == Last(b);
      HandleAppend(d, a, Init(b));
      HandleUnfolds(d, a + b);
      HandleUnfolds(Handle(d, a).desk, b);
      hide Handle, Init, Last;
    }
  }

  /**
    Events without a timestamp of their own: two covers of one parent share an
    id exactly if the clock did not move.
   */
  lemma CoverIdsCollide(e: FillEvent, f: FillEvent, now: nat, later: nat)
    requires e.id == f.id && e.stamp.None? && f.stamp.None?
    ensures CoverId(e, now) == CoverId(f, later) <==> now == later
  {
    if CoverId(e, now) == CoverId(f, later) {
      var head := e.id + "-COVER-";
      assert CoverId(e, now)[|head|..] == Decimal(now) && CoverId(f, later)[|head|..] == Decimal(later);
      DecimalIsDigits(now);
      DecimalIsDigits(later);
    }
  }

  function OnGrid(ticks: int, tickSize: real): real {
    ticks as real * tickSize
  }

  /** A fill on the tick grid is covered exactly the policy's whole number of ticks away, on the winning side. */
  lemma CoverIsTicksAway(buy: bool, fill: int, p: Policy, ticks: int)
    requires Usable(p) && p.coverTicks == ticks as real
    ensures CoverPrice(buy, OnGrid(fill, p.tickSize), p)
      == OnGrid(if buy then fill + ticks else fill - ticks, p.tickSize)
  {
    hide OnGrid, RoundToTick, RawCover;
    RawOnGrid(buy, fill, ticks, p.tickSize);
    RoundOnGrid(if buy then fill + ticks else fill - ticks, p.tickSize);
  }

  lemma RawOnGrid(buy: bool, fill: int, ticks: int, tickSize: real)
    ensures RawCover(buy, OnGrid(fill, tickSize), ticks as real, tickSize)
            == OnGrid(if buy then fill + ticks else fill - ticks, tickSize)
  {
    assert (fill as real + ticks as real) * tickSize == fill as real * tickSize + ticks as real * tickSize;
    assert (fill as real - ticks as real) * tickSize == fill as real * tickSize - ticks as real * tickSize;
  }

  lemma RoundOnGrid(x: int, tick: real)
    requires tick > 0.0
    ensures RoundToTick(OnGrid(x, tick), tick) == OnGrid(x, tick)
  {
    DividesOut(x as real, tick, OnGrid(x, tick));
    RoundedWhole(x);
    hide Rounded;
  }

  lemma DividesOut(x: real, tick: real, raw: real)
    requires tick > 0.0 && raw == x * tick
    ensures raw / tick == x
  {
    var off := x - raw / tick;
    assert off * tick == 0.0;
    ZeroFactor(off, tick);
  }

  lemma ZeroFactor(off: real, tick: real)
    requires tick > 0.0 && off * tick == 0.0
    ensures off == 0.0
  {
    var size := if off < 0.0 then -off else off;
    assert size * tick == 0.0;
    assert size > 0.0 ==> size * tick > 0.0;
  }

  lemma RoundedWhole(n: int)
    ensures Rounded(n as real) == n
  {
  }
}
