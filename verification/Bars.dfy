/**
  Market bars and their aggregation into wider ones.
 */
module Bars {

  datatype MarketBar = MarketBar(timestamp: nat, open: real, high: real, low: real, close: real, volume: real)

  function Higher(a: real, b: real): real { if a < b then b else a }
  function Lower(a: real, b: real): real { if b < a then b else a }

  /** The start of the bucket that a time falls into. */
  function Bucket(timestamp: nat, width: nat): nat
    requires width > 0
  {
    timestamp / width * width
  }

  function Start(bar: MarketBar, width: nat): MarketBar
    requires width > 0
  {
    bar.(timestamp := Bucket(bar.timestamp, width))
  }

  function Extend(active: MarketBar, bar: MarketBar): MarketBar {
    active.(high := Higher(active.high, bar.high), low := Lower(active.low, bar.low),
            close := bar.close, volume := active.volume + bar.volume)
  }

  /** One more bar: it extends the last bucket or opens a new one. */
  function Add(out: seq<MarketBar>, bar: MarketBar, width: nat): seq<MarketBar>
    requires width > 0
  {
    if out == [] || Bucket(bar.timestamp, width) != out[|out| - 1].timestamp then out + [Start(bar, width)]
    else out[|out| - 1 := Extend(out[|out| - 1], bar)]
  }

  /** The bars of a sorted series, bucket by bucket. */
  function Buckets(bars: seq<MarketBar>, width: nat): seq<MarketBar>
    requires width > 0
  {
    if bars == [] then [] else Add(Buckets(bars[..|bars| - 1], width), bars[|bars| - 1], width)
  }

  // ---------- sorting ----------

  ghost predicate Ascending(bars: seq<MarketBar>) {
    forall i, j :: 0 <= i < j < |bars| ==> bars[i].timestamp <= bars[j].timestamp
  }

  ghost predicate Increasing(bars: seq<MarketBar>) {
    forall i, j :: 0 <= i < j < |bars| ==> bars[i].timestamp < bars[j].timestamp
  }

  function InsertBar(bars: seq<MarketBar>, b: MarketBar): seq<MarketBar> {
    if bars == [] || b.timestamp < bars[0].timestamp then [b] + bars else [bars[0]] + InsertBar(bars[1..], b)
  }

  /** The bars by ascending time. */
  function SortBars(bars: seq<MarketBar>): seq<MarketBar> {
    if bars == [] then [] else InsertBar(SortBars(bars[..|bars| - 1]), bars[|bars| - 1])
  }

  lemma {:induction false} InsertBarKeeps(bars: seq<MarketBar>, b: MarketBar)
    ensures multiset(InsertBar(bars, b)) == multiset(bars) + multiset{b}
  {
    if bars != [] && b.timestamp >= bars[0].timestamp {
      InsertBarKeeps(bars[1..], b);
      assert bars == [bars[0]] + bars[1..];
    }
  }

  lemma {:induction false} InsertBarAfter(bars: seq<MarketBar>, b: MarketBar, t: nat)
    requires t <= b.timestamp && forall i :: 0 <= i < |bars| ==> t <= bars[i].timestamp
    ensures forall i :: 0 <= i < |InsertBar(bars, b)| ==> t <= InsertBar(bars, b)[i].timestamp
  {
    if bars != [] && b.timestamp >= bars[0].timestamp {
      InsertBarAfter(bars[1..], b, t);
    }
  }

  lemma {:induction false} InsertBarSorts(bars: seq<MarketBar>, b: MarketBar)
    requires Ascending(bars)
    ensures Ascending(InsertBar(bars, b))
  {
    if bars != [] && b.timestamp >= bars[0].timestamp {
      InsertBarSorts(bars[1..], b);
      InsertBarAfter(bars[1..], b, bars[0].timestamp);
    }
  }

  lemma {:induction false} SortBarsSorts(bars: seq<MarketBar>)
    ensures Ascending(SortBars(bars)) && multiset(SortBars(bars)) == multiset(bars)
  {
    if bars != [] {
      var n := |bars| - 1;
      SortBarsSorts(bars[..n]);
      InsertBarSorts(SortBars(bars[..n]), bars[n]);
      InsertBarKeeps(SortBars(bars[..n]), bars[n]);
      assert bars == bars[..n] + [bars[n]];
    }
  }

  /** A series in order is left alone. */
  lemma {:induction false} SortBarsId(bars: seq<MarketBar>)
    requires Increasing(bars)
    ensures SortBars(bars) == bars
  {
    if bars != [] {
      var n := |bars| - 1;
      SortBarsId(bars[..n]);
      InsertLast(bars[..n], bars[n]);
      assert bars == bars[..n] + [bars[n]];
    }
  }

  lemma {:induction false} InsertLast(bars: seq<MarketBar>, b: MarketBar)
    requires forall i :: 0 <= i < |bars| ==> bars[i].timestamp < b.timestamp
    ensures InsertBar(bars, b) == bars + [b]
  {
    if bars != [] {
      InsertLast(bars[1..], b);
      assert [bars[0]] + (bars[1..] + [b]) == bars + [b];
    }
  }

  // ---------- the aggregation ----------

  const MINUTE := 60 * 1000

  /** The latest bars, unless there is no positive limit to cut to. */
  function Cut(out: seq<MarketBar>, limit: int): seq<MarketBar> {
    if 0 <= limit < |out| then out[|out| - limit..] else out
  }

  function Aggregated(bars: seq<MarketBar>, minutes: int, limit: int): seq<MarketBar> {
    if minutes <= 1 || bars == [] then bars else Cut(Buckets(SortBars(bars), minutes * MINUTE), limit)
  }

  method AggregateBars(bars: seq<MarketBar>, minutes: int, limit: int) returns (out: seq<MarketBar>)
    ensures out == Aggregated(bars, minutes, limit)
  {
    if minutes <= 1 || bars == [] { return bars; }
    var width := minutes * MINUTE;
    var sorted := SortBars(bars);
    out := [];
    var current := 0;
    for i := 0 to |sorted|
      invariant out == Buckets(sorted[..i], width)
      invariant out != [] ==> current == out[|out| - 1].timestamp
    {
      var bar := sorted[i];
      assert sorted[..i + 1][..i] == sorted[..i];
      var bucket := Bucket(bar.timestamp, width);
      if out == [] || bucket != current {
        out := out + [bar.(timestamp := bucket)];
        current := bucket;
      } else {
        var active := out[|out| - 1];
        active := active.(high := Higher(active.high, bar.high));
        active := active.(low := Lower(active.low, bar.low));
        active := active.(close := bar.close);
        active := active.(volume := active.volume + bar.volume);
        out := out[|out| - 1 := active];
      }
    }
    assert sorted[..|sorted|] == sorted;
    if limit >= 0 && |out| > limit {
      out := out[|out| - limit..];
    }
  }

  // ---------- what a bucket is ----------

  function Highest(bars: seq<MarketBar>): real
    requires bars != []
  {
    if |bars| == 1 then bars[0].high else Higher(Highest(bars[..|bars| - 1]), bars[|bars| - 1].high)
  }

  function Lowest(bars: seq<MarketBar>): real
    requires bars != []
  {
    if |bars| == 1 then bars[0].low else Lower(Lowest(bars[..|bars| - 1]), bars[|bars| - 1].low)
  }

  function Volume(bars: seq<MarketBar>): real {
    if bars == [] then 0.0 else Volume(bars[..|bars| - 1]) + bars[|bars| - 1].volume
  }

  /** out summarises the bars of one bucket: first open, highest, lowest, last close, total volume. */
  predicate Summarises(out: MarketBar, bars: seq<MarketBar>, bucket: nat, width: nat)
    requires width > 0
  {
    && bars != []
    && (forall i :: 0 <= i < |bars| ==> Bucket(bars[i].timestamp, width) == bucket)
    && out == MarketBar(bucket, bars[0].open, Highest(bars), Lowest(bars), bars[|bars| - 1].close, Volume(bars))
  }

  lemma TimesAtLeast(w: nat, d: int)
    requires w > 0 && d >= 1
    ensures w * d >= w
  {
  }

  lemma DivMod(t: nat, w: nat)
    requires w > 0
    ensures t == w * (t / w) + t % w && 0 <= t % w < w
  {
  }

  /** Quotient and remainder are unique. */
  lemma QuotientIs(w: nat, q: nat, r: nat, d: nat, m: nat)
    requires w * q + r == w * d + m && r < w && m < w
    ensures q == d
  {
    assert w * (q - d) == m - r && w * (d - q) == r - m;
    if q > d { TimesAtLeast(w, q - d); }
    if d > q { TimesAtLeast(w, d - q); }
  }

  lemma SmallRemainder(w: nat, q: nat, r: nat)
    requires r < w
    ensures (w * q + r) / w == q
  {
    var t := w * q + r;
    DivMod(t, w);
    QuotientIs(w, q, r, t / w, t % w);
  }

  lemma BucketMonotone(a: nat, b: nat, width: nat)
    requires width > 0 && a <= b
    ensures Bucket(a, width) <= Bucket(b, width) <= b
  {
    DivMod(a, width);
    DivMod(b, width);
    var p, q := a / width, b / width;
    assert width * p == width * q + width * (p - q) && width * q == width * p + width * (q - p);
    if p > q {
      TimesAtLeast(width, p - q);
    }
  }

  ghost predicate GroupOk(bars: seq<MarketBar>, out: seq<MarketBar>, cuts: seq<nat>, width: nat, i: nat)
    requires width > 0 && i < |out| && |cuts| == |out| + 1
  {
    && cuts[i] < cuts[i + 1] <= |bars|
    && Summarises(out[i], bars[cuts[i]..cuts[i + 1]], out[i].timestamp, width)
  }

  /**
    A sorted series falls into groups of one bucket each, in increasing order;
    each output bar summarises its group.
   */
  ghost predicate Grouped(bars: seq<MarketBar>, out: seq<MarketBar>, cuts: seq<nat>, width: nat)
    requires width > 0
  {
    && |cuts| == |out| + 1 && cuts[0] == 0 && cuts[|out|] == |bars|
    && (forall i :: 0 <= i < |out| ==> GroupOk(bars, out, cuts, width, i))
    && (forall i, j :: 0 <= i < j < |out| ==> out[i].timestamp < out[j].timestamp)
  }

  lemma SummaryOfOne(bar: MarketBar, width: nat)
    requires width > 0
    ensures Summarises(Start(bar, width), [bar], Bucket(bar.timestamp, width), width)
  {
    assert [bar][..0] == [];
  }

  lemma SummaryGrows(out: MarketBar, bars: seq<MarketBar>, bar: MarketBar, bucket: nat, width: nat)
    requires width > 0 && Summarises(out, bars, bucket, width) && Bucket(bar.timestamp, width) == bucket
    ensures Summarises(Extend(out, bar), bars + [bar], bucket, width)
  {
    assert (bars + [bar])[..|bars|] == bars;
  }

  lemma {:induction false} BucketsGroup(bars: seq<MarketBar>, width: nat) returns (cuts: seq<nat>)
    requires width > 0 && Ascending(bars)
    ensures Grouped(bars, Buckets(bars, width), cuts, width)
  {
    if bars == [] {
      cuts := [0];
    } else {
      var n := |bars| - 1;
      var front, bar := bars[..n], bars[n];
      var before := BucketsGroup(front, width);
      var out := Buckets(front, width);
      if out == [] || Bucket(bar.timestamp, width) != out[|out| - 1].timestamp {
        cuts := before + [|bars|];
        NewGroup(bars, out, before, width);
      } else {
        cuts := before[..|out|] + [|bars|];
        SameGroup(bars, out, before, width);
      }
    }
  }

  lemma NewGroup(bars: seq<MarketBar>, out: seq<MarketBar>, cuts: seq<nat>, width: nat)
    requires width > 0 && bars != [] && Ascending(bars) && Grouped(bars[..|bars| - 1], out, cuts, width)
    requires out == [] || Bucket(bars[|bars| - 1].timestamp, width) != out[|out| - 1].timestamp
    ensures Grouped(bars, out + [Start(bars[|bars| - 1], width)], cuts + [|bars|], width)
  {
    var n := |bars| - 1;
    var bar := bars[n];
    var more, c := out + [Start(bar, width)], cuts + [|bars|];
    SummaryOfOne(bar, width);
    assert bars[c[|out|]..c[|out| + 1]] == [bar];
    assert GroupOk(bars, more, c, width, |out|);
    forall i | 0 <= i < |out|
      ensures GroupOk(bars, more, c, width, i)
    {
      KeptGroup(bars, out, cuts, width, i, more, c);
    }
    if out != [] { LastBucket(bars, out, cuts, width); }
  }

  /** A group of the front is a group of the whole. */
  lemma KeptGroup(bars: seq<MarketBar>, out: seq<MarketBar>, cuts: seq<nat>, width: nat, i: nat,
                  more: seq<MarketBar>, c: seq<nat>)
    requires width > 0 && bars != [] && i < |out| && i < |more| && |cuts| == |out| + 1 && |c| == |more| + 1
    requires GroupOk(bars[..|bars| - 1], out, cuts, width, i)
    requires more[i] == out[i] && c[i] == cuts[i] && c[i + 1] == cuts[i + 1]
    ensures GroupOk(bars, more, c, width, i)
  {
    assert bars[c[i]..c[i + 1]] == bars[..|bars| - 1][cuts[i]..cuts[i + 1]];
  }

  /** The last bucket is no later than the next bar's. */
  lemma LastBucket(bars: seq<MarketBar>, out: seq<MarketBar>, cuts: seq<nat>, width: nat)
    requires width > 0 && bars != [] && Ascending(bars) && Grouped(bars[..|bars| - 1], out, cuts, width) && out != []
    ensures out[|out| - 1].timestamp <= Bucket(bars[|bars| - 1].timestamp, width)
    ensures forall i :: 0 <= i < |out| ==> out[i].timestamp <= out[|out| - 1].timestamp
  {
    var n, last := |bars| - 1, |out| - 1;
    assert GroupOk(bars[..n], out, cuts, width, last);
    var group := bars[..n][cuts[last]..cuts[last + 1]];
    assert group[0] == bars[cuts[last]];
    BucketMonotone(bars[cuts[last]].timestamp, bars[n].timestamp, width);
  }

  lemma SameGroup(bars: seq<MarketBar>, out: seq<MarketBar>, cuts: seq<nat>, width: nat)
    requires width > 0 && bars != [] && Grouped(bars[..|bars| - 1], out, cuts, width) && out != []
    requires Bucket(bars[|bars| - 1].timestamp, width) == out[|out| - 1].timestamp
    ensures Grouped(bars, out[|out| - 1 := Extend(out[|out| - 1], bars[|bars| - 1])], cuts[..|out|] + [|bars|], width)
  {
    var n, last := |bars| - 1, |out| - 1;
    var bar := bars[n];
    var more, c := out[last := Extend(out[last], bar)], cuts[..|out|] + [|bars|];
    assert GroupOk(bars[..n], out, cuts, width, last);
    var group := bars[..n][cuts[last]..cuts[last + 1]];
    SummaryGrows(out[last], group, bar, out[last].timestamp, width);
    assert bars[c[last]..c[last + 1]] == group + [bar];
    forall i | 0 <= i < last
      ensures GroupOk(bars, more, c, width, i)
    {
      KeptGroup(bars, out, cuts, width, i, more, c);
    }
  }

  /** No volume is lost. */
  lemma {:induction false} BucketsKeepVolume(bars: seq<MarketBar>, width: nat)
    requires width > 0
    ensures Volume(Buckets(bars, width)) == Volume(bars)
  {
    if bars != [] {
      var n := |bars| - 1;
      BucketsKeepVolume(bars[..n], width);
      var out := Buckets(bars[..n], width);
      var next := Add(out, bars[n], width);
      if out == [] || Bucket(bars[n].timestamp, width) != out[|out| - 1].timestamp {
        assert next[..|next| - 1] == out;
      } else {
        assert next[..|next| - 1] == out[..|out| - 1];
      }
    }
  }

  // ---------- aggregation composes ----------

  lemma BucketIs(w: nat, q: nat, r: nat)
    requires r < w
    ensures Bucket(w * q + r, w) == w * q
  {
    SmallRemainder(w, q, r);
  }

  lemma PositiveProduct(a: nat, b: nat)
    requires a > 0 && b > 0
    ensures a * b > 0 && a * b >= a
  {
    TimesAtLeast(a, b);
  }

  lemma BucketOfBucket(timestamp: nat, a: nat, b: nat)
    requires a > 0 && b > 0
    ensures a * b > 0 && Bucket(Bucket(timestamp, a), a * b) == Bucket(timestamp, a * b)
  {
    PositiveProduct(a, b);
    WholeOfParts(timestamp, a, b, a * b);
  }

  lemma WholeOfParts(timestamp: nat, a: nat, b: nat, w: nat)
    requires a > 0 && w > 0 && w == a * b
    ensures Bucket(Bucket(timestamp, a), w) == Bucket(timestamp, w)
  {
    var q, r := timestamp / w, timestamp % w;
    DivMod(timestamp, w);
    DivideSum(timestamp, a, b, q, r);
    var inner := Bucket(r, a);
    BucketMonotone(r, r, a);
    assert Bucket(timestamp, a) == w * q + inner;
    hide Bucket;
    BucketIs(w, q, inner);
    BucketIs(w, q, r);
  }

  lemma DivideSum(t: nat, a: nat, b: nat, q: nat, r: nat)
    requires a > 0 && t == a * b * q + r
    ensures t / a * a == a * b * q + r / a * a
  {
    DivMod(r, a);
    var s := r / a;
    assert a * b * q == a * (b * q);
    assert a * (b * q + s) == a * (b * q) + a * s;
    SmallRemainder(a, b * q + s, r % a);
    assert t == a * (b * q + s) + r % a;
  }

  lemma ExtendAssociates(x: MarketBar, y: MarketBar, z: MarketBar, t: nat)
    ensures Extend(x, Extend(y, z)) == Extend(Extend(x, y), z)
    ensures Extend(x, y.(timestamp := t)) == Extend(x, y)
  {
  }

  lemma BucketsLast(out: seq<MarketBar>, bar: MarketBar, w: nat)
    requires w > 0
    ensures Buckets(out + [bar], w) == Add(Buckets(out, w), bar, w)
  {
    hide Add;
    assert (out + [bar])[..|out|] == out;
  }

  lemma AddMoved(wide: seq<MarketBar>, bar: MarketBar, t: nat, w: nat)
    requires w > 0 && Bucket(t, w) == Bucket(bar.timestamp, w)
    ensures Add(wide, bar.(timestamp := t), w) == Add(wide, bar, w)
  {
    hide Bucket;
  }

  lemma AddTwice(wide: seq<MarketBar>, x: MarketBar, y: MarketBar, w: nat)
    requires w > 0 && Bucket(x.timestamp, w) == Bucket(y.timestamp, w)
    ensures Add(Add(wide, x, w), y, w) == Add(wide, Extend(x, y), w)
  {
    hide Bucket, Higher, Lower;
    if wide != [] && Bucket(x.timestamp, w) == wide[|wide| - 1].timestamp {
      ExtendAssociates(wide[|wide| - 1], x, y, 0);
    }
  }

  /** Adding a bar to the narrow buckets and widening is adding it to the wide ones. */
  lemma AddThenWiden(out: seq<MarketBar>, bar: MarketBar, a: nat, w: nat)
    requires a > 0 && w > 0 && Bucket(Bucket(bar.timestamp, a), w) == Bucket(bar.timestamp, w)
    ensures Buckets(Add(out, bar, a), w) == Add(Buckets(out, w), bar, w)
  {
    hide Bucket, Extend, Buckets;
    var t := Bucket(bar.timestamp, a);
    if out == [] || t != out[|out| - 1].timestamp {
      BucketsLast(out, bar.(timestamp := t), w);
      AddMoved(Buckets(out, w), bar, t, w);
      hide Add;
    } else {
      var n := |out| - 1;
      var front, last := out[..n], out[n];
      assert out == front + [last] && out[n := Extend(last, bar)] == front + [Extend(last, bar)];
      BucketsLast(front, last, w);
      BucketsLast(front, Extend(last, bar), w);
      assert Add(out, bar, a) == out[n := Extend(last, bar)];
      hide Add;
      AddTwice(Buckets(front, w), last, bar, w);
    }
  }

  lemma {:induction false} BucketsCompose(bars: seq<MarketBar>, a: nat, b: nat)
    requires a > 0 && b > 0
    ensures a * b > 0 && Buckets(Buckets(bars, a), a * b) == Buckets(bars, a * b)
  {
    if bars == [] {
      BucketOfBucket(0, a, b);
    } else {
      var n := |bars| - 1;
      BucketsCompose(bars[..n], a, b);
      BucketOfBucket(bars[n].timestamp, a, b);
      AddThenWiden(Buckets(bars[..n], a), bars[n], a, a * b);
    }
  }

  lemma BucketsIncrease(bars: seq<MarketBar>, width: nat)
    requires width > 0 && Ascending(bars)
    ensures Increasing(Buckets(bars, width))
  {
    var cuts := BucketsGroup(bars, width);
  }

  /**
    Widening by a and then to a*b is widening to a*b at once, for any width
    a > 1, if neither cut takes anything away.
   */
  lemma AggregationComposes(bars: seq<MarketBar>, a: nat, b: nat, limit: int, narrow: int)
    requires a > 1 && b > 0 && a * MINUTE > 0
    requires Cut(Buckets(SortBars(bars), a * MINUTE), narrow) == Buckets(SortBars(bars), a * MINUTE)
    ensures Aggregated(Aggregated(bars, a, narrow), a * b, limit) == Aggregated(bars, a * b, limit)
  {
    Widths(a, b);
    if bars != [] {
      var sorted, width := SortBars(bars), a * MINUTE;
      hide *;
      AggregatedIs(bars, a, narrow);
      AggregatedIs(bars, a * b, limit);
      SortBarsSorts(bars);
      Recomposed(sorted, width, b);
      SortedNonEmpty(bars);
      SomeBucket(sorted, width);
      AggregatedIs(Buckets(sorted, width), a * b, limit);
    }
  }

  lemma Widths(a: nat, b: nat)
    requires a > 1 && b > 0
    ensures a * b > 1 && a * MINUTE > 0 && (a * MINUTE) * b == (a * b) * MINUTE
  {
    PositiveProduct(a, b);
  }

  lemma AggregatedIs(bars: seq<MarketBar>, minutes: int, limit: int)
    requires minutes > 1 && bars != []
    ensures minutes * MINUTE > 0
    ensures Aggregated(bars, minutes, limit) == Cut(Buckets(SortBars(bars), minutes * MINUTE), limit)
  {
  }

  /** Sorting the narrow buckets changes nothing, and widening them gives the wide buckets. */
  lemma Recomposed(sorted: seq<MarketBar>, width: nat, b: nat)
    requires width > 0 && b > 0 && Ascending(sorted)
    ensures width * b > 0 && Buckets(SortBars(Buckets(sorted, width)), width * b) == Buckets(sorted, width * b)
  {
    BucketsIncrease(sorted, width);
    SortBarsId(Buckets(sorted, width));
    BucketsCompose(sorted, width, b);
  }

  lemma SortedNonEmpty(bars: seq<MarketBar>)
    requires bars != []
    ensures SortBars(bars) != []
  {
  }

  lemma SomeBucket(bars: seq<MarketBar>, width: nat)
    requires width > 0 && bars != []
    ensures Buckets(bars, width) != []
  {
  }

  // ---------- which bars are left ----------

  /** A bucket starts on a multiple of its width, at most one width before the times in it. */
  lemma BucketIsAligned(timestamp: nat, width: nat)
    requires width > 0
    ensures Bucket(timestamp, width) % width == 0
    ensures Bucket(timestamp, width) <= timestamp < Bucket(timestamp, width) + width
  {
    DivMod(timestamp, width);
    BucketIs(width, timestamp / width, timestamp % width);
    MultipleOf(width, timestamp / width);
  }

  lemma MultipleOf(width: nat, n: nat)
    requires width > 0
    ensures (n * width) % width == 0
    decreases n
  {
    if n > 0 {
      MultipleOf(width, n - 1);
      assert n * width == (n - 1) * width + width;
      ModPlus((n - 1) * width, width);
    }
  }

  lemma ModPlus(a: nat, w: nat)
    requires w > 0
    ensures (a + w) % w == a % w
  {
    DivMod(a, w);
    DivMod(a + w, w);
    QuotientIs(w, a / w + 1, a % w, (a + w) / w, (a + w) % w);
  }

  /**
   * The latest buckets are kept, as many as the limit allows; every one that is cut is older than all that are
   * kept.
   */
  lemma LatestBarsAreKept(bars: seq<MarketBar>, minutes: int, limit: nat)
    requires minutes > 1 && bars != []
    ensures minutes * 60_000 > 0
    ensures var all, out := Buckets(SortBars(bars), minutes * 60_000), Aggregated(bars, minutes, limit);
      && |out| == (if |all| <= limit then |all| else limit)
      && all[|all| - |out|..] == out
      && forall i, j :: 0 <= i < |all| - |out| && 0 <= j < |out| ==> all[i].timestamp < out[j].timestamp
  {
    hide *;
    AggregatedIs(bars, minutes, limit);
    SortBarsSorts(bars);
    BucketsIncrease(SortBars(bars), minutes * MINUTE);
    SixtyThousand();
    CutKeepsLatest(Buckets(SortBars(bars), minutes * MINUTE), limit);
  }

  lemma SixtyThousand()
    ensures MINUTE == 60_000
  {
  }

  lemma CutKeepsLatest(all: seq<MarketBar>, limit: nat)
    requires Increasing(all)
    ensures var out := Cut(all, limit);
      && |out| == (if |all| <= limit then |all| else limit)
      && all[|all| - |out|..] == out
      && forall i, j :: 0 <= i < |all| - |out| && 0 <= j < |out| ==> all[i].timestamp < out[j].timestamp
  {
  }
}
