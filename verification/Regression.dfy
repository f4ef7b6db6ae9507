/**
  The regression study: a straight line through the latest closes, fitted by
  accumulating sums, and the proof that no other line fits better.
 */
module Regression {
  import opened Orders

  // ---------- the sums the loops accumulate, over the first k samples ----------

  // Named so that the inductions below can treat a product as an atom.
  function Times(a: real, b: real): real {
    a * b
  }

  function LineAt(slope: real, intercept: real, x: real): real {
    intercept + slope * x
  }

  function Sum(y: seq<real>, k: nat): real
    requires k <= |y|
  {
    if k == 0 then 0.0 else Sum(y, k - 1) + y[k - 1]
  }

  /** Sum of (i - xm) * (y[i] - ym). */
  function Numerator(y: seq<real>, xm: real, ym: real, k: nat): real
    requires k <= |y|
  {
    if k == 0 then 0.0 else Numerator(y, xm, ym, k - 1) + Times((k - 1) as real - xm, y[k - 1] - ym)
  }

  /** Sum of (i - xm) squared. */
  function Denominator(xm: real, k: nat): real {
    if k == 0 then 0.0 else Denominator(xm, k - 1) + Times((k - 1) as real - xm, (k - 1) as real - xm)
  }

  function Residual(y: seq<real>, slope: real, intercept: real, i: nat): real
    requires i < |y|
  {
    y[i] - LineAt(slope, intercept, i as real)
  }

  function SquaredResiduals(y: seq<real>, slope: real, intercept: real, k: nat): real
    requires k <= |y|
  {
    if k == 0 then 0.0
    else SquaredResiduals(y, slope, intercept, k - 1)
         + Times(Residual(y, slope, intercept, k - 1), Residual(y, slope, intercept, k - 1))
  }

  // ---------- the fit ----------

  datatype Line = Line(slope: real, intercept: real)

  function Mean(n: nat): real {
    (n as real - 1.0) / 2.0
  }

  function Fit(y: seq<real>): Line
    requires y != []
  {
    var n := |y|;
    var ym := Sum(y, n) / n as real;
    var d := Denominator(Mean(n), n);
    var slope := if d != 0.0 then Numerator(y, Mean(n), ym, n) / d else 0.0;
    Line(slope, ym - Times(slope, Mean(n)))
  }

  // A bar as the study reads it; a close that is not a finite number is None.
  datatype StudyBar = StudyBar(timestamp: nat, close: Option<real>)

  predicate AllFinite(bars: seq<StudyBar>) {
    forall i :: 0 <= i < |bars| ==> bars[i].close.Some?
  }

  function CloseOf(bar: StudyBar): real {
    if bar.close.Some? then bar.close.value else 0.0
  }

  function Closes(bars: seq<StudyBar>): seq<real> {
    seq(|bars|, i requires 0 <= i < |bars| => CloseOf(bars[i]))
  }

  datatype RegressionStudy =
    | Refused(error: string)
    | Study(lookback: nat, slope: real, intercept: real, sigma: real, mean: real, upper: real, lower: real,
            updatedAt: nat)

  function Clamped(rawLookback: int): (n: nat)
    requires rawLookback >= 2
    ensures 2 <= n <= 2000 && n <= rawLookback && (n < rawLookback ==> n == 2000)
  {
    if rawLookback > 2000 then 2000 else rawLookback
  }

  /** The width of the bands in standard deviations. */
  function Deviations(raw: real): (r: real)
    ensures 0.0 <= r <= 20.0 && (0.0 <= raw <= 20.0 ==> r == raw) && (r < raw ==> r == 20.0) && (raw < r ==> r == 0.0)
  {
    if raw < 0.0 then 0.0 else if raw > 20.0 then 20.0 else raw
  }

  /** An exact square root of numbers that are not negative. */
  ghost predicate IsRoot(root: real -> real) {
    forall v {:trigger root(v)} :: v >= 0.0 ==> root(v) >= 0.0 && Times(root(v), root(v)) == v
  }

  /** Bands at `width` sigmas around the mean, sigma being the root of the mean squared residual. */
  predicate Banded(study: RegressionStudy, squares: real, n: nat, width: real)
    requires study.Study? && n > 0
  {
    && study.sigma >= 0.0 && Times(study.sigma, study.sigma) == squares / n as real
    && study.upper - study.mean == Times(width, study.sigma) == study.mean - study.lower
    && study.lower <= study.mean <= study.upper
  }

  /** The line through the last closes, its value at the last one, and the bands around it. */
  method CalculateRegressionStudy(bars: seq<StudyBar>, rawLookback: int, rawDeviations: real, root: real -> real)
    returns (study: RegressionStudy)
    requires IsRoot(root)
    ensures rawLookback < 2 ==> study == Refused("regression lookback is required")
    ensures rawLookback >= 2 && |bars| < Clamped(rawLookback) ==>
      study == Refused("not enough bars for requested regression lookback")
    ensures rawLookback >= 2 && |bars| >= Clamped(rawLookback) && !AllFinite(bars[|bars| - Clamped(rawLookback)..]) ==>
      study == Refused("non-finite close in regression sample")
    ensures rawLookback >= 2 && |bars| >= Clamped(rawLookback) && AllFinite(bars[|bars| - Clamped(rawLookback)..]) ==>
      var n := Clamped(rawLookback); var y := Closes(bars[|bars| - n..]); var line := Fit(y);
      && study.Study? && study.lookback == n && study.slope == line.slope && study.intercept == line.intercept
      && study.mean == LineAt(line.slope, line.intercept, (n - 1) as real)
        && study.updatedAt == bars[|bars| - 1].timestamp
      && Banded(study, SquaredResiduals(y, line.slope, line.intercept, n), n, Deviations(rawDeviations))
  {
    if rawLookback < 2 {
      return Refused("regression lookback is required");
    }
    var lookback := Clamped(rawLookback);
    hide Times, LineAt, Numerator, Denominator, SquaredResiduals;
    if |bars| < lookback {
      return Refused("not enough bars for requested regression lookback");
    }
    var sample := bars[|bars| - lookback..];
    var fit := FitLine(sample);
    if fit.None? {
      return Refused("non-finite close in regression sample");
    }
    var line := fit.value;
    var residuals := SumOfSquares(sample, line.slope, line.intercept);
    SquaresNotNegative(Closes(sample), line.slope, line.intercept, lookback);
    var sigma := root(residuals / lookback as real);
    var mean := LineAt(line.slope, line.intercept, (lookback - 1) as real);
    var band := Times(Deviations(rawDeviations), sigma);
    NotNegative(Deviations(rawDeviations), sigma);
    study := Study(lookback, line.slope, line.intercept, sigma, mean, mean + band, mean - band,
                   bars[|bars| - 1].timestamp);
  }

  /** Nothing if some close is not finite, and otherwise the fit. */
  method FitLine(sample: seq<StudyBar>) returns (line: Option<Line>)
    requires sample != []
    ensures line == if AllFinite(sample) then Some(Fit(Closes(sample))) else None
  {
    hide Times, LineAt, Numerator, Denominator, SquaredResiduals;
    var n := |sample|;
    var ySum := 0.0;
    for i := 0 to n
      invariant ySum == Sum(Closes(sample), i)
      invariant forall j :: 0 <= j < i ==> sample[j].close.Some?
    {
      if sample[i].close.None? { return None; }
      ySum := ySum + CloseOf(sample[i]);
    }
    var yMean := ySum / n as real;
    var numerator, denominator := Moments(sample, Mean(n), yMean);
    var slope := if denominator != 0.0 then numerator / denominator else 0.0;
    line := Some(Line(slope, yMean - Times(slope, Mean(n))));
  }

  method Moments(sample: seq<StudyBar>, xMean: real, yMean: real) returns (numerator: real, denominator: real)
    ensures numerator == Numerator(Closes(sample), xMean, yMean, |sample|)
    ensures denominator == Denominator(xMean, |sample|)
  {
    numerator, denominator := 0.0, 0.0;
    for i := 0 to |sample|
      invariant numerator == Numerator(Closes(sample), xMean, yMean, i)
      invariant denominator == Denominator(xMean, i)
    {
      var y := CloseOf(sample[i]);
      var xDelta := i as real - xMean;
      numerator := numerator + Times(xDelta, y - yMean);
      denominator := denominator + Times(xDelta, xDelta);
    }
  }

  method SumOfSquares(sample: seq<StudyBar>, slope: real, intercept: real) returns (sum: real)
    ensures sum == SquaredResiduals(Closes(sample), slope, intercept, |sample|)
  {
    sum := 0.0;
    for i := 0 to |sample|
      invariant sum == SquaredResiduals(Closes(sample), slope, intercept, i)
    {
      var fitted := LineAt(slope, intercept, i as real);
      var residual := CloseOf(sample[i]) - fitted;
      sum := sum + Times(residual, residual);
    }
  }

  // ---------- moments of the index ----------

  /** 0 + 1 + ... and 0 + 1 + 4 + ... */
  function IndexSum(k: nat): real {
    k as real * (k as real - 1.0) / 2.0
  }

  function IndexSquares(k: nat): real {
    k as real * (k as real - 1.0) * (2.0 * k as real - 1.0) / 6.0
  }

  /** Sum of i * y[i]. */
  function Weighted(y: seq<real>, k: nat): real
    requires k <= |y|
  {
    if k == 0 then 0.0 else Weighted(y, k - 1) + Times((k - 1) as real, y[k - 1])
  }

  lemma IndexStep(k: nat)
    ensures IndexSum(0) == 0.0 == IndexSquares(0)
    ensures IndexSum(k + 1) == IndexSum(k) + k as real
    ensures IndexSquares(k + 1) == IndexSquares(k) + Times(k as real, k as real)
  {
    var x := k as real;
    assert (k + 1) as real == x + 1.0;
    assert (x + 1.0) * x == x * (x - 1.0) + 2.0 * x;
    assert (x + 1.0) * x * (2.0 * x + 1.0) == x * (x - 1.0) * (2.0 * x - 1.0) + 6.0 * (x * x);
  }

  /** The denominator and the numerator in terms of the plain sums. */
  function Spread(q: real, i: real, x: real, xm: real): real {
    q - 2.0 * (xm * i) + x * (xm * xm)
  }

  function Centred(w: real, s: real, i: real, x: real, xm: real, ym: real): real {
    w - xm * s - ym * i + x * (xm * ym)
  }

  lemma SpreadStep(q: real, i: real, x: real, xm: real)
    ensures Spread(0.0, 0.0, 0.0, xm) == 0.0
    ensures Spread(q + Times(x, x), i + x, x + 1.0, xm) == Spread(q, i, x, xm) + Times(x - xm, x - xm)
  {
    assert xm * (i + x) == xm * i + xm * x;
    assert (x + 1.0) * (xm * xm) == x * (xm * xm) + xm * xm;
  }

  lemma CentredStep(w: real, s: real, i: real, x: real, xm: real, ym: real, v: real)
    ensures Centred(0.0, 0.0, 0.0, 0.0, xm, ym) == 0.0
    ensures Centred(w + Times(x, v), s + v, i + x, x + 1.0, xm, ym)
            == Centred(w, s, i, x, xm, ym) + Times(x - xm, v - ym)
  {
    assert (x - xm) * (v - ym) == x * v - xm * v - ym * x + xm * ym;
    assert xm * (s + v) == xm * s + xm * v;
    assert ym * (i + x) == ym * i + ym * x;
    assert (x + 1.0) * (xm * ym) == x * (xm * ym) + xm * ym;
  }

  lemma {:induction false} DenominatorIs(xm: real, k: nat)
    ensures Denominator(xm, k) == Spread(IndexSquares(k), IndexSum(k), k as real, xm)
  {
    hide Spread, Times, IndexSquares, IndexSum;
    if k == 0 {
      IndexStep(0);
      SpreadStep(0.0, 0.0, 0.0, xm);
    } else {
      DenominatorIs(xm, k - 1);
      IndexStep(k - 1);
      SpreadStep(IndexSquares(k - 1), IndexSum(k - 1), (k - 1) as real, xm);
    }
  }

  lemma {:induction false} NumeratorIs(y: seq<real>, xm: real, ym: real, k: nat)
    requires k <= |y|
    ensures Numerator(y, xm, ym, k) == Centred(Weighted(y, k), Sum(y, k), IndexSum(k), k as real, xm, ym)
  {
    hide Centred, Times, IndexSquares, IndexSum;
    if k == 0 {
      IndexStep(0);
      CentredStep(0.0, 0.0, 0.0, 0.0, xm, ym, 0.0);
    } else {
      NumeratorIs(y, xm, ym, k - 1);
      IndexStep(k - 1);
      CentredStep(Weighted(y, k - 1), Sum(y, k - 1), IndexSum(k - 1), (k - 1) as real, xm, ym, y[k - 1]);
    }
  }

  /** Closed form of the denominator: n(n^2 - 1)/12, positive from two samples on. */
  lemma DenominatorPositive(n: nat)
    requires n >= 2
    ensures Denominator(Mean(n), n) == n as real * (n as real * n as real - 1.0) / 12.0 > 0.0
  {
    DenominatorIs(Mean(n), n);
    var x := n as real;
    hide Denominator;
    ClosedForm(x);
    assert x * x >= 4.0;
    assert x * (x * x - 1.0) > 0.0;
  }

  lemma ClosedForm(x: real)
    ensures Spread(x * (x - 1.0) * (2.0 * x - 1.0) / 6.0, x * (x - 1.0) / 2.0, x, (x - 1.0) / 2.0)
            == x * (x * x - 1.0) / 12.0
  {
    var m := (x - 1.0) / 2.0;
    var s := x * (x - 1.0);
    assert 2.0 * (m * (s / 2.0)) == s * (x - 1.0) / 2.0;
    assert x * (m * m) == s * (x - 1.0) / 4.0;
    assert s * (2.0 * x - 1.0) / 6.0 - s * (x - 1.0) / 2.0 + s * (x - 1.0) / 4.0 == s * (x + 1.0) / 12.0;
    assert s * (x + 1.0) == x * (x * x - 1.0);
    assert Spread(s * (2.0 * x - 1.0) / 6.0, s / 2.0, x, m)
        == s * (2.0 * x - 1.0) / 6.0 - 2.0 * (m * (s / 2.0)) + x * (m * m);
  }

  // ---------- the normal equations ----------

  function ResidualSum(y: seq<real>, slope: real, intercept: real, k: nat): real
    requires k <= |y|
  {
    if k == 0 then 0.0 else ResidualSum(y, slope, intercept, k - 1) + Residual(y, slope, intercept, k - 1)
  }

  function ResidualMoment(y: seq<real>, slope: real, intercept: real, k: nat): real
    requires k <= |y|
  {
    if k == 0 then 0.0
    else ResidualMoment(y, slope, intercept, k - 1) + Times((k - 1) as real, Residual(y, slope, intercept, k - 1))
  }

  /** A sum less the sum of the line's values. */
  function OffLine(s: real, one: real, x: real, b: real, a: real): real {
    s - one * a - b * x
  }

  lemma SumStep(s: real, x: real, i: real, b: real, a: real, v: real)
    ensures OffLine(0.0, 0.0, 0.0, b, a) == 0.0
    ensures OffLine(s + v, x + 1.0, i + x, b, a) == OffLine(s, x, i, b, a) + (v - LineAt(b, a, x))
  {
    assert (x + 1.0) * a == x * a + a;
    assert b * (i + x) == b * i + b * x;
  }

  lemma MomentStep(w: real, i: real, q: real, b: real, a: real, x: real, v: real)
    ensures OffLine(w + Times(x, v), i + x, q + Times(x, x), b, a)
      == OffLine(w, i, q, b, a) + Times(x, v - LineAt(b, a, x))
  {
    assert (i + x) * a == i * a + x * a;
    assert b * (q + x * x) == b * q + b * (x * x);
    assert x * (v - (a + b * x)) == x * v - x * a - b * (x * x);
  }

  lemma {:induction false} ResidualSumsAre(y: seq<real>, b: real, a: real, k: nat)
    requires k <= |y|
    ensures ResidualSum(y, b, a, k) == OffLine(Sum(y, k), k as real, IndexSum(k), b, a)
    ensures ResidualMoment(y, b, a, k) == OffLine(Weighted(y, k), IndexSum(k), IndexSquares(k), b, a)
  {
    hide OffLine, LineAt, Times, IndexSquares, IndexSum;
    if k == 0 {
      IndexStep(0);
      SumStep(0.0, 0.0, 0.0, b, a, 0.0);
    } else {
      ResidualSumsAre(y, b, a, k - 1);
      IndexStep(k - 1);
      SumStep(Sum(y, k - 1), (k - 1) as real, IndexSum(k - 1), b, a, y[k - 1]);
      MomentStep(Weighted(y, k - 1), IndexSum(k - 1), IndexSquares(k - 1), b, a, (k - 1) as real, y[k - 1]);
    }
  }

  /** The fit, spelled out with the products left as they are. */
  lemma FitIs(y: seq<real>)
    requires |y| >= 2
    ensures var x := |y| as real; var xm := Mean(|y|); var d := Denominator(xm, |y|);
      && x > 0.0 && d > 0.0
      && IndexSum(|y|) == x * xm
      && Fit(y).slope == Numerator(y, xm, Sum(y, |y|) / x, |y|) / d
      && Fit(y).intercept == Sum(y, |y|) / x - Fit(y).slope * xm
  {
    hide *;
    SpreadIsPositive(|y|);
    IndexSumIs(|y|);
    FitUnfolds(y);
  }

  lemma SpreadIsPositive(n: nat)
    requires n >= 2
    ensures Denominator(Mean(n), n) > 0.0
  {
    DenominatorPositive(n);
    hide Denominator, Mean;
  }

  lemma FitUnfolds(y: seq<real>)
    requires y != [] && Denominator(Mean(|y|), |y|) > 0.0
    ensures var x := |y| as real; var xm := Mean(|y|); var ym := Sum(y, |y|) / x;
      && Fit(y).slope == Numerator(y, xm, ym, |y|) / Denominator(xm, |y|)
      && Fit(y).intercept == ym - Fit(y).slope * xm
  {
    hide Denominator, Numerator, Sum, Mean;
  }

  lemma IndexSumIs(k: nat)
    ensures IndexSum(k) == k as real * Mean(k)
  {
    var x, half := k as real, (k as real - 1.0) / 2.0;
    assert x * (half + half) == x * half + x * half;
  }

  /** The residuals of the fitted line sum to zero and are orthogonal to the index. */
  lemma NormalEquations(y: seq<real>)
    requires |y| >= 2
    ensures ResidualSum(y, Fit(y).slope, Fit(y).intercept, |y|) == 0.0
    ensures ResidualMoment(y, Fit(y).slope, Fit(y).intercept, |y|) == 0.0
  {
    hide *;
    var n := |y|;
    var x, xm, ym := n as real, Mean(n), Sum(y, n) / n as real;
    var b, a := Fit(y).slope, Fit(y).intercept;
    FitIs(y);
    ResidualSumsAre(y, b, a, n);
    DenominatorIs(xm, n);
    NumeratorIs(y, xm, ym, n);
    FitAlgebra(x, xm, ym, Sum(y, n), Weighted(y, n), IndexSum(n), IndexSquares(n), Denominator(xm, n),
               Numerator(y, xm, ym, n), b, a);
  }

  lemma FitAlgebra(x: real, xm: real, ym: real, s: real, w: real, i1: real, i2: real, d: real, u: real, b: real,
                   a: real)
    requires x > 0.0 && ym == s / x && i1 == x * xm && d != 0.0
    requires d == Spread(i2, i1, x, xm) && u == Centred(w, s, i1, x, xm, ym)
    requires b == u / d && a == ym - b * xm
    ensures OffLine(s, x, i1, b, a) == 0.0 && OffLine(w, i1, i2, b, a) == 0.0
  {
    assert s == x * ym;
    assert x * a == x * ym - b * (x * xm);
    assert d == i2 - x * (xm * xm) by {
      assert xm * i1 == x * (xm * xm);
    }
    assert u == w - x * (xm * ym) by {
      assert xm * s == x * (xm * ym) && ym * i1 == x * (xm * ym);
    }
    assert b * d == u;
    assert a * i1 == x * (xm * ym) - b * (x * (xm * xm)) by {
      assert a * i1 == ym * (x * xm) - b * xm * (x * xm);
    }
    assert b * d == b * i2 - b * (x * (xm * xm));
    assert i1 * a == a * i1;
  }

  // ---------- least squares ----------

  /** What another line adds: the sum of the squared distances between the lines. */
  function LineGap(db: real, da: real, k: nat): real {
    if k == 0 then 0.0
    else LineGap(db, da, k - 1) + Times(LineAt(db, da, (k - 1) as real), LineAt(db, da, (k - 1) as real))
  }

  /** Squares shifted by a line: old squares, cross terms, squares of the line. */
  function Shifted(q: real, s: real, w: real, g: real, db: real, da: real): real {
    q + 2.0 * (da * s) + 2.0 * (db * w) + g
  }

  lemma ShiftedStep(q: real, s: real, w: real, g: real, x: real, v: real, b: real, a: real, b': real, a': real)
    ensures var r, h, r' := v - LineAt(b, a, x), LineAt(b - b', a - a', x), v - LineAt(b', a', x);
      Shifted(q + Times(r, r), s + r, w + Times(x, r), g + Times(h, h), b - b', a - a')
      == Shifted(q, s, w, g, b - b', a - a') + Times(r', r')
  {
    var r, h, r' := v - LineAt(b, a, x), LineAt(b - b', a - a', x), v - LineAt(b', a', x);
    var da, db := a - a', b - b';
    assert r' == r + h by {
      assert b * x - b' * x == db * x;
    }
    Binomial(r, h, r');
    assert h == da + db * x;
    CrossTerms(da, db, x, r, s, w, h);
  }

  lemma CrossTerms(da: real, db: real, x: real, r: real, s: real, w: real, h: real)
    requires h == da + db * x
    ensures h * r == da * r + db * (x * r)
    ensures da * (s + r) == da * s + da * r
    ensures db * (w + x * r) == db * w + db * (x * r)
  {
    assert h * r == da * r + db * x * r;
  }

  lemma Binomial(r: real, h: real, t: real)
    requires t == r + h
    ensures t * t == r * r + 2.0 * (h * r) + h * h
  {
  }

  lemma {:induction false} SquaresExpand(y: seq<real>, b: real, a: real, b': real, a': real, k: nat)
    requires k <= |y|
    ensures SquaredResiduals(y, b', a', k) == Shifted(SquaredResiduals(y, b, a, k), ResidualSum(y, b, a, k),
      ResidualMoment(y, b, a, k), LineGap(b - b', a - a', k), b - b', a - a')
  {
    hide Shifted, LineAt, Times;
    if k == 0 {
      ShiftedZero(b - b', a - a');
    } else {
      SquaresExpand(y, b, a, b', a', k - 1);
      ShiftedStep(SquaredResiduals(y, b, a, k - 1), ResidualSum(y, b, a, k - 1), ResidualMoment(y, b, a, k - 1),
                  LineGap(b - b', a - a', k - 1), (k - 1) as real, y[k - 1], b, a, b', a');
    }
  }

  lemma ShiftedZero(db: real, da: real)
    ensures Shifted(0.0, 0.0, 0.0, 0.0, db, da) == 0.0
    ensures forall q: real, g: real :: Shifted(q, 0.0, 0.0, g, db, da) == q + g
  {
  }

  lemma {:induction false} GapPositive(db: real, da: real, k: nat)
    ensures LineGap(db, da, k) >= 0.0
    ensures k >= 2 && (da != 0.0 || db != 0.0) ==> LineGap(db, da, k) > 0.0
  {
    hide LineAt, Times;
    if k > 0 {
      GapPositive(db, da, k - 1);
      SquareSign(LineAt(db, da, (k - 1) as real));
      if k == 2 {
        TwoValues(db, da);
        SquareSign(LineAt(db, da, 0.0));
        assert LineGap(db, da, 1) == LineGap(db, da, 0) + Times(LineAt(db, da, 0.0), LineAt(db, da, 0.0));
      }
    }
  }

  lemma TwoValues(db: real, da: real)
    ensures LineAt(db, da, 0.0) == da && LineAt(db, da, 1.0) == da + db
  {
  }

  lemma SquareSign(x: real)
    ensures Times(x, x) >= 0.0
    ensures x != 0.0 ==> Times(x, x) > 0.0
  {
    hide Times;
    if x > 0.0 {
      PositiveProduct(x, x);
    } else if x < 0.0 {
      PositiveProduct(-x, -x);
      SameSquare(x);
    } else {
      ZeroSquare();
    }
  }

  lemma NotNegative(p: real, q: real)
    requires p >= 0.0 && q >= 0.0
    ensures Times(p, q) >= 0.0
  {
  }

  lemma {:induction false} SquaresNotNegative(y: seq<real>, b: real, a: real, k: nat)
    requires k <= |y|
    ensures SquaredResiduals(y, b, a, k) >= 0.0
    ensures k > 0 ==> SquaredResiduals(y, b, a, k) / k as real >= 0.0
  {
    hide Times, Residual;
    if k > 0 {
      SquaresNotNegative(y, b, a, k - 1);
      SquareSign(Residual(y, b, a, k - 1));
    }
  }

  lemma PositiveProduct(p: real, q: real)
    requires p > 0.0 && q > 0.0
    ensures Times(p, q) > 0.0
  {
  }

  lemma SameSquare(x: real)
    ensures Times(-x, -x) == Times(x, x)
  {
  }

  lemma ZeroSquare()
    ensures Times(0.0, 0.0) == 0.0
  {
  }

  /**
    From two samples on, the fitted line is the best line, and the only best
    one: any other line has a larger sum of squared residuals.
   */
  lemma FitIsLeastSquares(y: seq<real>, other: Line)
    requires |y| >= 2
    ensures var line := Fit(y);
      && SquaredResiduals(y, line.slope, line.intercept, |y|) <= SquaredResiduals(y, other.slope, other.intercept, |y|)
      && (other != line ==>
            SquaredResiduals(y, line.slope, line.intercept, |y|) < SquaredResiduals(y, other.slope, other.intercept,
              |y|))
  {
    hide *;
    var line := Fit(y);
    NormalEquations(y);
    SquaresExpand(y, line.slope, line.intercept, other.slope, other.intercept, |y|);
    ShiftedZero(line.slope - other.slope, line.intercept - other.intercept);
    GapPositive(line.slope - other.slope, line.intercept - other.intercept, |y|);
  }
}
