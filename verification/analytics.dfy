/**
 * Summary statistics over a completed result set (src/inference.cpp,
 * `calculate_correlation` and `calculate_analytics`).
 */
module Analytics {

  import opened Wrappers
  import opened RealMath
  import opened Sums
  import opened Crepe

  /**
   * Pearson correlation of two equally long vectors: the inner product of
   * the centred vectors over the product of their norms.  The division is
   * IEEE division, so a zero norm gives NaN or an infinity.  A defined
   * result times both norms is the cross sum of the deviations.
   */
  function CalculateCorrelation(x: seq<real>, y: seq<real>, m: Math): (r: FloatValue)
    requires |x| == |y| > 0
    ensures r.Finite? <==> Mul(CenteredNorm(x, m), CenteredNorm(y, m)) != 0.0
    ensures r.Finite? ==>
              r.value * Mul(CenteredNorm(x, m), CenteredNorm(y, m)) == Dot(Centered(x), Centered(y))
  {
    FloatDiv(Dot(Centered(x), Centered(y)), Mul(CenteredNorm(x, m), CenteredNorm(y, m)))
  }

  /** With a lawful square root the correlation is never an infinity: a zero denominator means 0/0. */
  lemma CorrelationNeverInfinite(x: seq<real>, y: seq<real>, m: Math)
    requires SqrtLawful(m)
    requires |x| == |y| > 0
    ensures !CalculateCorrelation(x, y, m).PosInf? && !CalculateCorrelation(x, y, m).NegInf?
  {
    ZeroNormZeroCross(x, y, m);
  }

  /** With a lawful square root, a zero norm means every deviation is zero. */
  lemma ZeroNormMeansNoDeviation(x: seq<real>, m: Math)
    requires SqrtLawful(m)
    requires |x| > 0
    ensures CenteredNorm(x, m) == 0.0 ==> forall i :: 0 <= i < |x| ==> Centered(x)[i] == 0.0
  {
    if CenteredNorm(x, m) == 0.0 {
      var cx := Centered(x);
      SqrtZeroIff(m, SumSq(cx));
      forall i | 0 <= i < |x|
        ensures cx[i] == 0.0
      {
        if cx[i] != 0.0 {
          SumSqPositive(cx, i);
          assert false;
        }
      }
    }
  }

  /** With a lawful square root, a zero product of norms forces a zero cross sum. */
  lemma ZeroNormZeroCross(x: seq<real>, y: seq<real>, m: Math)
    requires SqrtLawful(m)
    requires |x| == |y| > 0
    ensures Mul(CenteredNorm(x, m), CenteredNorm(y, m)) == 0.0 ==> Dot(Centered(x), Centered(y)) == 0.0
  {
    var nx, ny := CenteredNorm(x, m), CenteredNorm(y, m);
    if Mul(nx, ny) == 0.0 {
      var cx, cy := Centered(x), Centered(y);
      assert nx == 0.0 || ny == 0.0;
      ZeroNormMeansNoDeviation(x, m);
      ZeroNormMeansNoDeviation(y, m);
      if nx == 0.0 {
        DotZeroLeft(cx, cy);
      } else {
        DotZeroLeft(cy, cx);
        DotSymmetric(cx, cy);
      }
    }
  }

  /** Euclidean norm of the vector with its mean removed. */
  function CenteredNorm(x: seq<real>, m: Math): real
    requires |x| > 0
  {
    m.sqrt(SumSq(Centered(x)))
  }

  /**
   * The accumulation loop of the source: one pass over both vectors summing
   * the cross products and the two squared deviations.
   */
  method CorrelationLoop(x: seq<real>, y: seq<real>, m: Math) returns (c: FloatValue)
    requires |x| == |y| > 0
    ensures c == CalculateCorrelation(x, y, m)
  {
    var xMean := Mean(x);
    var yMean := Mean(y);
    ghost var cx := Centered(x);
    ghost var cy := Centered(y);
    var numerator := 0.0;
    var xNormSq := 0.0;
    var yNormSq := 0.0;
    var i := 0;
    while i < |x|
      invariant 0 <= i <= |x|
      invariant numerator == Dot(cx[..i], cy[..i])
      invariant xNormSq == SumSq(cx[..i])
      invariant yNormSq == SumSq(cy[..i])
    {
      var xDiff := x[i] - xMean;
      var yDiff := y[i] - yMean;
      assert xDiff == cx[i] && yDiff == cy[i];
      DotSnoc(cx, cy, i);
      SumSqSnoc(cx, i);
      SumSqSnoc(cy, i);
      numerator := numerator + Mul(xDiff, yDiff);
      xNormSq := xNormSq + Sq(xDiff);
      yNormSq := yNormSq + Sq(yDiff);
      i := i + 1;
    }
    assert cx[..i] == cx && cy[..i] == cy;
    var xNorm, yNorm := m.sqrt(xNormSq), m.sqrt(yNormSq);
    assert xNorm == CenteredNorm(x, m) && yNorm == CenteredNorm(y, m);
    c := FloatDiv(numerator, Mul(xNorm, yNorm));
  }

  /** Correlation does not depend on the order of its arguments. */
  lemma CorrelationSymmetric(x: seq<real>, y: seq<real>, m: Math)
    requires |x| == |y| > 0
    ensures CalculateCorrelation(x, y, m) == CalculateCorrelation(y, x, m)
  {
    DotSymmetric(Centered(x), Centered(y));
  }

  /**
   * With a lawful square root the correlation is NaN exactly when one of
   * the vectors is constant (a steady pitch, or a single frame), and an
   * ordinary number otherwise.
   */
  lemma CorrelationUndefinedIffConstant(x: seq<real>, y: seq<real>, m: Math)
    requires SqrtLawful(m)
    requires |x| == |y| > 0
    ensures CalculateCorrelation(x, y, m).NaN? <==> Constant(x) || Constant(y)
    ensures CalculateCorrelation(x, y, m).Finite? <==> !Constant(x) && !Constant(y)
  {
    var cx, cy := Centered(x), Centered(y);
    CenteredZeroIffConstant(x);
    CenteredZeroIffConstant(y);
    SqrtZeroIff(m, 0.0);
    if Constant(x) {
      SumSqOfZeros(cx);
      DotZeroLeft(cx, cy);
    } else if Constant(y) {
      SumSqOfZeros(cy);
      DotSymmetric(cx, cy);
      DotZeroLeft(cy, cx);
    } else {
      var i :| 0 <= i < |cx| && cx[i] != 0.0;
      var j :| 0 <= j < |cy| && cy[j] != 0.0;
      SumSqPositive(cx, i);
      SumSqPositive(cy, j);
      var sx, sy := m.sqrt(SumSq(cx)), m.sqrt(SumSq(cy));
      SqrtZeroIff(m, SumSq(cx));
      SqrtZeroIff(m, SumSq(cy));
      MulPositive(sx, sy);
    }
  }

  /** Removing the mean commutes with an affine map, up to its scale. */
  lemma CenteredAffine(x: seq<real>, y: seq<real>, a: real, b: real)
    requires |x| == |y| > 0
    requires forall i :: 0 <= i < |x| ==> y[i] == a * x[i] + b
    ensures forall i :: 0 <= i < |x| ==> Centered(y)[i] == a * Centered(x)[i]
  {
    var mx, my := Mean(x), Mean(y);
    MeanAffine(x, y, a, b);
    forall i | 0 <= i < |x|
      ensures Centered(y)[i] == a * Centered(x)[i]
    {
      Distribute(a, x[i], mx);
    }
  }

  lemma Distribute(a: real, u: real, v: real)
    ensures a * u - a * v == a * (u - v)
  {
  }

  /** The mean of an affine image is the affine image of the mean. */
  lemma MeanAffine(x: seq<real>, y: seq<real>, a: real, b: real)
    requires |x| == |y| > 0
    requires forall i :: 0 <= i < |x| ==> y[i] == a * x[i] + b
    ensures Mean(y) == a * Mean(x) + b
  {
    SumAffine(x, y, a, b);
    AffineQuotient(Sum(x), |x| as real, a, b);
  }

  lemma AffineQuotient(s: real, n: real, a: real, b: real)
    requires 0.0 < n
    ensures (a * s + n * b) / n == a * (s / n) + b
  {
  }

  /** A quotient of a non-zero number by itself is one. */
  lemma QuotientOfSelf(q: real, d: real)
    requires d != 0.0 && q * d == d
    ensures q == 1.0
  {
    assert q == q * d / d;
  }

  /**
   * A pitch that is an increasing affine function of non-constant time
   * (a linear frequency sweep) has correlation exactly one.
   */
  lemma PerfectCorrelation(x: seq<real>, y: seq<real>, a: real, b: real, m: Math)
    requires SqrtLawful(m)
    requires |x| == |y| > 0
    requires !Constant(x)
    requires 0.0 < a
    requires forall i :: 0 <= i < |x| ==> y[i] == a * x[i] + b
    ensures CalculateCorrelation(x, y, m) == Finite(1.0)
  {
    var cx, cy := Centered(x), Centered(y);
    var nx, ny := CenteredNorm(x, m), CenteredNorm(y, m);
    assert FloatDiv(Dot(cx, cy), Mul(nx, ny)) == Finite(1.0) by {
      NonConstantSpread(x);
      AffineSpread(x, y, a, b);
      UnitRatio(m, SumSq(cx), a, Dot(cx, cy), SumSq(cy), nx, ny);
    }
  }

  /** A vector that is not constant deviates from its mean somewhere. */
  lemma NonConstantSpread(x: seq<real>)
    requires |x| > 0 && !Constant(x)
    ensures 0.0 < SumSq(Centered(x))
  {
    var cx := Centered(x);
    CenteredZeroIffConstant(x);
    var i :| 0 <= i < |cx| && cx[i] != 0.0;
    SumSqPositive(cx, i);
  }

  /** For y = a * x + b the cross term and the spread of y scale with a and a^2. */
  lemma AffineSpread(x: seq<real>, y: seq<real>, a: real, b: real)
    requires |x| == |y| > 0
    requires forall i :: 0 <= i < |x| ==> y[i] == a * x[i] + b
    ensures Dot(Centered(x), Centered(y)) == a * SumSq(Centered(x))
    ensures SumSq(Centered(y)) == Sq(a) * SumSq(Centered(x))
  {
    var cx, cy := Centered(x), Centered(y);
    CenteredAffine(x, y, a, b);
    DotScaleRight(cx, cx, cy, a);
    DotSelf(cx);
    SumSqScale(cx, cy, a);
  }

  /**
   * The scalar core of the previous lemma: a cross term a * s over the
   * product of the norms sqrt(s) and sqrt(a^2 * s) is exactly one.
   */
  lemma UnitRatio(m: Math, s: real, a: real, cross: real, scaledSq: real, normX: real, normY: real)
    requires SqrtLawful(m)
    requires 0.0 < s && 0.0 < a
    requires cross == a * s && scaledSq == Sq(a) * s
    requires normX == m.sqrt(s) && normY == m.sqrt(scaledSq)
    ensures FloatDiv(cross, Mul(normX, normY)) == Finite(1.0)
  {
    var sx := m.sqrt(s);
    SqrtZeroIff(m, s);
    assert 0.0 <= sx && Sq(sx) == s;
    SqProduct(a, sx);
    MulPositive(a, sx);
    SqrtUnique(m, scaledSq, a * sx);
    var d := sx * (a * sx);
    assert d == a * Sq(sx);
    assert d == cross;
    assert Mul(normX, normY) == d;
    MulPositive(a, s);
    var q := FloatDiv(cross, d);
    QuotientOfSelf(q.value, d);
  }

  /**
   * The statistics of a non-empty, well-formed result set.  Neither Eigen's
   * `minCoeff` nor `mean` is defined on an empty vector, so an empty set is
   * excluded.
   */
  function CalculateAnalytics(results: PredictionResults, m: Math): (a: PredictionAnalytics)
    requires results.WellFormed() && results.numFrames > 0
    ensures a.minFrequency in results.pitches && a.maxFrequency in results.pitches
    ensures forall i :: 0 <= i < results.numFrames ==>
              a.minFrequency <= results.pitches[i] <= a.maxFrequency
    ensures a.sourceData == Some(results)
  {
    DefaultAnalytics.(
      minFrequency := MinCoeff(results.pitches),
      maxFrequency := MaxCoeff(results.pitches),
      meanConfidence := Mean(results.confidences),
      timePitchCorrelation := CalculateCorrelation(results.times, results.pitches, m),
      sourceData := Some(results))
  }

  /** The mean confidence lies between the least and the greatest confidence. */
  lemma MeanConfidenceBounded(results: PredictionResults, m: Math)
    requires results.WellFormed() && results.numFrames > 0
    ensures var a := CalculateAnalytics(results, m);
            && a.minFrequency <= a.maxFrequency
            && MinCoeff(results.confidences) <= a.meanConfidence <= MaxCoeff(results.confidences)
  {
    MeanBetweenMinAndMax(results.confidences);
  }

  /** A steady pitch across several frames has an undefined (NaN) time-pitch correlation. */
  lemma SteadyPitchCorrelationUndefined(results: PredictionResults, m: Math)
    requires SqrtLawful(m)
    requires results.WellFormed() && results.numFrames > 0
    requires Constant(results.pitches)
    ensures CalculateAnalytics(results, m).timePitchCorrelation == NaN
  {
    CorrelationUndefinedIffConstant(results.times, results.pitches, m);
  }
}
