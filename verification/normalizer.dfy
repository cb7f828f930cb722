/**
 * Per-window normalisation before the model sees it (src/inference.cpp,
 * `normalize_audio`): remove the mean, then scale to unit variance unless
 * the window is practically silent.
 */
module Normalizer {

  import opened RealMath
  import opened Sums

  /** Standard deviations at or below 1e-10 leave the window unscaled. */
  const StdDevFloor: real := 0.0000000001

  /** Population variance of a window. */
  function Variance(frame: seq<real>): (v: real)
    requires |frame| > 0
    ensures 0.0 <= v
  {
    SumSq(Centered(frame)) / (|frame| as real)
  }

  /** Standard deviation of a window, through the supplied square root. */
  function StdDev(frame: seq<real>, m: Math): real
    requires |frame| > 0
  {
    m.sqrt(Variance(frame))
  }

  /** The normalised window: centred, and multiplied by 1 / stddev when that is above the floor. */
  function NormalizeAudio(frame: seq<real>, m: Math): (r: seq<real>)
    requires |frame| > 0
    ensures |r| == |frame|
  {
    var centered := Centered(frame);
    var sd := StdDev(frame, m);
    if sd > StdDevFloor then
      var inv := 1.0 / sd;
      seq(|centered|, i requires 0 <= i < |centered| => centered[i] * inv)
    else
      centered
  }

  /** The factor the centred window is multiplied by: 1 / stddev, or 1 when practically silent. */
  function Gain(frame: seq<real>, m: Math): (k: real)
    requires |frame| > 0
    ensures 0.0 < k
    ensures StdDev(frame, m) > StdDevFloor ==> k * StdDev(frame, m) == 1.0
    ensures StdDev(frame, m) <= StdDevFloor ==> k == 1.0
  {
    var sd := StdDev(frame, m);
    if sd > StdDevFloor then 1.0 / sd else 1.0
  }

  /** Every sample is shifted by the mean and scaled by one common positive factor. */
  lemma NormalizeAudioIsAffine(frame: seq<real>, m: Math)
    requires |frame| > 0
    ensures forall i :: 0 <= i < |frame| ==>
              NormalizeAudio(frame, m)[i] == Gain(frame, m) * (frame[i] - Mean(frame))
  {
  }

  /** The normalised window is the centred window times the gain. */
  lemma ScalesCentered(frame: seq<real>, m: Math)
    requires |frame| > 0
    ensures forall i :: 0 <= i < |frame| ==> NormalizeAudio(frame, m)[i] == Gain(frame, m) * Centered(frame)[i]
  {
    NormalizeAudioIsAffine(frame, m);
  }

  /** A practically silent window only loses its mean: it is centred and not scaled. */
  lemma SilentWindowOnlyCentred(frame: seq<real>, m: Math)
    requires |frame| > 0
    requires StdDev(frame, m) <= StdDevFloor
    ensures NormalizeAudio(frame, m) == Centered(frame)
  {
  }

  /** A normalised window has zero mean. */
  lemma NormalizedSumsToZero(frame: seq<real>, m: Math)
    requires |frame| > 0
    ensures Sum(NormalizeAudio(frame, m)) == 0.0
  {
    var c := Centered(frame);
    var r := NormalizeAudio(frame, m);
    CenteredSumsToZero(frame);
    var sd := StdDev(frame, m);
    if sd > StdDevFloor {
      SumAffine(c, r, 1.0 / sd, 0.0);
    }
  }

  /** A window whose samples are all equal normalises to silence. */
  lemma ConstantNormalizesToZeros(frame: seq<real>, m: Math)
    requires |frame| > 0
    requires Constant(frame)
    ensures forall i :: 0 <= i < |frame| ==> NormalizeAudio(frame, m)[i] == 0.0
  {
    CenteredZeroIffConstant(frame);
  }

  /**
   * A window that is not practically silent comes out with unit variance,
   * given a square root that is lawful on non-negative inputs.
   */
  lemma NormalizedHasUnitVariance(frame: seq<real>, m: Math)
    requires SqrtLawful(m)
    requires |frame| > 0
    requires StdDev(frame, m) > StdDevFloor
    ensures Variance(NormalizeAudio(frame, m)) == 1.0
  {
    var n := |frame| as real;
    var c := Centered(frame);
    var r := NormalizeAudio(frame, m);
    var sd := StdDev(frame, m);
    var inv := Gain(frame, m);
    var total := SumSq(c);
    var scaled := SumSq(r);
    assert Sq(sd) == total / n by {
      assert Variance(frame) == total / n;
    }
    assert inv * sd == 1.0;
    assert scaled == Sq(inv) * total by {
      ScalesCentered(frame, m);
      SumSqScale(c, r, inv);
    }
    assert Variance(r) == scaled / n by {
      NormalizedSumsToZero(frame, m);
      CenteredOfZeroMean(r);
    }
    UnitScaling(total, scaled, n, sd, inv);
  }

  /** Scaling a total whose mean is sd^2 by (1/sd)^2 leaves a mean of 1. */
  lemma UnitScaling(total: real, scaled: real, n: real, sd: real, inv: real)
    requires 0.0 < n
    requires Sq(sd) == total / n
    requires inv * sd == 1.0
    requires scaled == Sq(inv) * total
    ensures scaled / n == 1.0
  {
    SqProduct(inv, sd);
    assert Sq(inv) * Sq(sd) == 1.0;
    assert scaled / n == Sq(inv) * (total / n);
  }

  /** Centring a vector that already has zero mean changes nothing. */
  lemma CenteredOfZeroMean(xs: seq<real>)
    requires |xs| > 0
    requires Sum(xs) == 0.0
    ensures Centered(xs) == xs
  {
  }
}
