/**
 * Turning the model's activation vector into a pitch and a confidence
 * (src/inference.cpp, `get_pitch_from_crepe` and the confidence read-out of
 * the frame loop).
 */
module Decoder {

  import opened Crepe
  import opened RealMath

  /** One activation vector of the model; the model never returns an empty one. */
  type Activation = a: seq<real> | |a| > 0 witness [0.0]

  /** Cents between neighbouring bins: the range spread over the 359 gaps. */
  const PitchConversionFactor: real := ModelRangeCents / (ModelBins - 1.0)
  /** Octaves per cent. */
  const OctaveFactor: real := 1.0 / CentsConversion

  /**
   * Eigen's `maxCoeff(&index)`: the position of a greatest element; on ties
   * the first such position.
   */
  function ArgMax(a: seq<real>): (k: nat)
    requires |a| > 0
    ensures k < |a|
    ensures forall j :: 0 <= j < |a| ==> a[j] <= a[k]
    ensures forall j :: 0 <= j < k ==> a[j] < a[k]
  {
    if |a| == 1 then 0
    else
      var k := ArgMax(a[..|a| - 1]);
      if a[k] < a[|a| - 1] then |a| - 1 else k
  }

  /** Pitch of a bin in cents. */
  function Cents(bin: nat): real {
    ModelBaseCents + (bin as real) * PitchConversionFactor
  }

  /**
   * Frequency of a bin in Hz: 10 * 2^(cents / 1200), with `m.pow2` for 2^x.
   * With an increasing power function no bin lies below the base pitch, and
   * each bin is strictly above the frequency of the bin beneath it.
   */
  function BinPitch(bin: nat, m: Math): (f: real)
    ensures Pow2Increasing(m) ==> BaseFrequency * m.pow2(ModelBaseCents * OctaveFactor) <= f
    ensures Pow2Increasing(m) && 0 < bin ==>
              BaseFrequency * m.pow2(Cents(bin - 1) * OctaveFactor) < f
  {
    assert Cents(0) == ModelBaseCents;
    assert 0 < bin ==> Cents(bin - 1) * OctaveFactor < Cents(bin) * OctaveFactor;
    BaseFrequency * m.pow2(Cents(bin) * OctaveFactor)
  }

  /**
   * The pitch of a frame: the frequency of the winning bin, the first of the
   * greatest activations.
   */
  function GetPitchFromCrepe(a: Activation, m: Math): (f: real)
    ensures exists k :: 0 <= k < |a| && f == BinPitch(k, m)
                        && (forall j :: 0 <= j < |a| ==> a[j] <= a[k])
                        && (forall j :: 0 <= j < k ==> a[j] < a[k])
  {
    var k := ArgMax(a);
    BinPitch(k, m)
  }

  /** The confidence of a frame: the greatest activation. */
  function Confidence(a: Activation): (c: real)
    ensures c in a
    ensures forall j :: 0 <= j < |a| ==> a[j] <= c
  {
    a[ArgMax(a)]
  }

  /** Neighbouring bins are exactly 20 cents apart. */
  lemma BinsTwentyCentsApart(bin: nat)
    ensures Cents(bin + 1) - Cents(bin) == 20.0
  {
  }

  /** The first bin sits at the base pitch, the last at base plus range. */
  lemma BinRange()
    ensures Cents(0) == ModelBaseCents
    ensures Cents(359) == ModelBaseCents + ModelRangeCents
  {
  }

  /** With an increasing power function, higher bins mean higher frequencies. */
  lemma BinPitchIncreasing(i: nat, j: nat, m: Math)
    requires Pow2Increasing(m)
    requires i < j
    ensures BinPitch(i, m) < BinPitch(j, m)
  {
    var lo, hi := Cents(i) * OctaveFactor, Cents(j) * OctaveFactor;
    assert lo < hi by {
      assert Cents(i) < Cents(j);
    }
    assert m.pow2(lo) < m.pow2(hi);
  }

  /** The activation that is 1 in bin k and 0 elsewhere. */
  function OneHot(n: nat, k: nat): (a: Activation)
    requires k < n
    ensures |a| == n && a[k] == 1.0
    ensures forall j :: 0 <= j < n && j != k ==> a[j] == 0.0
  {
    seq(n, j requires 0 <= j < n => if j == k then 1.0 else 0.0)
  }

  /** A one-hot activation decodes to its bin with full confidence. */
  lemma OneHotDecodes(n: nat, k: nat, m: Math)
    requires k < n
    ensures ArgMax(OneHot(n, k)) == k
    ensures GetPitchFromCrepe(OneHot(n, k), m) == BinPitch(k, m)
    ensures Confidence(OneHot(n, k)) == 1.0
  {
  }

  /** On ties the first greatest position wins. */
  lemma ArgMaxFirstOnTies(a: seq<real>, i: nat, j: nat)
    requires i < j < |a|
    requires a[i] == a[j]
    requires forall t :: 0 <= t < |a| ==> a[t] <= a[i]
    ensures ArgMax(a) <= i
  {
  }
}
