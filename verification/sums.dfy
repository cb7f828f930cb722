/**
 * Reductions over real vectors, as Eigen computes them (`sum`, `mean`,
 * `squaredNorm`, `minCoeff`, `maxCoeff`) and as the accumulation loops of
 * the source compute them, with the algebra the proofs about
 * normalisation, correlation and downmixing rest on.
 */
module Sums {

  import opened RealMath

  /** Sum of the elements. */
  function Sum(xs: seq<real>): real
  {
    if |xs| == 0 then 0.0 else xs[0] + Sum(xs[1..])
  }

  /** Arithmetic mean; Eigen's `mean()` is undefined on an empty vector. */
  function Mean(xs: seq<real>): real
    requires |xs| > 0
  {
    Sum(xs) / (|xs| as real)
  }

  /** Inner product of two vectors of the same length; `Dot(u, u)` is Eigen's `squaredNorm()`. */
  function Dot(u: seq<real>, v: seq<real>): real
    requires |u| == |v|
  {
    if |u| == 0 then 0.0 else u[0] * v[0] + Dot(u[1..], v[1..])
  }

  /** The vector with its mean removed (DC removal). */
  function Centered(xs: seq<real>): (c: seq<real>)
    requires |xs| > 0
    ensures |c| == |xs|
    ensures forall i :: 0 <= i < |xs| ==> c[i] == xs[i] - Mean(xs)
  {
    var mean := Mean(xs);
    seq(|xs|, i requires 0 <= i < |xs| => xs[i] - mean)
  }

  /** Every element equals every other. */
  predicate Constant(xs: seq<real>) {
    forall i, j :: 0 <= i < |xs| && 0 <= j < |xs| ==> xs[i] == xs[j]
  }

  /** Eigen's `minCoeff()`: the least element, which is one of the elements. */
  function MinCoeff(xs: seq<real>): (m: real)
    requires |xs| > 0
    ensures m in xs
    ensures forall i :: 0 <= i < |xs| ==> m <= xs[i]
  {
    if |xs| == 1 then xs[0]
    else
      var rest := MinCoeff(xs[1..]);
      if xs[0] < rest then xs[0] else rest
  }

  /** Eigen's `maxCoeff()`: the greatest element, which is one of the elements. */
  function MaxCoeff(xs: seq<real>): (m: real)
    requires |xs| > 0
    ensures m in xs
    ensures forall i :: 0 <= i < |xs| ==> xs[i] <= m
  {
    if |xs| == 1 then xs[0]
    else
      var rest := MaxCoeff(xs[1..]);
      if xs[0] > rest then xs[0] else rest
  }

  /** Summing an affine image: sum(a*x + b) == a*sum(x) + n*b. */
  lemma {:induction false} SumAffine(xs: seq<real>, ys: seq<real>, a: real, b: real)
    requires |ys| == |xs|
    requires forall i :: 0 <= i < |xs| ==> ys[i] == a * xs[i] + b
    ensures Sum(ys) == a * Sum(xs) + (|xs| as real) * b
  {
    if |xs| > 0 {
      SumAffine(xs[1..], ys[1..], a, b);
    }
  }

  /** A vector of n copies of v sums to n*v. */
  lemma SumConstant(xs: seq<real>, v: real)
    requires forall i :: 0 <= i < |xs| ==> xs[i] == v
    ensures Sum(xs) == (|xs| as real) * v
  {
    SumAffine(xs, xs, 0.0, v);
  }

  /** The elements of a vector with its mean removed add up to zero. */
  lemma CenteredSumsToZero(xs: seq<real>)
    requires |xs| > 0
    ensures Sum(Centered(xs)) == 0.0
  {
    var n := |xs| as real;
    SumAffine(xs, Centered(xs), 1.0, -Mean(xs));
    assert n * (Sum(xs) / n) == Sum(xs);
  }

  /** The mean of a vector lies between its least and greatest element. */
  lemma MeanBetweenMinAndMax(xs: seq<real>)
    requires |xs| > 0
    ensures MinCoeff(xs) <= Mean(xs) <= MaxCoeff(xs)
  {
    MeanAtLeast(xs, MinCoeff(xs));
    MeanAtMost(xs, MaxCoeff(xs));
  }

  lemma MeanAtLeast(xs: seq<real>, lo: real)
    requires |xs| > 0
    requires forall i :: 0 <= i < |xs| ==> lo <= xs[i]
    ensures lo <= Mean(xs)
  {
    var n, s := |xs| as real, Sum(xs);
    SumLowerBound(xs, lo);
    assert s / n - lo == (s - n * lo) / n;
  }

  lemma MeanAtMost(xs: seq<real>, hi: real)
    requires |xs| > 0
    requires forall i :: 0 <= i < |xs| ==> xs[i] <= hi
    ensures Mean(xs) <= hi
  {
    var n, s := |xs| as real, Sum(xs);
    SumUpperBound(xs, hi);
    assert hi - s / n == (n * hi - s) / n;
  }

  lemma {:induction false} SumLowerBound(xs: seq<real>, lo: real)
    requires forall i :: 0 <= i < |xs| ==> lo <= xs[i]
    ensures (|xs| as real) * lo <= Sum(xs)
  {
    if |xs| > 0 {
      SumLowerBound(xs[1..], lo);
    }
  }

  lemma {:induction false} SumUpperBound(xs: seq<real>, hi: real)
    requires forall i :: 0 <= i < |xs| ==> xs[i] <= hi
    ensures Sum(xs) <= (|xs| as real) * hi
  {
    if |xs| > 0 {
      SumUpperBound(xs[1..], hi);
    }
  }

  /** The inner product is symmetric. */
  lemma {:induction false} DotSymmetric(u: seq<real>, v: seq<real>)
    requires |u| == |v|
    ensures Dot(u, v) == Dot(v, u)
  {
    if |u| > 0 {
      DotSymmetric(u[1..], v[1..]);
    }
  }

  /** Scaling the right operand scales the inner product. */
  lemma {:induction false} DotScaleRight(u: seq<real>, v: seq<real>, w: seq<real>, k: real)
    requires |u| == |v| == |w|
    requires forall i :: 0 <= i < |v| ==> w[i] == k * v[i]
    ensures Dot(u, w) == k * Dot(u, v)
  {
    if |u| > 0 {
      DotScaleRight(u[1..], v[1..], w[1..], k);
      assert u[0] * w[0] == k * (u[0] * v[0]);
    }
  }

  /** Sum of squares; Eigen's `squaredNorm()`. */
  function SumSq(u: seq<real>): (s: real)
    ensures 0.0 <= s
  {
    if |u| == 0 then 0.0
    else
      SqNonNegative(u[0]);
      Sq(u[0]) + SumSq(u[1..])
  }

  /** A vector with a non-zero element has a positive squared norm. */
  lemma {:induction false} SumSqPositive(u: seq<real>, i: int)
    requires 0 <= i < |u| && u[i] != 0.0
    ensures 0.0 < SumSq(u)
  {
    if i == 0 {
      SqPositive(u[0]);
    } else {
      SumSqPositive(u[1..], i - 1);
    }
  }

  /** The zero vector has squared norm zero. */
  lemma {:induction false} SumSqOfZeros(u: seq<real>)
    requires forall i :: 0 <= i < |u| ==> u[i] == 0.0
    ensures SumSq(u) == 0.0
  {
    if |u| > 0 {
      SumSqOfZeros(u[1..]);
    }
  }

  /** Scaling a vector by k scales its squared norm by k squared. */
  lemma {:induction false} SumSqScale(v: seq<real>, w: seq<real>, k: real)
    requires |v| == |w|
    requires forall i :: 0 <= i < |v| ==> w[i] == k * v[i]
    ensures SumSq(w) == Sq(k) * SumSq(v)
  {
    if |v| > 0 {
      SumSqScale(v[1..], w[1..], k);
      SqProduct(k, v[0]);
    }
  }

  /** The inner product of a vector with itself is its squared norm. */
  lemma {:induction false} DotSelf(u: seq<real>)
    ensures Dot(u, u) == SumSq(u)
  {
    if |u| > 0 {
      DotSelf(u[1..]);
    }
  }

  /** The inner product with a zero vector is zero. */
  lemma {:induction false} DotZeroLeft(u: seq<real>, v: seq<real>)
    requires |u| == |v|
    requires forall i :: 0 <= i < |u| ==> u[i] == 0.0
    ensures Dot(u, v) == 0.0
  {
    if |u| > 0 {
      DotZeroLeft(u[1..], v[1..]);
    }
  }

  /** A vector is constant exactly when removing its mean leaves zeros. */
  lemma CenteredZeroIffConstant(xs: seq<real>)
    requires |xs| > 0
    ensures Constant(xs) <==> forall i :: 0 <= i < |xs| ==> Centered(xs)[i] == 0.0
  {
    var c := Centered(xs);
    if Constant(xs) {
      SumConstant(xs, xs[0]);
      assert Mean(xs) == xs[0];
    }
    if forall i :: 0 <= i < |xs| ==> c[i] == 0.0 {
      forall i, j | 0 <= i < |xs| && 0 <= j < |xs|
        ensures xs[i] == xs[j]
      {
        assert c[i] == 0.0 && c[j] == 0.0;
      }
    }
  }

  /** Extending both operands by one element adds that element's product. */
  lemma {:induction false} DotSnoc(u: seq<real>, v: seq<real>, i: int)
    requires |u| == |v| && 0 <= i < |u|
    ensures Dot(u[..i + 1], v[..i + 1]) == Dot(u[..i], v[..i]) + Mul(u[i], v[i])
  {
    if i > 0 {
      DotSnoc(u[1..], v[1..], i - 1);
      assert u[..i + 1][1..] == u[1..][..i];
      assert v[..i + 1][1..] == v[1..][..i];
      assert u[..i][1..] == u[1..][..i - 1];
      assert v[..i][1..] == v[1..][..i - 1];
    }
  }

  /** Extending a vector by one element adds that element's square. */
  lemma {:induction false} SumSqSnoc(u: seq<real>, i: int)
    requires 0 <= i < |u|
    ensures SumSq(u[..i + 1]) == SumSq(u[..i]) + Sq(u[i])
  {
    if i > 0 {
      SumSqSnoc(u[1..], i - 1);
      assert u[..i + 1][1..] == u[1..][..i];
      assert u[..i][1..] == u[1..][..i - 1];
    }
  }

  /** Extending a vector by one element adds that element to the sum. */
  lemma {:induction false} SumSnoc(xs: seq<real>, i: int)
    requires 0 <= i < |xs|
    ensures Sum(xs[..i + 1]) == Sum(xs[..i]) + xs[i]
  {
    if i > 0 {
      SumSnoc(xs[1..], i - 1);
      assert xs[..i + 1][1..] == xs[1..][..i];
      assert xs[..i][1..] == xs[1..][..i - 1];
    }
  }
}
