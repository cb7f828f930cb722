/**
 * The floating-point library calls the system makes (`std::pow(2, x)`,
 * `std::sqrt`, `Math.log2`) are not computed here: they are carried as
 * function values, and the few laws the proofs need are stated as
 * predicates that the lemmas assume of them.  Arithmetic itself is over
 * `real`, so rounding is not modelled.
 */
module RealMath {

  /** The abstract numeric library: `pow2(x)` is 2^x, `sqrt` and `log2` as in libm. */
  datatype Math = Math(pow2: real -> real, sqrt: real -> real, log2: real -> real)

  /** 2^x is strictly increasing. */
  ghost predicate Pow2Increasing(m: Math) {
    forall x: real, y: real :: x < y ==> m.pow2(x) < m.pow2(y)
  }

  /** sqrt returns the non-negative square root of a non-negative argument. */
  ghost predicate SqrtLawful(m: Math) {
    forall v: real :: 0.0 <= v ==> 0.0 <= m.sqrt(v) && Sq(m.sqrt(v)) == v
  }

  /** log2(1) == 0. */
  ghost predicate Log2OfOneIsZero(m: Math) {
    m.log2(1.0) == 0.0
  }

  /**
   * An IEEE-754 single-precision result reduced to the cases that matter
   * over the reals: a finite value, NaN, or an infinity.
   */
  datatype FloatValue = Finite(value: real) | NaN | PosInf | NegInf

  /**
   * IEEE division of a finite numerator by a finite, non-negative
   * denominator: 0/0 is NaN and x/0 is an infinity carrying the sign of x.
   */
  function FloatDiv(n: real, d: real): (q: FloatValue)
    ensures q.Finite? <==> d != 0.0
    ensures q.Finite? ==> q.value * d == n
    ensures q.NaN? <==> d == 0.0 && n == 0.0
    ensures q.PosInf? <==> d == 0.0 && n > 0.0
    ensures q.NegInf? <==> d == 0.0 && n < 0.0
  {
    if d != 0.0 then Finite(n / d)
    else if n == 0.0 then NaN
    else if n > 0.0 then PosInf
    else NegInf
  }

  /**
   * Product and square as functions: facts about the sign of a square are
   * proved once, here, from the sign rules of a product of two operands,
   * and used everywhere else through these lemmas.
   */
  function Mul(a: real, b: real): real {
    a * b
  }

  /** x squared. */
  function Sq(x: real): real {
    Mul(x, x)
  }

  lemma MulPositive(a: real, b: real)
    requires 0.0 < a && 0.0 < b
    ensures 0.0 < Mul(a, b)
  {
  }

  lemma MulNegatives(a: real, b: real)
    requires a < 0.0 && b < 0.0
    ensures 0.0 < Mul(a, b)
  {
  }

  lemma SqPositive(x: real)
    requires x != 0.0
    ensures 0.0 < Sq(x)
  {
    if x > 0.0 {
      MulPositive(x, x);
    } else {
      MulNegatives(x, x);
    }
  }

  lemma SqNonNegative(x: real)
    ensures 0.0 <= Sq(x)
  {
    if x != 0.0 {
      SqPositive(x);
    }
  }

  lemma SqProduct(a: real, b: real)
    ensures Sq(a * b) == Sq(a) * Sq(b)
  {
  }

  /** A lawful sqrt maps exactly zero to zero. */
  lemma SqrtZeroIff(m: Math, v: real)
    requires SqrtLawful(m)
    requires 0.0 <= v
    ensures m.sqrt(v) == 0.0 <==> v == 0.0
  {
    if v == 0.0 {
      SqrtUnique(m, v, 0.0);
    }
  }

  /** A lawful sqrt is determined by its square: any non-negative root of v is sqrt(v). */
  lemma SqrtUnique(m: Math, v: real, r: real)
    requires SqrtLawful(m)
    requires 0.0 <= r && Sq(r) == v
    ensures m.sqrt(v) == r
  {
    var s := m.sqrt(v);
    assert 0.0 <= s && Sq(s) == v;
    assert (s - r) * (s + r) == Sq(s) - Sq(r) == 0.0;
    if s + r != 0.0 {
      assert s - r == (s - r) * (s + r) / (s + r);
    }
  }
}
