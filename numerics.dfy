/**
 * The numeric vocabulary shared by the model: 2-D points in centimetres and the two
 * transcendental operations the source takes from numpy (`np.log10`, and the square root inside
 * `np.linalg.norm`). Dafny's `real` has neither, so they are passed in as function values and
 * their defining laws are stated as predicates that the lemmas require.
 */
module Numerics {

  /** A point (x, y) of the unfolded body map, in centimetres. */
  datatype Point = Point(x: real, y: real)

  /** The decimal logarithm and the square root the model is evaluated with. */
  datatype MathLib = MathLib(log10: real -> real, sqrt: real -> real) {
    ghost predicate Valid() {
      IsLog10(log10) && IsSqrt(sqrt)
    }
  }

  /** Multiplication as a function, so that the product law below has a term to trigger on. */
  function Mul(x: real, y: real): real {
    x * y
  }

  /** `lg` behaves as the decimal logarithm on the positive reals. */
  ghost predicate IsLog10(lg: real -> real) {
    && lg(10.0) == 1.0
    && (forall x, y :: 0.0 < x < y ==> lg(x) < lg(y))
    && (forall x, y {:trigger Mul(x, y)} :: 0.0 < x && 0.0 < y ==> lg(Mul(x, y)) == lg(x) + lg(y))
  }

  /** `sq` is the non-negative square root on the non-negative reals. */
  ghost predicate IsSqrt(sq: real -> real) {
    forall x :: 0.0 <= x ==> 0.0 <= sq(x) && sq(x) * sq(x) == x
  }

  /** The Euclidean norm of the vector (dx, dy), as `np.linalg.norm` computes it. */
  function Norm(m: MathLib, dx: real, dy: real): real {
    m.sqrt(dx * dx + dy * dy)
  }

  lemma Log10OfOne(lg: real -> real)
    requires IsLog10(lg)
    ensures lg(1.0) == 0.0
  {
    assert Mul(1.0, 1.0) == 1.0;
  }

  /** The logarithm is positive exactly above 1 (for positive arguments). */
  lemma Log10Positive(lg: real -> real, x: real)
    requires IsLog10(lg) && 0.0 < x
    ensures lg(x) > 0.0 <==> x > 1.0
  {
    Log10OfOne(lg);
    if x < 1.0 {
      assert lg(x) < lg(1.0);
    }
  }

  lemma Log10Monotone(lg: real -> real, x: real, y: real)
    requires IsLog10(lg) && 0.0 < x <= y
    ensures lg(x) <= lg(y)
  {
  }

  /** The square root of a perfect square is its non-negative root. */
  lemma SqrtOfSquare(sq: real -> real, r: real)
    requires IsSqrt(sq) && 0.0 <= r
    ensures sq(r * r) == r
  {
    var s := sq(r * r);
    if s < r {
      SquareStrictlyMonotone(s, r);
    } else if s > r {
      SquareStrictlyMonotone(r, s);
    }
  }

  lemma SquareStrictlyMonotone(a: real, b: real)
    requires 0.0 <= a < b
    ensures a * a < b * b
  {
    PositiveProduct(b - a, a + b);
    assert (b - a) * (a + b) == b * b - a * a;
  }

  lemma PositiveProduct(x: real, y: real)
    requires 0.0 < x && 0.0 < y
    ensures 0.0 < x * y
  {
  }

  lemma NonNegativeProduct(x: real, y: real)
    requires 0.0 <= x && 0.0 <= y
    ensures 0.0 <= x * y
  {
  }

  lemma SquareNonNegative(x: real)
    ensures 0.0 <= x * x
  {
    if x < 0.0 {
      PositiveProduct(-x, -x);
    }
  }
}
