/**
 Facts about real multiplication that the vector lemmas rest on. The solver
 loses a strict inequality on a square once the product is tied to another
 term, so each fact that yields a product takes the product as a parameter
 `s` and callers pass the term they care about.
 */
module Reals {

  lemma SquareNonNegative(a: real)
    ensures a * a >= 0.0
  {
  }

  /** A product `s` of two positive reals is positive. */
  lemma ProductOfPositives(a: real, b: real, s: real)
    requires a > 0.0 && b > 0.0 && s == a * b
    ensures s > 0.0
  {
  }

  /** A product `s` of two negative reals is positive. */
  lemma ProductOfNegatives(a: real, b: real, s: real)
    requires a < 0.0 && b < 0.0 && s == a * b
    ensures s > 0.0
  {
  }

  /** The square `s` of a non-zero real is positive. */
  lemma SquarePositive(a: real, s: real)
    requires a != 0.0 && s == a * a
    ensures s > 0.0
  {
    if a > 0.0 {
      ProductOfPositives(a, a, s);
    } else {
      ProductOfNegatives(a, a, s);
    }
  }

  /** A sum of two squares `s`, one of them of a non-zero number, is positive. */
  lemma SumOfSquaresPositive(x: real, y: real, s: real)
    requires s == x * x + y * y
    requires x != 0.0 || y != 0.0
    ensures s > 0.0
  {
    var p := x * x;
    var q := y * y;
    SquareNonNegative(x);
    SquareNonNegative(y);
    if x != 0.0 {
      SquarePositive(x, p);
    } else {
      SquarePositive(y, q);
    }
    assert s == p + q;
  }

  lemma RootOfZero(m: real, q: real)
    requires m >= 0.0 && m * m == q && q == 0.0
    ensures m == 0.0
  {
    if m != 0.0 {
      SquarePositive(m, q);
    }
  }

  lemma RootOfPositive(m: real, q: real)
    requires m >= 0.0 && m * m == q && q > 0.0
    ensures m > 0.0
  {
    if m == 0.0 {
      assert false;
    }
  }

  /** Two non-negative reals with the same square are equal. */
  lemma SquareInjective(a: real, b: real)
    requires a >= 0.0 && b >= 0.0
    requires a * a == b * b
    ensures a == b
  {
    if a < b {
      SquareLess(a, b);
    } else if b < a {
      SquareLess(b, a);
    }
  }

  lemma SquareLess(a: real, b: real)
    requires 0.0 <= a < b
    ensures a * a < b * b
  {
    var s := (b - a) * (b + a);
    ProductOfPositives(b - a, b + a, s);
    assert s == b * b - a * a;
  }

  /** A product `s` of two non-negative reals is non-negative. */
  lemma ProductNonNegative(a: real, b: real, s: real)
    requires a >= 0.0 && b >= 0.0 && s == a * b
    ensures s >= 0.0
  {
  }

  /** A product `s` of a non-positive and a non-negative real is non-positive. */
  lemma ProductNonPositive(a: real, b: real, s: real)
    requires a <= 0.0 && b >= 0.0 && s == a * b
    ensures s <= 0.0
  {
  }

  /** A product `s` of three non-negative reals is non-negative. */
  lemma TripleProduct(a: real, b: real, c: real, s: real)
    requires s == a * b * c
    ensures a >= 0.0 && b >= 0.0 && c >= 0.0 ==> s >= 0.0
  {
    if a >= 0.0 && b >= 0.0 && c >= 0.0 {
      ProductNonNegative(a, b, a * b);
      ProductNonNegative(a * b, c, s);
    }
  }

  /** A product `s` of three positive reals is positive. */
  lemma TripleProductPositive(a: real, b: real, c: real, s: real)
    requires s == a * b * c
    ensures a > 0.0 && b > 0.0 && c > 0.0 ==> s > 0.0
  {
    if a > 0.0 && b > 0.0 && c > 0.0 {
      ProductOfPositives(a, b, a * b);
      ProductOfPositives(a * b, c, s);
    }
  }

  /** A quotient `s` of a positive real by a positive one is positive. */
  lemma QuotientPositive(q: real, d: real, s: real)
    requires d > 0.0 && s == q / d
    ensures q > 0.0 ==> s > 0.0
  {
  }

  /** A quotient `s` of a non-negative real by a positive one is non-negative. */
  lemma QuotientNonNegative(q: real, d: real, s: real)
    requires d > 0.0 && s == q / d
    ensures q >= 0.0 ==> s >= 0.0
  {
  }
}
