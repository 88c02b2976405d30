/**
 Two-dimensional vectors over the reals: the part of p5.Vector that both
 simulations use (sub, add, mult, div, mag, normalize).

 Dafny's reals have no square root. Every operation that needs a magnitude
 therefore takes the square root as a parameter `sqrt`, and `IsSqrt` states
 the two facts the model relies on: the root is non-negative and squares
 back to its argument. Nothing else about `sqrt` is assumed.
 */
module Vectors {
  import opened Reals

  datatype Vec = Vec(x: real, y: real)

  const Zero := Vec(0.0, 0.0)

  function Add(a: Vec, b: Vec): Vec {
    Vec(a.x + b.x, a.y + b.y)
  }

  function Sub(a: Vec, b: Vec): Vec {
    Vec(a.x - b.x, a.y - b.y)
  }

  /** p5's `mult(k)`: every component times `k`. */
  function Scale(a: Vec, k: real): Vec {
    Vec(a.x * k, a.y * k)
  }

  /** p5's `div(k)` for a non-zero `k`. */
  function Div(a: Vec, k: real): (r: Vec)
    requires k != 0.0
    ensures Scale(r, k) == a
  {
    Vec(a.x / k, a.y / k)
  }

  function Neg(a: Vec): Vec {
    Scale(a, -1.0)
  }

  function Dot(a: Vec, b: Vec): real {
    a.x * b.x + a.y * b.y
  }

  /** p5's `magSq`. */
  function MagSq(a: Vec): (r: real)
    ensures r >= 0.0
  {
    SquareNonNegative(a.x);
    SquareNonNegative(a.y);
    a.x * a.x + a.y * a.y
  }

  /** What a square-root function must satisfy on the non-negative reals. */
  ghost predicate IsSqrt(sqrt: real -> real) {
    forall a :: 0.0 <= a ==> 0.0 <= sqrt(a) && sqrt(a) * sqrt(a) == a
  }

  /** p5's `mag`: the square root of `magSq`. */
  function Mag(sqrt: real -> real, a: Vec): (m: real)
    requires IsSqrt(sqrt)
    ensures m >= 0.0 && m * m == MagSq(a)
    ensures m == 0.0 <==> MagSq(a) == 0.0
  {
    var q := MagSq(a);
    var m := sqrt(q);
    if q == 0.0 then
      RootOfZero(m, q);
      m
    else
      RootOfPositive(m, q);
      m
  }

  /**
   p5's `normalize`: scale by one over the magnitude, and leave the zero
   vector alone (p5 skips the scaling when the magnitude is 0; that library
   code is not part of this model, so this is an assumption about it).
   */
  function Normalize(sqrt: real -> real, a: Vec): (u: Vec)
    requires IsSqrt(sqrt)
    ensures MagSq(a) == 0.0 ==> u == a
    ensures MagSq(a) != 0.0 ==> MagSq(u) == 1.0 && Scale(u, Mag(sqrt, a)) == a
  {
    var len := Mag(sqrt, a);
    if len != 0.0 then
      var u := Scale(a, 1.0 / len);
      UnitScale(a, len);
      ScaleInverse(a, len);
      u
    else
      a
  }

  /** The acceleration accumulator of both `applyForce` methods: add `force / mass`. */
  function Accumulate(acc: Vec, force: Vec, mass: real): (r: Vec)
    requires mass > 0.0
    ensures Scale(Sub(r, acc), mass) == force
  {
    Add(acc, Div(force, mass))
  }

  /** Only the zero vector has a zero `magSq`. */
  lemma MagSqPositive(a: Vec)
    requires a != Zero
    ensures MagSq(a) > 0.0
  {
    SumOfSquaresPositive(a.x, a.y, MagSq(a));
  }

  /** `magSq` vanishes exactly on the zero vector. */
  lemma MagSqZero(a: Vec)
    ensures MagSq(a) == 0.0 <==> a == Zero
  {
    if a != Zero {
      MagSqPositive(a);
    }
  }

  /** `mag` vanishes exactly on the zero vector. */
  lemma MagZero(sqrt: real -> real, a: Vec)
    requires IsSqrt(sqrt)
    ensures Mag(sqrt, a) == 0.0 <==> a == Zero
  {
    MagSqZero(a);
  }

  /** `normalize` leaves the zero vector alone, and gives any other vector length 1. */
  lemma NormalizeUnit(sqrt: real -> real, a: Vec)
    requires IsSqrt(sqrt)
    ensures a == Zero ==> Normalize(sqrt, a) == Zero
    ensures a != Zero ==> MagSq(Normalize(sqrt, a)) == 1.0
  {
    MagSqZero(a);
  }

  lemma UnitScale(a: Vec, len: real)
    requires len != 0.0 && len * len == MagSq(a)
    ensures MagSq(Scale(a, 1.0 / len)) == 1.0
  {
    var k := 1.0 / len;
    assert k * len == 1.0;
    calc {
      MagSq(Scale(a, k));
      (a.x * a.x + a.y * a.y) * (k * k);
      (len * len) * (k * k);
      (k * len) * (k * len);
    }
  }

  lemma ScaleInverse(a: Vec, len: real)
    requires len != 0.0
    ensures Scale(Scale(a, 1.0 / len), len) == a
  {
  }

  /** The magnitude is the one non-negative root of `magSq`. */
  lemma MagUnique(sqrt: real -> real, a: Vec, m: real)
    requires IsSqrt(sqrt)
    requires m >= 0.0 && m * m == MagSq(a)
    ensures Mag(sqrt, a) == m
  {
    SquareInjective(Mag(sqrt, a), m);
  }

  lemma AccumulateInverse(acc: Vec, force: Vec, mass: real)
    requires mass > 0.0
    ensures Accumulate(Accumulate(acc, force, mass), Neg(force), mass) == acc
  {
    assert Div(Neg(force), mass) == Neg(Div(force, mass));
  }

  lemma ScaleZero(a: Vec, k: real)
    ensures a == Zero ==> Scale(a, k) == Zero
  {
  }

  lemma AddSub(a: Vec, b: Vec)
    ensures Sub(Add(a, b), a) == b
  {
  }

  lemma ScaleAdd(a: Vec, b: Vec, k: real)
    ensures Scale(Add(a, b), k) == Add(Scale(a, k), Scale(b, k))
  {
  }

  lemma ScaleScale(a: Vec, j: real, k: real)
    ensures Scale(Scale(a, j), k) == Scale(a, j * k)
  {
  }

  lemma DotScale(a: Vec, k: real, b: Vec)
    ensures Dot(Scale(a, k), b) == k * Dot(a, b)
  {
  }

  lemma DotScaleValue(a: Vec, k: real, b: Vec, d: real)
    requires Dot(a, b) == d
    ensures Dot(Scale(a, k), b) == k * d
  {
    DotScale(a, k, b);
  }

  /** Reversing and scaling `a` by `k` turns a dot product `d` with `b` into `-(k d)`. */
  lemma DotReversed(a: Vec, b: Vec, k: real, d: real)
    requires Dot(a, b) == d
    ensures Dot(Scale(Neg(a), k), b) == -(k * d)
  {
    DotScaleValue(a, -1.0, b, d);
    DotScaleValue(Neg(a), k, b, -1.0 * d);
    assert k * (-1.0 * d) == -(k * d);
  }

  lemma MagSqScale(a: Vec, k: real)
    ensures MagSq(Scale(a, k)) == (k * k) * MagSq(a)
  {
  }

  /** Normalizing points along the input: the dot product with it is its magnitude. */
  lemma NormalizeDot(sqrt: real -> real, a: Vec)
    requires IsSqrt(sqrt)
    ensures Dot(Normalize(sqrt, a), a) == Mag(sqrt, a)
  {
    var u := Normalize(sqrt, a);
    var m := Mag(sqrt, a);
    if MagSq(a) != 0.0 {
      calc {
        Dot(u, a);
        { assert Scale(u, m) == a; }
        Dot(u, Scale(u, m));
        { DotScale(u, m, u); }
        m * Dot(u, u);
        m;
      }
    }
  }

  /** The reversed unit vector of a non-zero `a`, scaled by `k`, has dot product `-(k |a|)` with `a`. */
  lemma ReversedUnitDot(sqrt: real -> real, a: Vec, k: real)
    requires IsSqrt(sqrt) && a != Zero
    ensures Dot(Scale(Neg(Normalize(sqrt, a)), k), a) == -(k * Mag(sqrt, a))
  {
    NormalizeDot(sqrt, a);
    DotReversed(Normalize(sqrt, a), a, k, Mag(sqrt, a));
  }

  /** A unit vector scaled by a non-negative `k` has magnitude `k`. */
  lemma MagScaledUnit(sqrt: real -> real, u: Vec, k: real)
    requires IsSqrt(sqrt)
    requires MagSq(u) == 1.0 && k >= 0.0
    ensures Mag(sqrt, Scale(u, k)) == k
  {
    MagSqScale(u, k);
    MagUnique(sqrt, Scale(u, k), k);
  }

  /** A unit vector scaled by a non-positive `k` has magnitude `-k`. */
  lemma MagScaledUnitNeg(sqrt: real -> real, u: Vec, k: real)
    requires IsSqrt(sqrt)
    requires MagSq(u) == 1.0 && k <= 0.0
    ensures Mag(sqrt, Scale(u, k)) == -k
  {
    MagSqScale(u, k);
    assert (-k) * (-k) == k * k;
    MagUnique(sqrt, Scale(u, k), -k);
  }

  /** Normalizing is odd: the negated vector normalizes to the negated unit vector. */
  lemma NormalizeNeg(sqrt: real -> real, a: Vec)
    requires IsSqrt(sqrt)
    ensures Normalize(sqrt, Neg(a)) == Neg(Normalize(sqrt, a))
  {
    var b := Neg(a);
    var m := Mag(sqrt, a);
    MagSqScale(a, -1.0);
    MagUnique(sqrt, b, m);
    if m != 0.0 {
      var k := 1.0 / m;
      ScaleScale(a, -1.0, k);
      ScaleScale(a, k, -1.0);
      assert -1.0 * k == k * -1.0;
    }
  }
}
