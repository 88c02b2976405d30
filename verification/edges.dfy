/**
 The edge policy both simulations share (`Koi.checkEdges` and
 `Mover.checkEdges`): on each axis independently, a coordinate that has left
 the range [0, bound] is put back on the wall it crossed and the matching
 velocity component is reversed. A coordinate inside the range is left alone.
 */
module Edges {
  import opened Vectors

  /** Location and velocity, the two vectors `checkEdges` reads and writes. */
  datatype Motion = Motion(location: Vec, velocity: Vec)

  predicate InRange(p: real, bound: real) {
    0.0 <= p <= bound
  }

  predicate InBounds(location: Vec, width: real, height: real) {
    InRange(location.x, width) && InRange(location.y, height)
  }

  /** One axis of `checkEdges`: returns the new coordinate and velocity component. */
  function ReflectAxis(p: real, v: real, bound: real): (r: (real, real))
    ensures 0.0 <= bound ==> InRange(r.0, bound)
    ensures InRange(p, bound) ==> r == (p, v)
    ensures p > bound ==> r == (bound, -v)
    ensures p < 0.0 && p <= bound ==> r == (0.0, -v)
  {
    if p > bound || p < 0.0 then
      (if p > bound then bound else 0.0, v * -1.0)
    else
      (p, v)
  }

  function CheckEdges(m: Motion, width: real, height: real): (r: Motion)
    ensures 0.0 <= width && 0.0 <= height ==> InBounds(r.location, width, height)
    ensures InRange(m.location.x, width) ==>
      r.location.x == m.location.x && r.velocity.x == m.velocity.x
    ensures InRange(m.location.y, height) ==>
      r.location.y == m.location.y && r.velocity.y == m.velocity.y
    ensures !InRange(m.location.x, width) ==>
      r.velocity.x == -m.velocity.x && (r.location.x == 0.0 || r.location.x == width)
    ensures !InRange(m.location.y, height) ==>
      r.velocity.y == -m.velocity.y && (r.location.y == 0.0 || r.location.y == height)
    ensures m.location.x > width ==> r.location.x == width
    ensures m.location.x < 0.0 <= width ==> r.location.x == 0.0
    ensures m.location.y > height ==> r.location.y == height
    ensures m.location.y < 0.0 <= height ==> r.location.y == 0.0
  {
    var (x, vx) := ReflectAxis(m.location.x, m.velocity.x, width);
    var (y, vy) := ReflectAxis(m.location.y, m.velocity.y, height);
    Motion(Vec(x, y), Vec(vx, vy))
  }

  /** A location already inside the bounds is a fixed point of the edge check. */
  lemma CheckEdgesInside(m: Motion, width: real, height: real)
    requires InBounds(m.location, width, height)
    ensures CheckEdges(m, width, height) == m
  {
  }

  /** Checking the edges a second time changes nothing. */
  lemma CheckEdgesIdempotent(m: Motion, width: real, height: real)
    requires 0.0 <= width && 0.0 <= height
    ensures CheckEdges(CheckEdges(m, width, height), width, height) == CheckEdges(m, width, height)
  {
    CheckEdgesInside(CheckEdges(m, width, height), width, height);
  }

  /** Reversing velocity components keeps the speed. */
  lemma CheckEdgesKeepsSpeed(m: Motion, width: real, height: real)
    ensures MagSq(CheckEdges(m, width, height).velocity) == MagSq(m.velocity)
  {
    var v := m.velocity;
    var w := CheckEdges(m, width, height).velocity;
    NegSquare(v.x, w.x);
    NegSquare(v.y, w.y);
  }

  lemma NegSquare(a: real, b: real)
    requires b == a || b == -a
    ensures b * b == a * a
  {
  }
}
