/**
 The falling movers sketch: `Mover` with the same accumulator and edge
 policy as the koi but no speed clamp, the `Liquid` rectangle, the friction
 and drag helpers, and the per-ball force sequence of one frame. The canvas
 size (`innerWidth`, `innerHeight`) and the mouse state are parameters.
 */
module DayOne {
  import opened Reals
  import opened Vectors
  import Edges

  datatype Mover = Mover(location: Vec, velocity: Vec, acceleration: Vec, mass: real, maxSpeed: real)

  datatype Liquid = Liquid(x: real, y: real, w: real, h: real, c: real)

  const GravityAcc := Vec(0.0, 0.3)
  const Wind := Vec(1.0, 0.0)
  const FrictionConst := 0.01

  /** The density and drag coefficient `applyLiquid` always passes to `calculateDrag`. */
  const LiquidDensity := 10.0
  const DragCoefficient := 0.1

  /** The constructor: no acceleration, and a `maxSpeed` of 10 that nothing reads. */
  function NewMover(location: Vec, velocity: Vec, mass: real): (m: Mover)
    ensures m.location == location && m.velocity == velocity && m.mass == mass
    ensures m.acceleration == Zero && m.maxSpeed == 10.0
  {
    Mover(location, velocity, Zero, mass, 10.0)
  }

  /** The sketch's liquid: the bottom quarter of a `width` by `height` canvas. */
  function SketchLiquid(width: real, height: real): (l: Liquid)
    ensures l.x == 0.0 && l.w == width && l.c == 50.0
    ensures l.y + l.h == height && l.h * 4.0 == height
  {
    Liquid(0.0, height * 3.0 / 4.0, width, height / 4.0, 50.0)
  }

  /** `applyForce`: the accumulator grows by exactly `force / mass`. */
  function ApplyForce(m: Mover, force: Vec): (r: Mover)
    requires m.mass > 0.0
    ensures Scale(Sub(r.acceleration, m.acceleration), m.mass) == force
    ensures r == m.(acceleration := r.acceleration)
  {
    m.(acceleration := Accumulate(m.acceleration, force, m.mass))
  }

  /** `update`: velocity takes the acceleration, location takes the velocity, the accumulator is cleared. */
  function Update(m: Mover): (r: Mover)
    ensures r.acceleration == Zero
    ensures r.location == Add(m.location, r.velocity)
    ensures Sub(r.velocity, m.velocity) == m.acceleration
    ensures r == m.(location := r.location, velocity := r.velocity, acceleration := Zero)
  {
    var v := Add(m.velocity, m.acceleration);
    m.(velocity := v, location := Add(m.location, v), acceleration := Scale(m.acceleration, 0.0))
  }

  /** `checkEdges` against the window size, with the shared edge policy. */
  function CheckEdges(m: Mover, innerWidth: real, innerHeight: real): (r: Mover)
    ensures 0.0 <= innerWidth && 0.0 <= innerHeight ==>
      Edges.InBounds(r.location, innerWidth, innerHeight)
    ensures Edges.Motion(r.location, r.velocity)
      == Edges.CheckEdges(Edges.Motion(m.location, m.velocity), innerWidth, innerHeight)
    ensures r == m.(location := r.location, velocity := r.velocity)
  {
    var e := Edges.CheckEdges(Edges.Motion(m.location, m.velocity), innerWidth, innerHeight);
    m.(location := e.location, velocity := e.velocity)
  }

  /** Strictly inside the liquid's rectangle: its border does not count. */
  predicate Inside(location: Vec, liquid: Liquid) {
    liquid.x < location.x < liquid.x + liquid.w && liquid.y < location.y < liquid.y + liquid.h
  }

  /** `calculateFraction`: the reversed unit velocity, scaled by `frictionC`. */
  function CalculateFraction(sqrt: real -> real, m: Mover, frictionC: real): (f: Vec)
    requires IsSqrt(sqrt)
    ensures f == Scale(Neg(Normalize(sqrt, m.velocity)), frictionC)
  {
    var friction := Scale(m.velocity, -1.0);
    NormalizeNeg(sqrt, m.velocity);
    Scale(Normalize(sqrt, friction), frictionC)
  }

  /** `calculateDrag`: the reversed unit velocity, scaled by `0.5 density |v|^2 dragC`. */
  function CalculateDrag(sqrt: real -> real, m: Mover, liquidDensity: real, dragC: real): (f: Vec)
    requires IsSqrt(sqrt)
    ensures var speed := Mag(sqrt, m.velocity);
      f == Scale(Neg(Normalize(sqrt, m.velocity)), 0.5 * liquidDensity * speed * speed * dragC)
  {
    var speed := Mag(sqrt, m.velocity);
    var dragMagnitude := liquidDensity * speed * speed * dragC;
    var u := Normalize(sqrt, m.velocity);
    ScaleScale(u, dragMagnitude, -0.5);
    ScaleScale(u, -1.0, 0.5 * dragMagnitude);
    HalfReversed(dragMagnitude);
    Scale(Scale(u, dragMagnitude), -0.5)
  }

  lemma HalfReversed(k: real)
    ensures k * -0.5 == -1.0 * (0.5 * k)
  {
  }

  /** `applyLiquid`: drag with density 10 and coefficient 0.1, only strictly inside the liquid. */
  function ApplyLiquid(sqrt: real -> real, m: Mover, liquid: Liquid): (r: Mover)
    requires IsSqrt(sqrt) && m.mass > 0.0
    ensures Inside(m.location, liquid) ==>
      r == ApplyForce(m, CalculateDrag(sqrt, m, LiquidDensity, DragCoefficient))
    ensures !Inside(m.location, liquid) ==> r == m
  {
    if liquid.x < m.location.x && m.location.x < liquid.x + liquid.w
      && liquid.y < m.location.y && m.location.y < liquid.y + liquid.h
    then
      var drag := CalculateDrag(sqrt, m, 10.0, 0.1);
      ApplyForce(m, drag)
    else
      m
  }

  /** The forces of one frame, in the sketch's order: gravity, friction, drag, then wind while the mouse is pressed. */
  function Accelerate(sqrt: real -> real, m: Mover, liquid: Liquid, mousePressed: bool): (r: Mover)
    requires IsSqrt(sqrt) && m.mass > 0.0
    ensures r.location == m.location && r.velocity == m.velocity
    ensures r.mass == m.mass && r.maxSpeed == m.maxSpeed
  {
    var afterGravity := ApplyForce(m, Scale(GravityAcc, m.mass));
    var afterFriction := ApplyForce(afterGravity, CalculateFraction(sqrt, afterGravity, FrictionConst));
    var afterLiquid := ApplyLiquid(sqrt, afterFriction, liquid);
    if mousePressed then ApplyForce(afterLiquid, Wind) else afterLiquid
  }

  /** One ball's share of `p.draw`: the forces, then `update`, then `checkEdges`. */
  function BallStep(sqrt: real -> real, m: Mover, liquid: Liquid, mousePressed: bool,
                    innerWidth: real, innerHeight: real): (r: Mover)
    requires IsSqrt(sqrt) && m.mass > 0.0
    ensures r.acceleration == Zero && r.mass == m.mass && r.maxSpeed == m.maxSpeed
    ensures 0.0 <= innerWidth && 0.0 <= innerHeight ==>
      Edges.InBounds(r.location, innerWidth, innerHeight)
  {
    CheckEdges(Update(Accelerate(sqrt, m, liquid, mousePressed)), innerWidth, innerHeight)
  }

  predicate AllMassive(balls: seq<Mover>) {
    forall j :: 0 <= j < |balls| ==> balls[j].mass > 0.0
  }

  /** `balls.forEach(...)`: each ball takes its step; balls do not interact. */
  function Frame(sqrt: real -> real, balls: seq<Mover>, liquid: Liquid, mousePressed: bool,
                 innerWidth: real, innerHeight: real): (r: seq<Mover>)
    requires IsSqrt(sqrt) && AllMassive(balls)
    ensures |r| == |balls|
    ensures forall j :: 0 <= j < |balls| ==>
      r[j] == BallStep(sqrt, balls[j], liquid, mousePressed, innerWidth, innerHeight)
    decreases |balls|
  {
    if |balls| == 0 then
      []
    else
      [BallStep(sqrt, balls[0], liquid, mousePressed, innerWidth, innerHeight)]
        + Frame(sqrt, balls[1..], liquid, mousePressed, innerWidth, innerHeight)
  }

  /** Gravity is applied as a force scaled by mass, so the acceleration grows by exactly `gravityAcc`. */
  lemma GravityIgnoresMass(m: Mover)
    requires m.mass > 0.0
    ensures ApplyForce(m, Scale(GravityAcc, m.mass)).acceleration == Add(m.acceleration, GravityAcc)
  {
  }

  /** `maxSpeed` plays no part in `update`: there is no clamp. */
  lemma UpdateIgnoresMaxSpeed(m: Mover, s: real)
    ensures Update(m.(maxSpeed := s)) == Update(m).(maxSpeed := s)
  {
  }

  /** A mover can leave `update` faster than its `maxSpeed`. */
  lemma NoSpeedClamp(sqrt: real -> real, location: Vec, speed: real, mass: real)
    requires IsSqrt(sqrt) && speed > 10.0
    ensures var m := NewMover(location, Vec(speed, 0.0), mass);
      Mag(sqrt, Update(m).velocity) > m.maxSpeed
  {
    var m := NewMover(location, Vec(speed, 0.0), mass);
    var v := Update(m).velocity;
    assert v == Vec(speed, 0.0);
    assert MagSq(v) == speed * speed;
    MagUnique(sqrt, v, speed);
  }

  /** An object at rest feels no friction. */
  lemma FrictionAtRest(sqrt: real -> real, m: Mover, frictionC: real)
    requires IsSqrt(sqrt) && m.velocity == Zero
    ensures CalculateFraction(sqrt, m, frictionC) == Zero
  {
    ScaleZero(m.velocity, -1.0);
    ScaleZero(Normalize(sqrt, Scale(m.velocity, -1.0)), frictionC);
  }

  /** For a moving object the friction force points against the velocity: its dot product with it is `-frictionC |v|`. */
  lemma FrictionOpposes(sqrt: real -> real, m: Mover, frictionC: real)
    requires IsSqrt(sqrt) && m.velocity != Zero
    ensures Dot(CalculateFraction(sqrt, m, frictionC), m.velocity) == -(frictionC * Mag(sqrt, m.velocity))
  {
    ReversedUnitDot(sqrt, m.velocity, frictionC);
  }

  /** For a moving object the friction force has magnitude `frictionC`. */
  lemma FrictionMagnitude(sqrt: real -> real, m: Mover, frictionC: real)
    requires IsSqrt(sqrt)
    requires m.velocity != Zero && frictionC >= 0.0
    ensures Mag(sqrt, CalculateFraction(sqrt, m, frictionC)) == frictionC
  {
    var v := m.velocity;
    var u := Normalize(sqrt, v);
    NormalizeUnit(sqrt, v);
    NormalizeNeg(sqrt, v);
    assert Normalize(sqrt, Scale(v, -1.0)) == Neg(u);
    MagSqScale(u, -1.0);
    MagScaledUnit(sqrt, Neg(u), frictionC);
  }

  /** The drag factor `density |v|^2 dragC` is non-negative for a non-negative density and coefficient. */
  lemma DragMagnitudeNonNegative(density: real, speed: real, dragC: real)
    requires density >= 0.0 && speed >= 0.0 && dragC >= 0.0
    ensures density * speed * speed * dragC >= 0.0
  {
    ProductNonNegative(density, speed, density * speed);
    ProductNonNegative(density * speed, speed, density * speed * speed);
    ProductNonNegative(density * speed * speed, dragC, density * speed * speed * dragC);
  }

  /** An object at rest feels no drag. */
  lemma DragAtRest(sqrt: real -> real, m: Mover, density: real, dragC: real)
    requires IsSqrt(sqrt) && m.velocity == Zero
    ensures CalculateDrag(sqrt, m, density, dragC) == Zero
  {
    MagSqZero(m.velocity);
    DragStill(sqrt, m, density, dragC);
    MagSqZero(CalculateDrag(sqrt, m, density, dragC));
  }

  lemma DragStill(sqrt: real -> real, m: Mover, density: real, dragC: real)
    requires IsSqrt(sqrt) && MagSq(m.velocity) == 0.0
    ensures MagSq(CalculateDrag(sqrt, m, density, dragC)) == 0.0
  {
    var u := Normalize(sqrt, m.velocity);
    assert MagSq(u) == 0.0;
    var k := density * Mag(sqrt, m.velocity) * Mag(sqrt, m.velocity) * dragC;
    ScaleScale(u, k, -0.5);
    assert CalculateDrag(sqrt, m, density, dragC) == Scale(u, k * -0.5);
    MagSqScale(u, k * -0.5);
  }

  /** Drag points against the velocity. */
  lemma DragOpposes(sqrt: real -> real, m: Mover, density: real, dragC: real)
    requires IsSqrt(sqrt)
    requires density >= 0.0 && dragC >= 0.0
    ensures Dot(CalculateDrag(sqrt, m, density, dragC), m.velocity) <= 0.0
  {
    var v := m.velocity;
    var u := Normalize(sqrt, v);
    var speed := Mag(sqrt, v);
    var k := density * speed * speed * dragC;
    DragMagnitudeNonNegative(density, speed, dragC);
    ScaleScale(u, k, -0.5);
    DotScale(u, k * -0.5, v);
    NormalizeDot(sqrt, v);
    ProductNonPositive(k * -0.5, speed, Dot(CalculateDrag(sqrt, m, density, dragC), v));
  }

  /** A moving object feels drag of magnitude `0.5 density |v|^2 dragC`. */
  lemma DragMagnitude(sqrt: real -> real, m: Mover, density: real, dragC: real)
    requires IsSqrt(sqrt)
    requires density >= 0.0 && dragC >= 0.0 && m.velocity != Zero
    ensures var speed := Mag(sqrt, m.velocity);
      Mag(sqrt, CalculateDrag(sqrt, m, density, dragC)) == 0.5 * density * speed * speed * dragC
  {
    var v := m.velocity;
    var u := Normalize(sqrt, v);
    var speed := Mag(sqrt, v);
    var k := density * speed * speed * dragC;
    DragMagnitudeNonNegative(density, speed, dragC);
    ScaleScale(u, k, -0.5);
    NormalizeUnit(sqrt, v);
    MagScaledUnitNeg(sqrt, u, k * -0.5);
    assert CalculateDrag(sqrt, m, density, dragC) == Scale(u, k * -0.5);
    Halve(k, Mag(sqrt, CalculateDrag(sqrt, m, density, dragC)));
  }

  lemma Halve(k: real, s: real)
    requires s == -(k * -0.5)
    ensures s == 0.5 * k
  {
  }

  /** The liquid's own `c` field never matters. */
  lemma LiquidIgnoresC(sqrt: real -> real, m: Mover, liquid: Liquid, c: real)
    requires IsSqrt(sqrt) && m.mass > 0.0
    ensures ApplyLiquid(sqrt, m, liquid.(c := c)) == ApplyLiquid(sqrt, m, liquid)
  {
  }

  /** A mover on the liquid's border feels no drag. */
  lemma LiquidBorder(sqrt: real -> real, m: Mover, liquid: Liquid)
    requires IsSqrt(sqrt) && m.mass > 0.0
    requires m.location.x == liquid.x || m.location.y == liquid.y + liquid.h
    ensures ApplyLiquid(sqrt, m, liquid) == m
  {
  }

  /**
   The frame's forces all read the velocity the ball had before `update`: the
   accumulator grows by gravity, friction and (inside the liquid) drag of that
   velocity, plus the wind while the mouse is pressed.
   */
  lemma AccelerateSum(sqrt: real -> real, m: Mover, liquid: Liquid, mousePressed: bool)
    requires IsSqrt(sqrt) && m.mass > 0.0
    ensures Accelerate(sqrt, m, liquid, mousePressed).acceleration
      == Add(Add(Add(Add(m.acceleration, GravityAcc),
                     Div(CalculateFraction(sqrt, m, FrictionConst), m.mass)),
                 if Inside(m.location, liquid)
                 then Div(CalculateDrag(sqrt, m, LiquidDensity, DragCoefficient), m.mass)
                 else Zero),
             if mousePressed then Div(Wind, m.mass) else Zero)
  {
    var g := ApplyForce(m, Scale(GravityAcc, m.mass));
    GravityIgnoresMass(m);
    assert CalculateFraction(sqrt, g, FrictionConst) == CalculateFraction(sqrt, m, FrictionConst);
    var f := ApplyForce(g, CalculateFraction(sqrt, g, FrictionConst));
    assert CalculateDrag(sqrt, f, LiquidDensity, DragCoefficient)
      == CalculateDrag(sqrt, m, LiquidDensity, DragCoefficient);
  }

  /**
   A mover at rest with only gravity acting ends the update with velocity
   `gravityAcc` and its location moved by `gravityAcc`, whatever its mass.
   */
  lemma RestingBallFalls(m: Mover)
    requires m.mass > 0.0 && m.velocity == Zero && m.acceleration == Zero
    ensures Update(ApplyForce(m, Scale(GravityAcc, m.mass))).velocity == GravityAcc
    ensures Update(ApplyForce(m, Scale(GravityAcc, m.mass))).location == Add(m.location, GravityAcc)
  {
    GravityIgnoresMass(m);
  }
}
