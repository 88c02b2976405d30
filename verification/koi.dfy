/**
 The `Koi` class of the predator/prey ecosystem: role constants, the
 softened and range-limited attraction rule, force accumulation, the Euler
 step with its speed clamp, and the edge check on the 900 by 900 canvas.
 Rendering (`getBody`, `display`, the body noise) is not part of this model.
 */
module KoiEcoSystem {
  import opened Reals
  import opened Vectors
  import Edges

  const Width := 900.0
  const Height := 900.0

  datatype Koi = Koi(
    location: Vec,
    velocity: Vec,
    acceleration: Vec,
    mass: real,
    maxSpeed: real,
    g: real,
    isPredator: bool)

  function RoleMaxSpeed(isPredator: bool): real {
    if isPredator then 2.0 else 3.0
  }

  function RoleG(isPredator: bool): real {
    if isPredator then 0.1 else 0.05
  }

  /** What every koi built by the constructor with a positive mass satisfies, and what the simulation keeps. */
  predicate Valid(k: Koi) {
    k.mass > 0.0 && k.maxSpeed == RoleMaxSpeed(k.isPredator) && k.g == RoleG(k.isPredator)
  }

  /** The constructor: a koi starts with no acceleration and its role's constants; it is prey unless told otherwise. */
  function NewKoi(location: Vec, velocity: Vec, mass: real, isPredator: bool := false): (k: Koi)
    ensures k.location == location && k.velocity == velocity && k.mass == mass
    ensures k.isPredator == isPredator
    ensures k.acceleration == Zero
    ensures k.maxSpeed == (if isPredator then 2.0 else 3.0)
    ensures k.g == (if isPredator then 0.1 else 0.05)
    ensures mass > 0.0 ==> Valid(k)
  {
    Koi(location, velocity, Zero, mass, RoleMaxSpeed(isPredator), RoleG(isPredator), isPredator)
  }

  /** The vector from `other` to `self`, the direction `attract` starts from. */
  function Offset(self: Koi, other: Koi): Vec {
    Sub(self.location, other.location)
  }

  /** The softened distance: the raw distance, but never less than 100. */
  function EffectiveDistance(sqrt: real -> real, d: Vec): (dist: real)
    requires IsSqrt(sqrt)
    ensures dist >= 100.0 && dist >= Mag(sqrt, d)
    ensures dist == 100.0 || dist == Mag(sqrt, d)
    ensures dist == 100.0 <==> Mag(sqrt, d) <= 100.0
  {
    var m := Mag(sqrt, d);
    if m > 100.0 then m else 100.0
  }

  /** The inverse-square strength `G m m' / dist^2` of a koi with constant `g` and mass `m` against mass `m'`. */
  function Strength(g: real, m: real, m': real, dist: real): (s: real)
    requires dist >= 100.0
    ensures g >= 0.0 && m >= 0.0 && m' >= 0.0 ==> s >= 0.0
    ensures g > 0.0 && m > 0.0 && m' > 0.0 ==> s > 0.0
  {
    var q := g * m * m';
    var sq := dist * dist;
    ProductOfPositives(dist, dist, sq);
    TripleProduct(g, m, m', q);
    TripleProductPositive(g, m, m', q);
    QuotientNonNegative(q, sq, q / sq);
    QuotientPositive(q, sq, q / sq);
    q / sq
  }

  /**
   The force `self` feels from `other`. Koi of the same role only feel each
   other within distance 100, and then in proportion to the raw offset; prey
   are pushed away from a predator within range 10000 and a predator is
   pulled towards prey within range 20000.
   */
  function Attract(sqrt: real -> real, self: Koi, other: Koi): (f: Vec)
    requires IsSqrt(sqrt)
    ensures self.isPredator == other.isPredator ==>
      f == (if Mag(sqrt, Offset(self, other)) <= 100.0 then Scale(Offset(self, other), 0.01) else Zero)
    ensures !self.isPredator && other.isPredator && Mag(sqrt, Offset(self, other)) >= 10000.0 ==> f == Zero
    ensures self.isPredator && !other.isPredator && Mag(sqrt, Offset(self, other)) >= 20000.0 ==> f == Zero
  {
    var force := Offset(self, other);
    var distance := EffectiveDistance(sqrt, force);
    if other.isPredator == self.isPredator then
      Scale(force, if distance == 100.0 then 0.01 else 0.0)
    else
      Scale(Normalize(sqrt, force), Gain(self, other, distance))
  }

  /**
   The factor `attract` puts on the unit offset when the roles differ: prey
   are pushed with 20 times the strength inside range 10000, a predator is
   pulled with 100 times the strength inside range 20000. For valid koi the
   factor is non-zero exactly inside the range, positive for prey and
   negative for a predator.
   */
  function Gain(self: Koi, other: Koi, dist: real): (k: real)
    requires dist >= 100.0
    ensures !self.isPredator && dist >= 10000.0 ==> k == 0.0
    ensures self.isPredator && dist >= 20000.0 ==> k == 0.0
    ensures Valid(self) && Valid(other) && !self.isPredator ==>
      k >= 0.0 && (dist < 10000.0 ==> k > 0.0)
    ensures Valid(self) && Valid(other) && self.isPredator ==>
      k <= 0.0 && (dist < 20000.0 ==> k < 0.0)
  {
    var strength := Strength(self.g, self.mass, other.mass, dist);
    if !self.isPredator then
      (if dist < 10000.0 then strength * 20.0 else 0.0)
    else
      (if dist < 20000.0 then strength * -100.0 else 0.0)
  }

  /** `applyForce`: the accumulator grows by exactly `force / mass`. */
  function ApplyForce(k: Koi, force: Vec): (r: Koi)
    requires k.mass > 0.0
    ensures Scale(Sub(r.acceleration, k.acceleration), k.mass) == force
    ensures r == k.(acceleration := r.acceleration)
  {
    k.(acceleration := Accumulate(k.acceleration, force, k.mass))
  }

  /**
   `update`: one Euler step. The velocity takes the acceleration, is clamped
   in place to `maxSpeed` when it is faster, and is added to the location;
   then the accumulator is cleared.
   */
  function Update(sqrt: real -> real, k: Koi): (r: Koi)
    requires IsSqrt(sqrt)
    ensures r.acceleration == Zero
    ensures r.location == Add(k.location, r.velocity)
    ensures Mag(sqrt, Add(k.velocity, k.acceleration)) <= k.maxSpeed ==>
      r.velocity == Add(k.velocity, k.acceleration)
    ensures r == k.(location := r.location, velocity := r.velocity, acceleration := Zero)
  {
    var v := Add(k.velocity, k.acceleration);
    var clamped := if Mag(sqrt, v) > k.maxSpeed then Scale(Normalize(sqrt, v), k.maxSpeed) else v;
    k.(location := Add(k.location, clamped), velocity := clamped, acceleration := Scale(k.acceleration, 0.0))
  }

  /** `checkEdges` on the 900 by 900 canvas, with the shared edge policy. */
  function CheckEdges(k: Koi): (r: Koi)
    ensures Edges.InBounds(r.location, Width, Height)
    ensures MagSq(r.velocity) == MagSq(k.velocity)
    ensures Edges.Motion(r.location, r.velocity)
      == Edges.CheckEdges(Edges.Motion(k.location, k.velocity), Width, Height)
    ensures r == k.(location := r.location, velocity := r.velocity)
  {
    var m := Edges.Motion(k.location, k.velocity);
    Edges.CheckEdgesKeepsSpeed(m, Width, Height);
    var e := Edges.CheckEdges(m, Width, Height);
    k.(location := e.location, velocity := e.velocity)
  }

  /** The constructor's constants are the ones `Valid` expects. */
  lemma NewKoiValid(location: Vec, velocity: Vec, mass: real, isPredator: bool)
    requires mass > 0.0
    ensures Valid(NewKoi(location, velocity, mass, isPredator))
    ensures RoleMaxSpeed(true) < RoleMaxSpeed(false) && RoleG(true) > RoleG(false)
  {
  }

  /** A koi built without a role, as the sketch builds its prey, is prey with top speed 3 and `G` 0.05. */
  lemma NewKoiPrey(location: Vec, velocity: Vec, mass: real)
    ensures !NewKoi(location, velocity, mass).isPredator
    ensures NewKoi(location, velocity, mass).maxSpeed == 3.0 && NewKoi(location, velocity, mass).g == 0.05
  {
  }

  /** Koi of the same role within distance 100 push with magnitude `0.01 |d|`, not 0.01. */
  lemma SameRoleMagnitude(sqrt: real -> real, self: Koi, other: Koi)
    requires IsSqrt(sqrt)
    requires self.isPredator == other.isPredator
    requires Mag(sqrt, Offset(self, other)) <= 100.0
    ensures Mag(sqrt, Attract(sqrt, self, other)) == 0.01 * Mag(sqrt, Offset(self, other))
  {
    var d := Offset(self, other);
    var m := Mag(sqrt, d);
    MagSqScale(d, 0.01);
    assert (0.01 * m) * (0.01 * m) == (0.01 * 0.01) * (m * m);
    MagUnique(sqrt, Scale(d, 0.01), 0.01 * m);
  }

  /**
   Across roles the force lies along the offset `d`: scaled by `abs(d)` it is
   `d` scaled by the gain, that is `Normalize(d) * gain`.
   */
  lemma AttractAlongOffset(sqrt: real -> real, self: Koi, other: Koi)
    requires IsSqrt(sqrt)
    requires self.isPredator != other.isPredator
    ensures Scale(Attract(sqrt, self, other), Mag(sqrt, Offset(self, other)))
      == Scale(Offset(self, other), Gain(self, other, EffectiveDistance(sqrt, Offset(self, other))))
  {
    var d := Offset(self, other);
    var k := Gain(self, other, EffectiveDistance(sqrt, d));
    if d == Zero {
      AttractCoincident(sqrt, self, other);
      ScaleZero(Attract(sqrt, self, other), Mag(sqrt, d));
      ScaleZero(d, k);
    } else {
      MagSqZero(d);
      var u := Normalize(sqrt, d);
      var m := Mag(sqrt, d);
      assert Attract(sqrt, self, other) == Scale(u, k);
      ScaleScale(u, k, m);
      ScaleScale(u, m, k);
      assert k * m == m * k;
    }
  }

  /** Koi of different roles at the same place exert no force on each other. */
  lemma AttractCoincident(sqrt: real -> real, self: Koi, other: Koi)
    requires IsSqrt(sqrt)
    requires self.isPredator != other.isPredator && Offset(self, other) == Zero
    ensures Attract(sqrt, self, other) == Zero
  {
    var d := Offset(self, other);
    NormalizeUnit(sqrt, d);
    ScaleZero(Normalize(sqrt, d), Gain(self, other, EffectiveDistance(sqrt, d)));
  }

  /** Across roles the force's dot product with the offset is the gain times `abs(d)`. */
  lemma AttractDot(sqrt: real -> real, self: Koi, other: Koi)
    requires IsSqrt(sqrt)
    requires self.isPredator != other.isPredator
    ensures Dot(Attract(sqrt, self, other), Offset(self, other))
      == Gain(self, other, EffectiveDistance(sqrt, Offset(self, other))) * Mag(sqrt, Offset(self, other))
  {
    var d := Offset(self, other);
    var k := Gain(self, other, EffectiveDistance(sqrt, d));
    DotScale(Normalize(sqrt, d), k, d);
    NormalizeDot(sqrt, d);
  }

  /** Prey feel a force pointing away from the predator: its dot product with the offset is non-negative. */
  lemma PreyFlees(sqrt: real -> real, self: Koi, other: Koi)
    requires IsSqrt(sqrt)
    requires Valid(self) && Valid(other)
    requires !self.isPredator && other.isPredator
    ensures Dot(Attract(sqrt, self, other), Offset(self, other)) >= 0.0
  {
    var d := Offset(self, other);
    var k := Gain(self, other, EffectiveDistance(sqrt, d));
    AttractDot(sqrt, self, other);
    ProductNonNegative(k, Mag(sqrt, d), Dot(Attract(sqrt, self, other), d));
  }

  /** A predator feels a force pointing towards the prey: its dot product with the offset is non-positive. */
  lemma PredatorChases(sqrt: real -> real, self: Koi, other: Koi)
    requires IsSqrt(sqrt)
    requires Valid(self) && Valid(other)
    requires self.isPredator && !other.isPredator
    ensures Dot(Attract(sqrt, self, other), Offset(self, other)) <= 0.0
  {
    var d := Offset(self, other);
    var k := Gain(self, other, EffectiveDistance(sqrt, d));
    AttractDot(sqrt, self, other);
    ProductNonPositive(k, Mag(sqrt, d), Dot(Attract(sqrt, self, other), d));
  }

  /**
   Across roles the magnitude is the gain: 20 or 100 times `G m m' / dist^2`
   inside the range and 0 outside, for koi at different places.
   */
  lemma AttractMagnitude(sqrt: real -> real, self: Koi, other: Koi)
    requires IsSqrt(sqrt)
    requires Valid(self) && Valid(other)
    requires self.isPredator != other.isPredator
    requires Offset(self, other) != Zero
    ensures Mag(sqrt, Attract(sqrt, self, other))
      == (if self.isPredator then -1.0 else 1.0) * Gain(self, other, EffectiveDistance(sqrt, Offset(self, other)))
  {
    var d := Offset(self, other);
    var u := Normalize(sqrt, d);
    var k := Gain(self, other, EffectiveDistance(sqrt, d));
    assert Attract(sqrt, self, other) == Scale(u, k);
    NormalizeUnit(sqrt, d);
    if self.isPredator {
      MagScaledUnitNeg(sqrt, u, k);
    } else {
      MagScaledUnit(sqrt, u, k);
    }
  }

  lemma DotNeg(f: Vec, d: Vec)
    ensures Dot(f, Neg(d)) == -Dot(f, d)
  {
  }

  /**
   A prey and a predator accelerate the same way along the line from the
   predator to the prey: the prey away from the predator, the predator after
   the prey.
   */
  lemma PursuitAndFlight(sqrt: real -> real, prey: Koi, predator: Koi)
    requires IsSqrt(sqrt)
    requires Valid(prey) && Valid(predator)
    requires !prey.isPredator && predator.isPredator
    ensures Dot(Attract(sqrt, prey, predator), Offset(prey, predator)) >= 0.0
    ensures Dot(Attract(sqrt, predator, prey), Offset(prey, predator)) >= 0.0
  {
    PreyFlees(sqrt, prey, predator);
    PredatorChases(sqrt, predator, prey);
    assert Offset(prey, predator) == Neg(Offset(predator, prey));
    DotNeg(Attract(sqrt, predator, prey), Offset(predator, prey));
  }

  /** `applyForce(F)` then `applyForce(-F)` restores the accumulator. */
  lemma ApplyForceInverse(k: Koi, force: Vec)
    requires k.mass > 0.0
    ensures ApplyForce(ApplyForce(k, force), Neg(force)) == k
  {
    AccumulateInverse(k.acceleration, force, k.mass);
  }

  /** The order in which forces are applied does not matter. */
  lemma ApplyForceCommutes(k: Koi, f1: Vec, f2: Vec)
    requires k.mass > 0.0
    ensures ApplyForce(ApplyForce(k, f1), f2) == ApplyForce(ApplyForce(k, f2), f1)
  {
  }

  /** When `update` clamps, the new velocity has length `maxSpeed` and the direction of `v + a`. */
  lemma UpdateClamps(sqrt: real -> real, k: Koi)
    requires IsSqrt(sqrt)
    requires k.maxSpeed >= 0.0
    requires Mag(sqrt, Add(k.velocity, k.acceleration)) > k.maxSpeed
    ensures Mag(sqrt, Update(sqrt, k).velocity) == k.maxSpeed
    ensures Scale(Update(sqrt, k).velocity, Mag(sqrt, Add(k.velocity, k.acceleration)))
      == Scale(Add(k.velocity, k.acceleration), k.maxSpeed)
  {
    var v := Add(k.velocity, k.acceleration);
    var m := Mag(sqrt, v);
    var s := k.maxSpeed;
    var u := Normalize(sqrt, v);
    assert v != Zero;
    MagScaledUnit(sqrt, u, s);
    ScaleScale(u, s, m);
    ScaleScale(u, m, s);
    assert s * m == m * s;
  }

  /** After `update` the speed never exceeds `maxSpeed`. */
  lemma UpdateSpeedBound(sqrt: real -> real, k: Koi)
    requires IsSqrt(sqrt)
    requires k.maxSpeed >= 0.0
    ensures Mag(sqrt, Update(sqrt, k).velocity) <= k.maxSpeed
  {
    if Mag(sqrt, Add(k.velocity, k.acceleration)) > k.maxSpeed {
      UpdateClamps(sqrt, k);
    }
  }
}
