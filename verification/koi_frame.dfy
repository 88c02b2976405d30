/**
 One frame of the koi ecosystem (the nested loop of `p.draw`). The pass is
 sequential: agent `i` sums the forces of every other agent, in index order,
 and is then updated and edge-checked before agent `i + 1` reads the
 positions. So agent `i` sees the moved state of the agents before it and the
 old state of the agents after it.
 */
module KoiFrame {
  import opened Vectors
  import opened KoiEcoSystem
  import Edges

  predicate AllValid(ks: seq<Koi>) {
    forall j :: 0 <= j < |ks| ==> Valid(ks[j])
  }

  /** `r` is the same koi as `k` as far as mass and role go. */
  predicate SameIdentity(r: Koi, k: Koi) {
    r.mass == k.mass && r.maxSpeed == k.maxSpeed && r.g == k.g && r.isPredator == k.isPredator
  }

  /** The total force agents `j..` of `ks`, except agent `i`, exert on `self`: the sum of their `attract` results. */
  function NetForce(sqrt: real -> real, self: Koi, ks: seq<Koi>, i: nat, j: nat): Vec
    requires IsSqrt(sqrt) && j <= |ks|
    decreases |ks| - j
  {
    if j == |ks| then Zero
    else if j == i then NetForce(sqrt, self, ks, i, j + 1)
    else Add(Attract(sqrt, self, ks[j]), NetForce(sqrt, self, ks, i, j + 1))
  }

  /**
   The reference sum: what agents `j..` of `ks`, except agent `i`, add to the
   acceleration of `self`, one `force / mass` at a time. Times the mass it is
   the net force.
   */
  function Pull(sqrt: real -> real, self: Koi, ks: seq<Koi>, i: nat, j: nat): (p: Vec)
    requires IsSqrt(sqrt) && self.mass > 0.0 && j <= |ks|
    ensures Scale(p, self.mass) == NetForce(sqrt, self, ks, i, j)
    decreases |ks| - j
  {
    if j == |ks| then Zero
    else if j == i then Pull(sqrt, self, ks, i, j + 1)
    else
      var here := Div(Attract(sqrt, self, ks[j]), self.mass);
      var rest := Pull(sqrt, self, ks, i, j + 1);
      ScaleAdd(here, rest, self.mass);
      Add(here, rest)
  }

  /**
   The inner loop over `j`: `self` (agent `i`) applies the force of every
   agent from `j` on except itself, one after the other.
   */
  function Gather(sqrt: real -> real, ks: seq<Koi>, i: nat, j: nat, self: Koi): (r: Koi)
    requires IsSqrt(sqrt) && self.mass > 0.0 && j <= |ks|
    ensures r == self.(acceleration := Add(self.acceleration, Pull(sqrt, self, ks, i, j)))
    ensures Scale(Sub(r.acceleration, self.acceleration), self.mass) == NetForce(sqrt, self, ks, i, j)
    decreases |ks| - j
  {
    AddSub(self.acceleration, Pull(sqrt, self, ks, i, j));
    if j == |ks| then
      self
    else if j == i then
      Gather(sqrt, ks, i, j + 1, self)
    else
      var next := ApplyForce(self, Attract(sqrt, self, ks[j]));
      PullIgnoresAcceleration(sqrt, self, next.acceleration, ks, i, j + 1);
      Gather(sqrt, ks, i, j + 1, next)
  }

  /** Agent `i`'s turn: gather the forces, then `update`, then `checkEdges`. */
  function StepAgent(sqrt: real -> real, ks: seq<Koi>, i: nat): (r: Koi)
    requires IsSqrt(sqrt) && i < |ks| && Valid(ks[i])
    ensures SameIdentity(r, ks[i]) && Valid(r)
    ensures r.acceleration == Zero
    ensures Edges.InBounds(r.location, Width, Height)
    ensures Mag(sqrt, r.velocity) <= r.maxSpeed
  {
    var gathered := Gather(sqrt, ks, i, 0, ks[i]);
    var moved := Update(sqrt, gathered);
    UpdateSpeedBound(sqrt, gathered);
    CheckEdges(moved)
  }

  /** The koi after the first `n` turns of the frame. */
  function Processed(sqrt: real -> real, ks: seq<Koi>, n: nat): (r: seq<Koi>)
    requires IsSqrt(sqrt) && n <= |ks| && AllValid(ks)
    ensures |r| == |ks| && AllValid(r)
    decreases n
  {
    if n == 0 then
      ks
    else
      var prev := Processed(sqrt, ks, n - 1);
      prev[n - 1 := StepAgent(sqrt, prev, n - 1)]
  }

  /** One frame: every agent takes its turn, in index order. */
  function Frame(sqrt: real -> real, ks: seq<Koi>): (r: seq<Koi>)
    requires IsSqrt(sqrt) && AllValid(ks)
    ensures |r| == |ks| && AllValid(r)
    ensures forall j :: 0 <= j < |ks| ==> SameIdentity(r[j], ks[j])
    ensures forall j :: 0 <= j < |r| ==> r[j].acceleration == Zero
    ensures forall j :: 0 <= j < |r| ==> Edges.InBounds(r[j].location, Width, Height)
    ensures forall j :: 0 <= j < |r| ==> Mag(sqrt, r[j].velocity) <= r[j].maxSpeed
  {
    ProcessedFacts(sqrt, ks, |ks|);
    Processed(sqrt, ks, |ks|)
  }

  /** `attract` reads the location, mass and role of `self`, never its accumulator. */
  lemma AttractIgnoresAcceleration(sqrt: real -> real, self: Koi, a: Vec, other: Koi)
    requires IsSqrt(sqrt)
    ensures Attract(sqrt, self.(acceleration := a), other) == Attract(sqrt, self, other)
  {
    var moved := self.(acceleration := a);
    var d := Offset(self, other);
    assert Offset(moved, other) == d;
    var dist := EffectiveDistance(sqrt, d);
    assert Gain(moved, other, dist) == Gain(self, other, dist);
  }

  lemma {:induction false} PullIgnoresAcceleration(
    sqrt: real -> real, self: Koi, a: Vec, ks: seq<Koi>, i: nat, j: nat)
    requires IsSqrt(sqrt) && self.mass > 0.0 && j <= |ks|
    ensures Pull(sqrt, self.(acceleration := a), ks, i, j) == Pull(sqrt, self, ks, i, j)
    decreases |ks| - j
  {
    if j < |ks| {
      PullIgnoresAcceleration(sqrt, self, a, ks, i, j + 1);
      if j != i {
        AttractIgnoresAcceleration(sqrt, self, a, ks[j]);
      }
    }
  }

  /** No agent attracts itself: whatever stands at index `i` adds nothing to agent `i`'s sum. */
  lemma {:induction false} NoSelfAttraction(
    sqrt: real -> real, self: Koi, ks: seq<Koi>, i: nat, j: nat, x: Koi)
    requires IsSqrt(sqrt) && self.mass > 0.0 && j <= |ks| && i < |ks|
    ensures Pull(sqrt, self, ks[i := x], i, j) == Pull(sqrt, self, ks, i, j)
    decreases |ks| - j
  {
    if j < |ks| {
      NoSelfAttraction(sqrt, self, ks, i, j + 1, x);
    }
  }

  /** A lone koi feels no force: its turn leaves the accumulator as it was before `update`. */
  lemma {:induction false} LoneKoi(sqrt: real -> real, k: Koi)
    requires IsSqrt(sqrt) && k.mass > 0.0
    ensures Gather(sqrt, [k], 0, 0, k) == k
  {
    assert Pull(sqrt, k, [k], 0, 1) == Zero;
    assert Pull(sqrt, k, [k], 0, 0) == Zero;
  }

  /**
   After `n` turns, the first `n` agents have a cleared accumulator, an
   in-bounds location and at most their top speed, the others are untouched,
   and no agent changed mass or role.
   */
  lemma {:induction false} ProcessedFacts(sqrt: real -> real, ks: seq<Koi>, n: nat)
    requires IsSqrt(sqrt) && n <= |ks| && AllValid(ks)
    ensures forall j :: 0 <= j < |ks| ==> SameIdentity(Processed(sqrt, ks, n)[j], ks[j])
    ensures forall j :: n <= j < |ks| ==> Processed(sqrt, ks, n)[j] == ks[j]
    ensures forall j :: 0 <= j < n ==> Processed(sqrt, ks, n)[j].acceleration == Zero
    ensures forall j :: 0 <= j < n ==> Edges.InBounds(Processed(sqrt, ks, n)[j].location, Width, Height)
    ensures forall j :: 0 <= j < n ==> Mag(sqrt, Processed(sqrt, ks, n)[j].velocity) <= Processed(sqrt, ks, n)[j].maxSpeed
    decreases n
  {
    if n > 0 {
      ProcessedFacts(sqrt, ks, n - 1);
      var prev := Processed(sqrt, ks, n - 1);
      var r := Processed(sqrt, ks, n);
      assert r == prev[n - 1 := StepAgent(sqrt, prev, n - 1)];
    }
  }

  /** Turns already taken are not touched by later turns. */
  lemma {:induction false} ProcessedStable(sqrt: real -> real, ks: seq<Koi>, n: nat, m: nat, j: nat)
    requires IsSqrt(sqrt) && AllValid(ks)
    requires j < m <= n <= |ks|
    ensures Processed(sqrt, ks, n)[j] == Processed(sqrt, ks, m)[j]
    decreases n
  {
    if n > m {
      var prev := Processed(sqrt, ks, n - 1);
      assert Processed(sqrt, ks, n)[j] == prev[j];
      ProcessedStable(sqrt, ks, n - 1, m, j);
    }
  }

  /**
   The sequential order: agent `i`'s final state is its turn taken on the
   state in which agents before `i` are already in their final state and
   agents after `i` are still in their initial state.
   */
  lemma SequentialTurns(sqrt: real -> real, ks: seq<Koi>, i: nat)
    requires IsSqrt(sqrt) && AllValid(ks) && i < |ks|
    ensures Frame(sqrt, ks)[i] == StepAgent(sqrt, Processed(sqrt, ks, i), i)
    ensures forall j :: 0 <= j < i ==> Processed(sqrt, ks, i)[j] == Frame(sqrt, ks)[j]
    ensures forall j :: i <= j < |ks| ==> Processed(sqrt, ks, i)[j] == ks[j]
  {
    ProcessedStable(sqrt, ks, |ks|, i + 1, i);
    forall j | 0 <= j < i
      ensures Processed(sqrt, ks, i)[j] == Frame(sqrt, ks)[j]
    {
      ProcessedStable(sqrt, ks, |ks|, i, j);
    }
  }
}
