/** The physics engine: an indexed table of bodies advanced one fixed time step
    at a time (backend/physics/PhysicsEngine.js). */
module Physics {
  import opened JsRuntime

  const Gravity: real := 9.8
  const Friction: real := 0.3
  const RingRadius: real := 5.0
  const RingHeight: real := 0.2
  const TimeStep: real := 0.1

  /** The factor applied to horizontal velocity on the ground, 1 - friction * dt. */
  const FrictionFactor: real := 1.0 - Friction * TimeStep

  datatype Vec3 = Vec3(x: real, y: real, z: real)

  const Zero: Vec3 := Vec3(0.0, 0.0, 0.0)

  /** One entry of the object table. */
  datatype Body = Body(
    position: Vec3,
    velocity: Vec3,
    mass: real,
    radius: real,
    height: real,
    isStatic: bool,
    isGrounded: bool)

  /** The partial state given to setObjectState: a missing field is None. */
  datatype BodyPatch = BodyPatch(
    position: Option<Vec3>,
    velocity: Option<Vec3>,
    mass: Option<real>,
    radius: Option<real>,
    height: Option<real>,
    isStatic: Option<bool>,
    isGrounded: Option<bool>)

  const EmptyPatch: BodyPatch := BodyPatch(None, None, None, None, None, None, None)

  /** A record of the collisions list. No record is ever built: the statement
      that would build one throws first. */
  datatype Collision = Collision(objectA: nat, objectB: nat, distance: real)

  /** What update() does: return the (always empty) collision list, or throw the
      ReferenceError raised for the first colliding pair it meets. */
  datatype UpdateResult = Collisions(list: seq<Collision>) | ReferenceError(objectA: nat, objectB: nat)

  // ---------------------------------------------------------------------------
  // The per-object step of update()

  /** Height of a body's centre when it stands on the ring floor. */
  function GroundLevel(b: Body): real { b.height / 2.0 + RingHeight }

  function ApplyGravity(b: Body): Body {
    if b.mass > 0.0 && !b.isStatic then
      b.(velocity := b.velocity.(y := b.velocity.y - Gravity * TimeStep))
    else b
  }

  /** Friction is decided on the position before integration. */
  function ApplyFriction(b: Body): Body {
    if b.position.y <= GroundLevel(b) then
      b.(velocity := Vec3(b.velocity.x * FrictionFactor, b.velocity.y, b.velocity.z * FrictionFactor))
    else b
  }

  function Integrate(b: Body): Body {
    if !b.isStatic then
      b.(position := Vec3(b.position.x + b.velocity.x * TimeStep,
                          b.position.y + b.velocity.y * TimeStep,
                          b.position.z + b.velocity.z * TimeStep))
    else b
  }

  /** The ground test: a body below the floor is lifted onto it and stopped
      vertically; every body leaves with isGrounded saying whether that happened. */
  function GroundClamp(b: Body): (r: Body)
    ensures r.position.y >= GroundLevel(b)
    ensures r.isGrounded <==> b.position.y < GroundLevel(b)
    ensures r.isGrounded ==> r.position.y == GroundLevel(b) && r.velocity.y == 0.0
    ensures !r.isGrounded ==> r.position == b.position && r.velocity == b.velocity
    ensures r.position.x == b.position.x && r.position.z == b.position.z
    ensures r.velocity.x == b.velocity.x && r.velocity.z == b.velocity.z
    ensures r.(position := b.position, velocity := b.velocity, isGrounded := b.isGrounded) == b
  {
    if b.position.y < GroundLevel(b) then
      b.(position := b.position.(y := GroundLevel(b)), velocity := b.velocity.(y := 0.0), isGrounded := true)
    else
      b.(isGrounded := false)
  }

  /** x*x + z*z: the squared horizontal distance from the ring's centre. */
  function PlanarNormSquared(p: Vec3): (d2: real)
    ensures 0.0 <= d2
  {
    assert 0.0 <= p.x * p.x && 0.0 <= p.z * p.z;
    p.x * p.x + p.z * p.z
  }

  /** Largest horizontal distance from the centre the body's centre may have. */
  function ClampRadius(b: Body): real { RingRadius - b.radius }

  /** sqrt(x*x + z*z) > ringRadius - radius, written without sqrt:
      a negative bound is exceeded by every distance. */
  predicate BeyondClamp(b: Body) {
    var bound := ClampRadius(b);
    bound < 0.0 || PlanarNormSquared(b.position) > bound * bound
  }

  /** The ring boundary: a body too far out is put back on the circle of radius
      ringRadius - radius along its own bearing, and its horizontal velocity is
      reflected about the boundary normal and damped by 0.8. */
  function RingClamp(b: Body, m: MathLib): Body {
    if BeyondClamp(b) then
      var angle := m.atan2(b.position.z, b.position.x);
      var newDist := ClampRadius(b);
      var nx := m.cos(angle);
      var nz := m.sin(angle);
      var dot := b.velocity.x * nx + b.velocity.z * nz;
      b.(position := Vec3(newDist * nx, b.position.y, newDist * nz),
         velocity := Vec3((b.velocity.x - 2.0 * dot * nx) * 0.8, b.velocity.y,
                          (b.velocity.z - 2.0 * dot * nz) * 0.8))
    else b
  }

  /** The body's position and velocity just before the ground test. */
  function Moved(b: Body): Body { Integrate(ApplyFriction(ApplyGravity(b))) }

  /** One step of one object, in the source's order: gravity, friction,
      integration, ground clamp, ring clamp. */
  function StepBody(b: Body, m: MathLib): (r: Body)
    ensures r.mass == b.mass && r.radius == b.radius && r.height == b.height && r.isStatic == b.isStatic
    ensures r.position.y >= GroundLevel(r)
    ensures r.isGrounded <==> Moved(b).position.y < GroundLevel(b)
    ensures r.isGrounded ==> r.position.y == GroundLevel(b) && r.velocity.y == 0.0
    ensures !r.isGrounded ==> r.position.y == Moved(b).position.y && r.velocity.y == Moved(b).velocity.y
  {
    RingClamp(GroundClamp(Moved(b)), m)
  }

  /** A static body gets neither gravity nor integration: up to the two clamps,
      it keeps its position, and only friction touches its velocity. */
  lemma StaticBodyMovesOnlyByClamps(b: Body, m: MathLib)
    requires b.isStatic
    ensures Moved(b).position == b.position
    ensures Moved(b).velocity.y == b.velocity.y
    ensures StepBody(b, m) == RingClamp(GroundClamp(ApplyFriction(b)), m)
  {
  }

  /** At or below the floor, horizontal velocity is scaled by 1 - 0.3 * 0.1,
      before the position is integrated. */
  lemma FrictionOnGround(b: Body)
    requires b.position.y <= GroundLevel(b)
    ensures ApplyFriction(ApplyGravity(b)).velocity.x == b.velocity.x * 0.97
    ensures ApplyFriction(ApplyGravity(b)).velocity.z == b.velocity.z * 0.97
  {
  }

  /** After the ring clamp, a body of radius at most the ring radius lies within
      ringRadius - radius of the centre (stated on squares). */
  lemma RingClampWithinRing(b: Body, m: MathLib)
    requires CircleLaw(m)
    requires b.radius <= RingRadius
    ensures PlanarNormSquared(RingClamp(b, m).position) <= ClampRadius(b) * ClampRadius(b)
  {
    var r := RingClamp(b, m);
    var bound := ClampRadius(b);
    if BeyondClamp(b) {
      var angle := m.atan2(b.position.z, b.position.x);
      var c, s := m.cos(angle), m.sin(angle);
      assert c * c + s * s == 1.0;
      calc {
        PlanarNormSquared(r.position);
        r.position.x * r.position.x + r.position.z * r.position.z;
        (bound * c) * (bound * c) + (bound * s) * (bound * s);
        { assert (bound * c) * (bound * c) == (bound * bound) * (c * c);
          assert (bound * s) * (bound * s) == (bound * bound) * (s * s); }
        (bound * bound) * (c * c) + (bound * bound) * (s * s);
        (bound * bound) * (c * c + s * s);
        bound * bound;
      }
    }
  }

  /** The same bound for the whole per-object step. */
  lemma StepBodyWithinRing(b: Body, m: MathLib)
    requires CircleLaw(m)
    requires b.radius <= RingRadius
    ensures PlanarNormSquared(StepBody(b, m).position) <= ClampRadius(b) * ClampRadius(b)
  {
    var g := GroundClamp(Moved(b));
    assert g.radius == b.radius;
    RingClampWithinRing(g, m);
    assert StepBody(b, m) == RingClamp(g, m);
  }

  /** The per-object loop of update() over a whole table. */
  function StepAll(objs: seq<Body>, m: MathLib): (r: seq<Body>)
    ensures |r| == |objs|
    ensures forall i :: 0 <= i < |r| ==> r[i].position.y >= GroundLevel(r[i])
  {
    seq(|objs|, i requires 0 <= i < |objs| => StepBody(objs[i], m))
  }

  // ---------------------------------------------------------------------------
  // Collision detection

  /** dx*dx + dy*dy + dz*dz between the two centres, the argument of Math.sqrt. */
  function CentreDistanceSquared(a: Body, b: Body): (r: real)
    ensures 0.0 <= r
  {
    var dx := b.position.x - a.position.x;
    var dy := b.position.y - a.position.y;
    var dz := b.position.z - a.position.z;
    assert 0.0 <= dx * dx && 0.0 <= dy * dy && 0.0 <= dz * dz;
    dx * dx + dy * dy + dz * dz
  }

  /** Centre distance below the sum of radii, sqrt(d2) < a.radius + b.radius,
      written without sqrt (a non-positive sum is never exceeded). */
  predicate Colliding(a: Body, b: Body) {
    var minDistance := a.radius + b.radius;
    0.0 < minDistance && CentreDistanceSquared(a, b) < minDistance * minDistance
  }

  /** Colliding is the source's test on Math.sqrt. */
  lemma CollidingIsSqrtTest(a: Body, b: Body, m: MathLib)
    requires SqrtLaw(m)
    ensures Colliding(a, b) <==> m.sqrt(CentreDistanceSquared(a, b)) < a.radius + b.radius
  {
    SqrtCompare(m, CentreDistanceSquared(a, b), a.radius + b.radius);
  }

  /** No pair (i, j), i < j, that comes before (ci, cj) in the loops' order collides. */
  ghost predicate NoCollisionBefore(objs: seq<Body>, ci: int, cj: int) {
    forall i, j :: 0 <= i < j < |objs| && (i < ci || (i == ci && j < cj)) ==> !Colliding(objs[i], objs[j])
  }

  ghost predicate CollisionFree(objs: seq<Body>) {
    forall i, j :: 0 <= i < j < |objs| ==> !Colliding(objs[i], objs[j])
  }

  /** (a, b) is the first colliding pair the nested loops of update() reach. */
  ghost predicate FirstCollision(objs: seq<Body>, a: int, b: int) {
    0 <= a < b < |objs| && Colliding(objs[a], objs[b]) && NoCollisionBefore(objs, a, b)
  }

  /** The nested loops of update() that look for colliding pairs, up to the
      first hit, which in the source throws. */
  method FindFirstCollision(objs: seq<Body>) returns (hit: Option<(nat, nat)>)
    ensures hit.None? <==> CollisionFree(objs)
    ensures hit.Some? ==> FirstCollision(objs, hit.value.0, hit.value.1)
  {
    var i := 0;
    while i < |objs|
      invariant 0 <= i <= |objs|
      invariant NoCollisionBefore(objs, i, 0)
    {
      var j := i + 1;
      while j < |objs|
        invariant i + 1 <= j <= |objs|
        invariant NoCollisionBefore(objs, i, j)
      {
        if Colliding(objs[i], objs[j]) {
          return Some((i, j));
        }
        j := j + 1;
      }
      i := i + 1;
    }
    return None;
  }

  // ---------------------------------------------------------------------------
  // setObjectState

  /** The spread `{ ...body, ...patch }`: supplied fields win, the others stay. */
  function Merge(b: Body, p: BodyPatch): (r: Body)
    ensures p.position.None? ==> r.position == b.position
    ensures p.velocity.None? ==> r.velocity == b.velocity
    ensures p.mass.None? ==> r.mass == b.mass
    ensures p.radius.None? ==> r.radius == b.radius
    ensures p.height.None? ==> r.height == b.height
    ensures p.isStatic.None? ==> r.isStatic == b.isStatic
    ensures p.isGrounded.None? ==> r.isGrounded == b.isGrounded
  {
    Body(
      if p.position.Some? then p.position.value else b.position,
      if p.velocity.Some? then p.velocity.value else b.velocity,
      if p.mass.Some? then p.mass.value else b.mass,
      if p.radius.Some? then p.radius.value else b.radius,
      if p.height.Some? then p.height.value else b.height,
      if p.isStatic.Some? then p.isStatic.value else b.isStatic,
      if p.isGrounded.Some? then p.isGrounded.value else b.isGrounded)
  }

  /** Applying the same patch twice is applying it once; the empty patch does nothing. */
  lemma MergeIdempotent(b: Body, p: BodyPatch)
    ensures Merge(Merge(b, p), p) == Merge(b, p)
    ensures Merge(b, EmptyPatch) == b
  {
  }

  /** The table after setObjectState: only an in-range slot changes. */
  function Patched(objs: seq<Body>, index: int, p: BodyPatch): (r: seq<Body>)
    ensures |r| == |objs|
    ensures forall i :: 0 <= i < |objs| && i != index ==> r[i] == objs[i]
    ensures 0 <= index < |objs| ==> r[index] == Merge(objs[index], p)
    ensures !(0 <= index < |objs|) ==> r == objs
  {
    if 0 <= index < |objs| then objs[index := Merge(objs[index], p)] else objs
  }

  /** Out of the ring: sqrt(x*x + z*z) > ringRadius, written without sqrt. */
  predicate OutsideRing(b: Body) {
    PlanarNormSquared(b.position) > RingRadius * RingRadius
  }

  lemma OutsideRingIsSqrtTest(b: Body, m: MathLib)
    requires SqrtLaw(m)
    ensures OutsideRing(b) <==> m.sqrt(PlanarNormSquared(b.position)) > RingRadius
  {
    SqrtCompare(m, PlanarNormSquared(b.position), RingRadius);
  }

  // ---------------------------------------------------------------------------
  // The engine

  class PhysicsEngine {
    var objects: seq<Body>
    var collisions: seq<Collision>
    var time: real

    constructor ()
      ensures objects == [] && collisions == [] && time == 0.0
    {
      objects := [];
      collisions := [];
      time := 0.0;
    }

    method Reset()
      modifies this
      ensures objects == [] && collisions == [] && time == 0.0
    {
      objects := [];
      collisions := [];
      time := 0.0;
    }

    /** Appends the body and returns its index, the old length. */
    method AddObject(b: Body) returns (index: int)
      modifies this
      ensures objects == old(objects) + [b]
      ensures index == |old(objects)| && 0 <= index < |objects|
      ensures collisions == old(collisions) && time == old(time)
    {
      objects := objects + [b];
      index := |objects| - 1;
    }

    /** null outside the table, a copy of the slot inside it. */
    function GetObjectState(index: int): (r: Option<Body>)
      reads this
      ensures r.Some? <==> 0 <= index < |objects|
      ensures r.Some? ==> r.value == objects[index]
    {
      if 0 <= index < |objects| then Some(objects[index]) else None
    }

    /** A no-op outside the table; inside, the supplied fields are overwritten. */
    method SetObjectState(index: int, p: BodyPatch)
      modifies this
      ensures objects == Patched(old(objects), index, p)
      ensures collisions == old(collisions) && time == old(time)
    {
      if 0 <= index < |objects| {
        objects := objects[index := Merge(objects[index], p)];
      }
    }

    /** false for a missing index; otherwise whether the body is outside the ring. */
    predicate IsOutOfRing(index: int)
      reads this
    {
      0 <= index < |objects| && OutsideRing(objects[index])
    }

    /** One time step. Every object is stepped in place first; then the pairs are
        scanned, and the first colliding pair throws: inside the `if` block
        that handles a collision, the record pushed onto `collisions` reads `j`,
        and `j` names the block's own `let j` declared further down, so the read
        is in its temporal dead zone. The impulse and position correction after
        it are never executed. */
    method Update(m: MathLib) returns (r: UpdateResult)
      modifies this
      ensures time == old(time) + TimeStep
      ensures objects == StepAll(old(objects), m)
      ensures collisions == []
      ensures r.Collisions? <==> CollisionFree(objects)
      ensures r.Collisions? ==> r.list == []
      ensures r.ReferenceError? ==> FirstCollision(objects, r.objectA, r.objectB)
    {
      time := time + TimeStep;
      collisions := [];
      ghost var before := objects;
      var i := 0;
      while i < |objects|
        invariant 0 <= i <= |objects| == |before|
        invariant time == old(time) + TimeStep && collisions == []
        invariant forall k :: 0 <= k < i ==> objects[k] == StepBody(before[k], m)
        invariant forall k :: i <= k < |objects| ==> objects[k] == before[k]
      {
        objects := objects[i := StepBody(objects[i], m)];
        i := i + 1;
      }
      assert objects == StepAll(before, m);
      var hit := FindFirstCollision(objects);
      if hit.Some? {
        return ReferenceError(hit.value.0, hit.value.1);
      }
      return Collisions(collisions);
    }
  }
}
