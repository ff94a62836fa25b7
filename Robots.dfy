/** A wrestling robot: its fighting state, the eight actions it can take, the
    observation it gives the learner, and its link to the physics table
    (backend/simulation/RobotModel.js). */
module Robots {
  import opened JsRuntime
  import opened Physics

  const RobotHeight: real := 1.5
  const RobotMass: real := 80.0
  const RobotRadius: real := 0.5
  const MoveSpeed: real := 2.0

  /** Reach of a punch and of a kick. */
  const PunchRange: real := 1.5
  const KickRange: real := 2.0

  /** Length of the observation vector. */
  const ObservationSize: nat := 22

  /** The entries of availableActions, in their order. */
  datatype Action = MoveForward | MoveBackward | MoveLeft | MoveRight | Punch | Kick | Block | Idle

  /** availableActions[i] for an index of the list. */
  function ActionAt(i: nat): Action
    requires i < 8
  {
    [MoveForward, MoveBackward, MoveLeft, MoveRight, Punch, Kick, Block, Idle][i]
  }

  /** The position of an action in availableActions. */
  function ActionIndex(a: Action): (i: nat)
    ensures i < 8
  {
    match a
    case MoveForward => 0
    case MoveBackward => 1
    case MoveLeft => 2
    case MoveRight => 3
    case Punch => 4
    case Kick => 5
    case Block => 6
    case Idle => 7
  }

  /** Indices 0..7 and the eight actions correspond one to one. */
  lemma ActionIndexRoundTrip(a: Action, i: nat)
    requires i < 8
    ensures ActionAt(ActionIndex(a)) == a
    ensures ActionIndex(ActionAt(i)) == i
  {
  }

  /** The energyCost table of performAction. */
  function EnergyCost(a: Action): int {
    match a
    case MoveForward => 1
    case MoveBackward => 1
    case MoveLeft => 1
    case MoveRight => 1
    case Punch => 5
    case Kick => 10
    case Block => 2
    case Idle => 0
  }

  predicate IsMove(a: Action) {
    a == MoveForward || a == MoveBackward || a == MoveLeft || a == MoveRight
  }

  /** The state of a robot that its methods change. */
  datatype Fighter = Fighter(
    position: Vec3,
    velocity: Vec3,
    orientation: real,
    isGrounded: bool,
    health: int,
    energy: int,
    stunned: int,
    isBlocking: bool)

  /** Energy stays in [0, 100], the stun timer is never negative, health never rises above 100. */
  predicate FighterValid(f: Fighter) {
    0 <= f.energy <= 100 && 0 <= f.stunned && f.health <= 100
  }

  /** Starting point of robot 0 (x = 2) and of every other robot (x = -2), on the floor. */
  function ResetPosition(id: int): Vec3 {
    Vec3(if id == 0 then 2.0 else -2.0, RobotHeight / 2.0, 0.0)
  }

  /** Robot 0 faces +x, the others face -x: the two face each other. */
  function ResetOrientation(id: int): real {
    if id == 0 then 0.0 else PI
  }

  /** The state the constructor and reset() set up; isBlocking is never set by either
      and reads as false until the first block. */
  function Initial(id: int): (f: Fighter)
    ensures FighterValid(f) && f.health == 100 && f.energy == 100 && f.stunned == 0
  {
    Fighter(ResetPosition(id), Zero, ResetOrientation(id), true, 100, 100, 0, false)
  }

  /** The object the constructor registers with the physics engine. */
  function InitialBody(id: int): Body {
    Body(ResetPosition(id), Zero, RobotMass, RobotRadius, RobotHeight, false, true)
  }

  /** The partial state reset() gives setObjectState. */
  function ResetPatch(id: int): BodyPatch {
    EmptyPatch.(position := Some(ResetPosition(id)), velocity := Some(Zero), isGrounded := Some(true))
  }

  /** The partial state performAction gives setObjectState. */
  function VelocityPatch(v: Vec3): BodyPatch {
    EmptyPatch.(velocity := Some(v))
  }

  /** Applying the reset patch to the registered object gives back the registered object. */
  lemma ResetPatchRestoresInitialBody(id: int, b: Body)
    requires b.mass == RobotMass && b.radius == RobotRadius && b.height == RobotHeight && !b.isStatic
    ensures Merge(b, ResetPatch(id)) == InitialBody(id)
  {
  }

  // ---------------------------------------------------------------------------
  // Geometry between two robots (on the floor plane x, z)

  /** (opp.x - me.x)^2 + (opp.z - me.z)^2. */
  function PlanarDistanceSquared(me: Fighter, opp: Fighter): (d2: real)
    ensures 0.0 <= d2
  {
    var dx := opp.position.x - me.position.x;
    var dz := opp.position.z - me.position.z;
    assert 0.0 <= dx * dx && 0.0 <= dz * dz;
    dx * dx + dz * dz
  }

  /** isOpponentInRange: sqrt(dx*dx + dz*dz) <= range, written without sqrt. */
  predicate InRange(me: Fighter, opp: Fighter, range: real) {
    0.0 <= range && PlanarDistanceSquared(me, opp) <= range * range
  }

  lemma InRangeIsSqrtTest(me: Fighter, opp: Fighter, range: real, m: MathLib)
    requires SqrtLaw(m)
    ensures InRange(me, opp, range) <==> m.sqrt(PlanarDistanceSquared(me, opp)) <= range
  {
    SqrtCompare(m, PlanarDistanceSquared(me, opp), range);
  }

  /** Being in range is symmetric, and a longer reach keeps everything a shorter one reaches. */
  lemma InRangeProperties(me: Fighter, opp: Fighter, short: real, long: real)
    requires 0.0 <= short <= long
    ensures InRange(me, opp, short) <==> InRange(opp, me, short)
    ensures InRange(me, opp, short) ==> InRange(me, opp, long)
  {
    var dx := opp.position.x - me.position.x;
    var dz := opp.position.z - me.position.z;
    assert (-dx) * (-dx) == dx * dx && (-dz) * (-dz) == dz * dz;
    assert PlanarDistanceSquared(opp, me) == PlanarDistanceSquared(me, opp);
    SquaresOrdered(short, long);
  }

  // ---------------------------------------------------------------------------
  // The angle normalisation of isOpponentInFront

  /** A whole number of turns. */
  function Turns(k: int): real { TwoPi * k as real }

  /** How many times the first loop (subtract 2*PI while above PI) runs. */
  function TurnsAbove(a: real): nat {
    if a <= PI then 0 else ((a - PI) / TwoPi).Floor + 1
  }

  /** How many times the second loop (add 2*PI while below -PI) runs. */
  function TurnsBelow(a: real): nat {
    if a >= -PI then 0 else ((-PI - a) / TwoPi).Floor + 1
  }

  lemma TurnsAboveDecreases(a: real)
    requires a > PI
    ensures TurnsAbove(a - TwoPi) < TurnsAbove(a)
  {
    var q := (a - PI) / TwoPi;
    assert (a - TwoPi - PI) / TwoPi == q - 1.0;
  }

  lemma TurnsBelowDecreases(a: real)
    requires a < -PI
    ensures TurnsBelow(a + TwoPi) < TurnsBelow(a)
  {
    var q := (-PI - a) / TwoPi;
    assert (-PI - (a + TwoPi)) / TwoPi == q - 1.0;
  }

  /** The first loop: subtract 2*PI while the angle exceeds PI. */
  function WrapDown(a: real): real
    decreases TurnsAbove(a)
  {
    if a > PI then
      TurnsAboveDecreases(a);
      WrapDown(a - TwoPi)
    else a
  }

  /** The second loop: add 2*PI while the angle is below -PI. */
  function WrapUp(a: real): real
    decreases TurnsBelow(a)
  {
    if a < -PI then
      TurnsBelowDecreases(a);
      WrapUp(a + TwoPi)
    else a
  }

  /** Both loops in turn. */
  function NormalizeAngle(a: real): real {
    WrapUp(WrapDown(a))
  }

  lemma {:induction false} WrapDownSpec(a: real)
    decreases TurnsAbove(a)
    ensures WrapDown(a) <= PI
    ensures a <= PI ==> WrapDown(a) == a
    ensures a > PI ==> WrapDown(a) > PI - TwoPi
    ensures exists k: int :: 0 <= k && WrapDown(a) == a - Turns(k)
  {
    if a > PI {
      TurnsAboveDecreases(a);
      WrapDownSpec(a - TwoPi);
      var k: int :| 0 <= k && WrapDown(a - TwoPi) == a - TwoPi - Turns(k);
      assert WrapDown(a) == a - Turns(k + 1);
    } else {
      assert WrapDown(a) == a - Turns(0);
    }
  }

  lemma {:induction false} WrapUpSpec(a: real)
    decreases TurnsBelow(a)
    ensures WrapUp(a) >= -PI
    ensures a >= -PI ==> WrapUp(a) == a
    ensures a < -PI ==> WrapUp(a) < -PI + TwoPi
    ensures exists k: int :: 0 <= k && WrapUp(a) == a + Turns(k)
  {
    if a < -PI {
      TurnsBelowDecreases(a);
      WrapUpSpec(a + TwoPi);
      var k: int :| 0 <= k && WrapUp(a + TwoPi) == a + TwoPi + Turns(k);
      assert WrapUp(a) == a + Turns(k + 1);
    } else {
      assert WrapUp(a) == a + Turns(0);
    }
  }

  /** The normalised angle lies in [-PI, PI], differs from the input by whole
      turns, and an angle already in [-PI, PI] is left alone. */
  lemma NormalizeAngleSpec(a: real)
    ensures -PI <= NormalizeAngle(a) <= PI
    ensures -PI <= a <= PI ==> NormalizeAngle(a) == a
    ensures exists k: int :: NormalizeAngle(a) == a + Turns(k)
  {
    WrapDownSpec(a);
    var i: int :| 0 <= i && WrapDown(a) == a - Turns(i);
    WrapUpSpec(WrapDown(a));
    var j: int :| 0 <= j && WrapUp(WrapDown(a)) == WrapDown(a) + Turns(j);
    assert NormalizeAngle(a) == a + Turns(j - i);
  }

  /** isOpponentInFront: the bearing of the opponent, taken relative to the
      robot's orientation and normalised, is within 90 degrees of straight ahead. */
  predicate InFront(me: Fighter, opp: Fighter, m: MathLib) {
    var dx := opp.position.x - me.position.x;
    var dz := opp.position.z - me.position.z;
    Abs(NormalizeAngle(m.atan2(dz, dx) - me.orientation)) <= PI / 2.0
  }

  /** Turning a robot by whole turns does not change what is in front of it. */
  lemma InFrontIgnoresWholeTurns(me: Fighter, opp: Fighter, k: int, m: MathLib)
    ensures InFront(me.(orientation := me.orientation + Turns(k)), opp, m) <==> InFront(me, opp, m)
  {
    var dx := opp.position.x - me.position.x;
    var dz := opp.position.z - me.position.z;
    var d := m.atan2(dz, dx) - me.orientation;
    NormalizeAngleSpec(d);
    NormalizeAngleSpec(d - Turns(k));
    var i: int :| NormalizeAngle(d) == d + Turns(i);
    var j: int :| NormalizeAngle(d - Turns(k)) == d - Turns(k) + Turns(j);
    SameAngleInOneTurn(NormalizeAngle(d), NormalizeAngle(d - Turns(k)), j - i - k);
  }

  /** Two angles of [-PI, PI] whose difference is a whole number of turns are
      equal, except for the pair -PI and PI, which have the same absolute value. */
  lemma SameAngleInOneTurn(x: real, y: real, k: int)
    requires -PI <= x <= PI && -PI <= y <= PI
    requires y == x + Turns(k)
    ensures Abs(x) == Abs(y)
  {
    if k >= 1 {
      assert Turns(k) >= TwoPi;
    } else if k <= -1 {
      assert Turns(k) <= -TwoPi;
    }
  }

  // ---------------------------------------------------------------------------
  // performAction

  /** The energy after paying for an action; idling then recovers 2, up to 100. */
  function Recharged(energy: int, a: Action): int {
    var paid := MaxInt(0, energy - EnergyCost(a));
    if a == Idle then MinInt(100, paid + 2) else paid
  }

  /** The velocity change of the four moves: full speed forward, 0.7 of it
      backward, 0.8 of it sideways; the other actions leave the velocity alone. */
  function Steer(v: Vec3, o: real, a: Action, m: MathLib): Vec3 {
    var dirX, dirZ := m.cos(o), m.sin(o);
    var rightX, rightZ := m.cos(o + PI / 2.0), m.sin(o + PI / 2.0);
    match a
    case MoveForward => Vec3(v.x + dirX * MoveSpeed, v.y, v.z + dirZ * MoveSpeed)
    case MoveBackward => Vec3(v.x - dirX * MoveSpeed * 0.7, v.y, v.z - dirZ * MoveSpeed * 0.7)
    case MoveLeft => Vec3(v.x - rightX * MoveSpeed * 0.8, v.y, v.z - rightZ * MoveSpeed * 0.8)
    case MoveRight => Vec3(v.x + rightX * MoveSpeed * 0.8, v.y, v.z + rightZ * MoveSpeed * 0.8)
    case _ => v
  }

  /** The speed a move adds: 2, 1.4 backward, 1.6 sideways; 0 for the other actions. */
  function MoveImpulse(a: Action): real {
    match a
    case MoveForward => MoveSpeed
    case MoveBackward => MoveSpeed * 0.7
    case MoveLeft => MoveSpeed * 0.8
    case MoveRight => MoveSpeed * 0.8
    case _ => 0.0
  }

  /** Steering never touches the vertical velocity, and the horizontal change it
      makes has exactly the length of the move's impulse. */
  lemma SteerChangesSpeedByImpulse(v: Vec3, o: real, a: Action, m: MathLib)
    requires CircleLaw(m)
    ensures var w := Steer(v, o, a, m);
      w.y == v.y &&
      (w.x - v.x) * (w.x - v.x) + (w.z - v.z) * (w.z - v.z) == MoveImpulse(a) * MoveImpulse(a)
  {
    var s := MoveImpulse(a);
    var angle := if a == MoveLeft || a == MoveRight then o + PI / 2.0 else o;
    var c, n := m.cos(angle), m.sin(angle);
    assert c * c + n * n == 1.0;
    var w := Steer(v, o, a, m);
    if IsMove(a) {
      assert (w.x - v.x) * (w.x - v.x) == (c * s) * (c * s) by {
        assert w.x - v.x == c * s || w.x - v.x == -(c * s);
      }
      assert (w.z - v.z) * (w.z - v.z) == (n * s) * (n * s) by {
        assert w.z - v.z == n * s || w.z - v.z == -(n * s);
      }
      calc {
        (c * s) * (c * s) + (n * s) * (n * s);
        { assert (c * s) * (c * s) == (s * s) * (c * c);
          assert (n * s) * (n * s) == (s * s) * (n * n); }
        (s * s) * (c * c) + (s * s) * (n * n);
        (s * s) * (c * c + n * n);
        s * s;
      }
    }
  }

  /** What a strike does to the opponent, and the reward it earns. */
  datatype StrikeResult = StrikeResult(opponent: Fighter, reward: real)

  /** The punch and kick cases of performAction; the other actions strike nothing. */
  function Strike(me: Fighter, opp: Fighter, a: Action, m: MathLib): StrikeResult {
    match a
    case Punch =>
      if InRange(me, opp, PunchRange) && InFront(me, opp, m) then
        if opp.isBlocking then StrikeResult(opp.(health := opp.health - 5), 5.0)
        else StrikeResult(opp.(health := opp.health - 10, stunned := 2), 15.0)
      else StrikeResult(opp, -2.0)
    case Kick =>
      if InRange(me, opp, KickRange) && InFront(me, opp, m) then
        if opp.isBlocking then StrikeResult(opp.(health := opp.health - 10), 10.0)
        else
          var knocked := Vec3(opp.velocity.x + m.cos(me.orientation) * 5.0, opp.velocity.y,
                              opp.velocity.z + m.sin(me.orientation) * 5.0);
          StrikeResult(opp.(health := opp.health - 20, stunned := 3, velocity := knocked), 25.0)
      else StrikeResult(opp, -5.0)
    case _ => StrikeResult(opp, 0.0)
  }

  /** A strike depends on the striker only through where it stands and where it faces. */
  lemma StrikeDependsOnStance(me: Fighter, me2: Fighter, opp: Fighter, a: Action, m: MathLib)
    requires me.position == me2.position && me.orientation == me2.orientation
    ensures Strike(me, opp, a, m) == Strike(me2, opp, a, m)
  {
    assert PlanarDistanceSquared(me, opp) == PlanarDistanceSquared(me2, opp);
    assert InFront(me, opp, m) == InFront(me2, opp, m);
  }

  /** The small reward for closing in: (3 - distance) * 0.5 closer than 3. */
  function Engagement(me: Fighter, opp: Fighter, m: MathLib): real {
    var d := m.sqrt(PlanarDistanceSquared(me, opp));
    if d < 3.0 then (3.0 - d) * 0.5 else 0.0
  }

  /** The terms added after every action that was not skipped: damage dealt,
      damage taken, energy kept and closeness. */
  function Shaping(self1: Fighter, opp1: Fighter, m: MathLib): real {
    (100 - opp1.health) as real * 0.1 - (100 - self1.health) as real * 0.1
      + self1.energy as real * 0.01 + Engagement(self1, opp1, m)
  }

  /** The outcome of one performAction call: both robots' new state and the reward. */
  datatype Outcome = Outcome(self: Fighter, opponent: Fighter, reward: real)

  /** performAction on values. A stunned robot only counts its stun down. Any
      other robot pays the energy cost, steers, strikes, blocks exactly when the
      action is a block, and drops to health 0 with a penalty of 50 when the
      physics engine has it out of the ring (`outOfRing`, asked after the
      velocity update, which cannot move it). The closeness term uses the
      robots' own positions, which performAction does not change. */
  function Act(me: Fighter, opp: Fighter, a: Action, outOfRing: bool, m: MathLib): Outcome {
    if me.stunned > 0 then Outcome(me.(stunned := me.stunned - 1), opp, 0.0)
    else
      var s := Strike(me, opp, a, m);
      var self1 := me.(velocity := Steer(me.velocity, me.orientation, a, m),
                       energy := Recharged(me.energy, a),
                       isBlocking := a == Block,
                       health := if outOfRing then 0 else me.health);
      var penalty := if outOfRing then -50.0 else 0.0;
      Outcome(self1, s.opponent, s.reward + penalty + Shaping(self1, s.opponent, m))
  }

  /** Act for a robot that is not stunned, spelled out part by part. */
  lemma ActWhenActive(me: Fighter, opp: Fighter, a: Action, outOfRing: bool, m: MathLib)
    requires me.stunned <= 0
    ensures var o, s := Act(me, opp, a, outOfRing, m), Strike(me, opp, a, m);
      o.opponent == s.opponent &&
      o.self == me.(velocity := Steer(me.velocity, me.orientation, a, m), energy := Recharged(me.energy, a),
                    isBlocking := a == Block, health := if outOfRing then 0 else me.health) &&
      o.reward == s.reward + (if outOfRing then -50.0 else 0.0) + Shaping(o.self, o.opponent, m)
  {
  }

  /** A stunned robot does nothing but count down, earns 0 and leaves the opponent alone. */
  lemma StunnedRobotSkipsItsTurn(me: Fighter, opp: Fighter, a: Action, outOfRing: bool, m: MathLib)
    requires me.stunned > 0
    ensures var o := Act(me, opp, a, outOfRing, m);
      o.self == me.(stunned := me.stunned - 1) && o.opponent == opp && o.reward == 0.0
  {
  }

  /** Energy: cost paid down to 0 at the least, 2 back when idling, never above 100. */
  lemma ActEnergy(me: Fighter, opp: Fighter, a: Action, outOfRing: bool, m: MathLib)
    requires 0 <= me.energy <= 100
    ensures var o := Act(me, opp, a, outOfRing, m);
      0 <= o.self.energy <= 100 &&
      (me.stunned <= 0 && a != Idle ==> o.self.energy == MaxInt(0, me.energy - EnergyCost(a))) &&
      (me.stunned <= 0 && a == Idle ==> o.self.energy == MinInt(100, me.energy + 2)) &&
      (me.stunned > 0 ==> o.self.energy == me.energy)
  {
  }

  /** A robot that acts blocks exactly when it chose to block; a stunned one keeps its guard. */
  lemma ActBlocking(me: Fighter, opp: Fighter, a: Action, outOfRing: bool, m: MathLib)
    ensures var o := Act(me, opp, a, outOfRing, m);
      (me.stunned <= 0 ==> (o.self.isBlocking <==> a == Block)) &&
      (me.stunned > 0 ==> o.self.isBlocking == me.isBlocking)
  {
  }

  /** The only change to the acting robot's own health: 0 when out of the ring. */
  lemma ActRingOut(me: Fighter, opp: Fighter, a: Action, outOfRing: bool, m: MathLib)
    ensures var o := Act(me, opp, a, outOfRing, m);
      o.self.health == (if me.stunned <= 0 && outOfRing then 0 else me.health)
  {
  }

  /** A punch that lands takes 5 from a blocking opponent and 10 from an open one,
      which is then stunned for 2 steps; a kick takes 10 or 20 and stuns for 3,
      and an open opponent is also knocked back by 5 along the kicker's facing.
      A blocked strike earns exactly the damage it deals, an open hit 5 more
      than its damage, and a miss costs 2 for a punch and 5 for a kick. */
  lemma StrikeDamage(me: Fighter, opp: Fighter, a: Action, m: MathLib)
    requires a == Punch || a == Kick
    ensures var s := Strike(me, opp, a, m);
      var lands := InRange(me, opp, if a == Punch then PunchRange else KickRange) && InFront(me, opp, m);
      var full := if a == Punch then 10 else 20;
      (!lands ==> s.opponent == opp && s.reward == (if a == Punch then -2.0 else -5.0)) &&
      (lands && opp.isBlocking ==> s.opponent == opp.(health := opp.health - full / 2) &&
                                   s.reward == (full / 2) as real) &&
      (lands && !opp.isBlocking ==>
         s.opponent == opp.(health := opp.health - full, stunned := (if a == Punch then 2 else 3),
                            velocity := if a == Kick
                                        then Vec3(opp.velocity.x + m.cos(me.orientation) * 5.0, opp.velocity.y,
                                                  opp.velocity.z + m.sin(me.orientation) * 5.0)
                                        else opp.velocity) &&
         s.reward == (full + 5) as real)
    ensures var s := Strike(me, opp, a, m);
      (s.reward > 0.0 <==> InRange(me, opp, if a == Punch then PunchRange else KickRange) && InFront(me, opp, m)) &&
      s.opponent.health <= opp.health
  {
  }

  /** An opponent further away than a kick reaches is never touched,
      whatever the action. */
  lemma OutOfReachOpponentUntouched(me: Fighter, opp: Fighter, a: Action, outOfRing: bool, m: MathLib)
    requires !InRange(me, opp, KickRange)
    ensures Act(me, opp, a, outOfRing, m).opponent == opp
  {
    InRangeProperties(me, opp, PunchRange, KickRange);
  }

  /** No action moves either robot: performAction only changes velocities, and
      positions change only through the physics engine. */
  lemma ActKeepsPositions(me: Fighter, opp: Fighter, a: Action, outOfRing: bool, m: MathLib)
    ensures var o := Act(me, opp, a, outOfRing, m);
      o.self.position == me.position && o.opponent.position == opp.position &&
      o.self.orientation == me.orientation && o.opponent.orientation == opp.orientation
  {
  }

  /** performAction keeps both robots valid. */
  lemma ActPreservesValid(me: Fighter, opp: Fighter, a: Action, outOfRing: bool, m: MathLib)
    requires FighterValid(me) && FighterValid(opp)
    ensures var o := Act(me, opp, a, outOfRing, m);
      FighterValid(o.self) && FighterValid(o.opponent)
  {
  }

  // ---------------------------------------------------------------------------
  // getObservation

  /** The nine entries a robot contributes about itself: position and velocity
      scaled, heading as sine and cosine, health, energy and a stun flag. */
  function Describe(f: Fighter, m: MathLib): seq<real> {
    [f.position.x / 5.0, f.position.z / 5.0, f.velocity.x / 10.0, f.velocity.z / 10.0,
     m.sin(f.orientation), m.cos(f.orientation), f.health as real / 100.0, f.energy as real / 100.0,
     if f.stunned > 0 then 1.0 else 0.0]
  }

  /** The observation of `me` facing `opp`: both descriptions, the offset to the
      opponent, the distance to it and the distance left to the ring edge. */
  function Observe(me: Fighter, opp: Fighter, m: MathLib): (obs: seq<real>)
    ensures |obs| == ObservationSize
    ensures obs[..9] == Describe(me, m) && obs[9..18] == Describe(opp, m)
    ensures obs[6] == me.health as real / 100.0 && obs[15] == opp.health as real / 100.0
    ensures obs[18] * 10.0 == opp.position.x - me.position.x
    ensures obs[19] * 10.0 == opp.position.z - me.position.z
    ensures obs[20] * 10.0 == m.sqrt(PlanarDistanceSquared(me, opp))
    ensures obs[21] * 5.0 == 5.0 - m.sqrt(PlanarNormSquared(me.position))
  {
    Describe(me, m) + Describe(opp, m) +
    [(opp.position.x - me.position.x) / 10.0,
     (opp.position.z - me.position.z) / 10.0,
     m.sqrt(PlanarDistanceSquared(me, opp)) / 10.0,
     (5.0 - m.sqrt(PlanarNormSquared(me.position))) / 5.0]
  }

  /** The two robots see each other the same way: the descriptions swap places,
      the offset changes sign and the distance is the same. */
  lemma ObservationsMirror(me: Fighter, opp: Fighter, m: MathLib)
    ensures var a, b := Observe(me, opp, m), Observe(opp, me, m);
      a[..9] == b[9..18] && a[9..18] == b[..9] &&
      a[18] == -b[18] && a[19] == -b[19] && a[20] == b[20]
  {
    var dx := opp.position.x - me.position.x;
    var dz := opp.position.z - me.position.z;
    assert (-dx) * (-dx) == dx * dx && (-dz) * (-dz) == dz * dz;
    assert PlanarDistanceSquared(opp, me) == PlanarDistanceSquared(me, opp);
  }

  /** getState's snapshot. */
  datatype RobotView = RobotView(
    id: int,
    position: seq<real>,
    velocity: seq<real>,
    orientation: real,
    health: int,
    energy: int,
    stunned: bool,
    isGrounded: bool)

  // ---------------------------------------------------------------------------
  // The robot object

  class Robot {
    const id: int
    const physics: PhysicsEngine
    const physicsId: int

    var position: Vec3
    var velocity: Vec3
    var orientation: real
    var isGrounded: bool
    var health: int
    var energy: int
    var stunned: int
    var isBlocking: bool

    /** The fields performAction and reset change, as one value. */
    function State(): Fighter
      reads this
    {
      Fighter(position, velocity, orientation, isGrounded, health, energy, stunned, isBlocking)
    }

    ghost predicate Valid()
      reads this
    {
      FighterValid(State())
    }

    /** Sets up the initial state and registers the robot's body with the engine,
        remembering the index it gets. */
    constructor (id: int, physics: PhysicsEngine)
      modifies physics
      ensures this.id == id && this.physics == physics
      ensures State() == Initial(id) && Valid()
      ensures physics.objects == old(physics.objects) + [InitialBody(id)]
      ensures physicsId == |old(physics.objects)|
      ensures physics.collisions == old(physics.collisions) && physics.time == old(physics.time)
    {
      this.id := id;
      this.physics := physics;
      var index := physics.AddObject(InitialBody(id));
      physicsId := index;
      position := ResetPosition(id);
      velocity := Zero;
      orientation := ResetOrientation(id);
      isGrounded := true;
      health := 100;
      energy := 100;
      stunned := 0;
      isBlocking := false;
    }

    /** Back to the initial state (the guard is kept) and the same position,
        velocity and ground flag written into the robot's physics slot, if the
        slot exists. */
    method Reset()
      modifies this, physics
      ensures State() == Initial(id).(isBlocking := old(isBlocking)) && Valid()
      ensures physics.objects == Patched(old(physics.objects), physicsId, ResetPatch(id))
      ensures physics.collisions == old(physics.collisions) && physics.time == old(physics.time)
    {
      position := ResetPosition(id);
      velocity := Zero;
      orientation := ResetOrientation(id);
      isGrounded := true;
      health := 100;
      energy := 100;
      stunned := 0;
      physics.SetObjectState(physicsId, ResetPatch(id));
    }

    /** Copies position, velocity and ground flag from the physics slot; without a slot, nothing changes. */
    method UpdateFromPhysics()
      modifies this
      ensures physics.GetObjectState(physicsId).None? ==> State() == old(State())
      ensures physics.GetObjectState(physicsId).Some? ==>
        var b := physics.GetObjectState(physicsId).value;
        State() == old(State()).(position := b.position, velocity := b.velocity, isGrounded := b.isGrounded)
    {
      var state := physics.GetObjectState(physicsId);
      if state.Some? {
        position := state.value.position;
        velocity := state.value.velocity;
        isGrounded := state.value.isGrounded;
      }
    }

    /** The snapshot sent to clients: vectors as three-element lists and the stun timer as a flag. */
    function GetState(): (v: RobotView)
      reads this
      ensures v.id == id && v.health == health && v.energy == energy
      ensures |v.position| == 3 && v.position[0] == position.x && v.position[1] == position.y && v.position[2] == position.z
      ensures |v.velocity| == 3 && v.velocity[0] == velocity.x && v.velocity[1] == velocity.y && v.velocity[2] == velocity.z
      ensures v.stunned <==> stunned > 0
    {
      RobotView(id, [position.x, position.y, position.z], [velocity.x, velocity.y, velocity.z],
                orientation, health, energy, stunned > 0, isGrounded)
    }

    /** The two normalisation loops of isOpponentInFront, then the 90-degree test. */
    method IsOpponentInFront(opponent: Robot, m: MathLib) returns (front: bool)
      ensures front == InFront(State(), opponent.State(), m)
    {
      var dx := opponent.position.x - position.x;
      var dz := opponent.position.z - position.z;
      var angleToOpponent := m.atan2(dz, dx);
      var angleDiff := angleToOpponent - orientation;
      ghost var start := angleDiff;
      while angleDiff > PI
        invariant WrapDown(angleDiff) == WrapDown(start)
        decreases TurnsAbove(angleDiff)
      {
        TurnsAboveDecreases(angleDiff);
        angleDiff := angleDiff - TwoPi;
      }
      ghost var middle := angleDiff;
      while angleDiff < -PI
        invariant WrapUp(angleDiff) == WrapUp(middle)
        decreases TurnsBelow(angleDiff)
      {
        TurnsBelowDecreases(angleDiff);
        angleDiff := angleDiff + TwoPi;
      }
      front := Abs(angleDiff) <= PI / 2.0;
    }

    /** The punch and kick cases: the range test, then (only when in range) the
        facing test, then the damage, stun and knockback given to the opponent. */
    method StrikeOpponent(action: Action, opponent: Robot, m: MathLib) returns (reward: real)
      requires action == Punch || action == Kick
      requires opponent != this
      modifies opponent
      ensures var s := Strike(State(), old(opponent.State()), action, m);
        opponent.State() == s.opponent && reward == s.reward
    {
      ghost var opp := opponent.State();
      var reach := if action == Punch then PunchRange else KickRange;
      var lands := InRange(State(), opponent.State(), reach);
      if lands {
        lands := IsOpponentInFront(opponent, m);
      }
      assert lands == (InRange(State(), opp, reach) && InFront(State(), opp, m));
      if lands {
        if opponent.isBlocking {
          opponent.health := opponent.health - (if action == Punch then 5 else 10);
          reward := if action == Punch then 5.0 else 10.0;
        } else if action == Punch {
          opponent.health := opponent.health - 10;
          opponent.stunned := 2;
          reward := 15.0;
        } else {
          opponent.health := opponent.health - 20;
          opponent.stunned := 3;
          opponent.velocity := Vec3(opponent.velocity.x + m.cos(orientation) * 5.0, opponent.velocity.y,
                                    opponent.velocity.z + m.sin(orientation) * 5.0);
          reward := 25.0;
        }
      } else {
        reward := if action == Punch then -2.0 else -5.0;
      }
    }

    /** One action against `opponent` (availableActions[actionIndex]). The new
        state of both robots and the reward are those of Act, with the ring test
        the engine answers for this robot's slot. Unless the robot was stunned,
        its new velocity is written into its physics slot; the knockback a kick
        gives the opponent is not. */
    method PerformAction(actionIndex: nat, opponent: Robot, m: MathLib) returns (reward: real)
      requires actionIndex < 8 && opponent != this
      modifies this, opponent, physics
      ensures var o := Act(old(State()), old(opponent.State()), ActionAt(actionIndex),
                           old(physics.IsOutOfRing(physicsId)), m);
        State() == o.self && opponent.State() == o.opponent && reward == o.reward
      ensures physics.objects == if old(stunned) > 0 then old(physics.objects)
                                 else Patched(old(physics.objects), physicsId, VelocityPatch(velocity))
      ensures physics.collisions == old(physics.collisions) && physics.time == old(physics.time)
    {
      if stunned > 0 {
        stunned := stunned - 1;
        return 0.0;
      }
      ActWhenActive(State(), opponent.State(), ActionAt(actionIndex), physics.IsOutOfRing(physicsId), m);
      reward := TakeAction(ActionAt(actionIndex), opponent, m);
    }

    /** performAction past the stun test: energy, steering, the strike or the
        block, the velocity written to physics, the guard, the ring test and the
        reward terms, in the source's order. */
    method TakeAction(action: Action, opponent: Robot, m: MathLib) returns (reward: real)
      requires opponent != this
      modifies this, opponent, physics
      ensures position == old(position) && orientation == old(orientation)
      ensures isGrounded == old(isGrounded) && stunned == old(stunned)
      ensures velocity == Steer(old(velocity), orientation, action, m)
      ensures energy == Recharged(old(energy), action)
      ensures isBlocking == (action == Block)
      ensures health == if old(physics.IsOutOfRing(physicsId)) then 0 else old(health)
      ensures opponent.State() == Strike(old(State()), old(opponent.State()), action, m).opponent
      ensures reward == Strike(old(State()), old(opponent.State()), action, m).reward
                        + (if old(physics.IsOutOfRing(physicsId)) then -50.0 else 0.0)
                        + Shaping(State(), opponent.State(), m)
      ensures physics.objects == Patched(old(physics.objects), physicsId, VelocityPatch(velocity))
      ensures physics.collisions == old(physics.collisions) && physics.time == old(physics.time)
    {
      ghost var outOfRing := physics.IsOutOfRing(physicsId);
      var strikeReward := Exert(action, opponent, m);
      physics.SetObjectState(physicsId, VelocityPatch(velocity));
      assert physics.IsOutOfRing(physicsId) == outOfRing;
      if action != Block {
        isBlocking := false;
      }
      var penalty := CheckRing();
      var shaping := ShapingReward(opponent, m);
      reward := strikeReward + penalty + shaping;
    }

    /** The first part of performAction past the stun test: energy, steering,
        then the strike, or the guard raised by a block. */
    method Exert(action: Action, opponent: Robot, m: MathLib) returns (reward: real)
      requires opponent != this
      modifies this, opponent
      ensures position == old(position) && orientation == old(orientation)
      ensures isGrounded == old(isGrounded) && stunned == old(stunned) && health == old(health)
      ensures velocity == Steer(old(velocity), orientation, action, m)
      ensures energy == Recharged(old(energy), action)
      ensures isBlocking == (action == Block || old(isBlocking))
      ensures opponent.State() == Strike(old(State()), old(opponent.State()), action, m).opponent
      ensures reward == Strike(old(State()), old(opponent.State()), action, m).reward
    {
      ghost var me, opp := State(), opponent.State();
      PayEnergy(action);
      velocity := Steer(velocity, orientation, action, m);
      StrikeDependsOnStance(me, State(), opp, action, m);
      reward := 0.0;
      if action == Punch || action == Kick {
        reward := StrikeOpponent(action, opponent, m);
      } else if action == Block {
        isBlocking := true;
      }
    }

    /** The energy cost of an action, and the recovery of an idle one. */
    method PayEnergy(action: Action)
      modifies this`energy
      ensures energy == Recharged(old(energy), action)
    {
      energy := MaxInt(0, energy - EnergyCost(action));
      if action == Idle {
        energy := MinInt(100, energy + 2);
      }
    }

    /** Out of the ring: health drops to 0 and the reward loses 50. */
    method CheckRing() returns (penalty: real)
      modifies this`health
      ensures health == if physics.IsOutOfRing(physicsId) then 0 else old(health)
      ensures penalty == if physics.IsOutOfRing(physicsId) then -50.0 else 0.0
    {
      penalty := 0.0;
      if physics.IsOutOfRing(physicsId) {
        health := 0;
        penalty := -50.0;
      }
    }

    /** The reward terms added after every action that was not skipped. */
    method ShapingReward(opponent: Robot, m: MathLib) returns (reward: real)
      ensures reward == Shaping(State(), opponent.State(), m)
    {
      reward := (100 - opponent.health) as real * 0.1;
      reward := reward - (100 - health) as real * 0.1;
      reward := reward + energy as real * 0.01;
      var distToOpponent := m.sqrt(PlanarDistanceSquared(State(), opponent.State()));
      if distToOpponent < 3.0 {
        reward := reward + (3.0 - distToOpponent) * 0.5;
      }
    }
  }
}
