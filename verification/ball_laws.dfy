/** Properties of the ball step functions that relate several calls or
    need a proof: conservation laws of the ball-ball contact, termination
    of rolling under friction, and the rail and pocket behaviour. */
module BallLaws {
  import opened Geometry
  import opened Balls

  // ---------------------------------------------------------------------
  // Ball-ball contact

  /** Normal components are exchanged and tangential ones kept, measured
      in the frame of the line of centres. */
  lemma CollisionSwapsNormalComponents(a: Ball, b: Ball, dist: real)
    requires IsDistance(a, b, dist) && dist <= DIAMETER
    ensures var r, u := CollideWithBall(a, b, dist), UnitNormal(a, b, dist);
      && Dot(r.first.velocity, u) == Dot(b.velocity, u)
      && Dot(r.second.velocity, u) == Dot(a.velocity, u)
      && Dot(r.first.velocity, Perp(u)) == Dot(a.velocity, Perp(u))
      && Dot(r.second.velocity, Perp(u)) == Dot(b.velocity, Perp(u))
  {
    var u := UnitNormal(a, b, dist);
    UnitByLength(Offset(a, b), dist);
    Project(u, Dot(b.velocity, u), Dot(a.velocity, Perp(u)));
    Project(u, Dot(a.velocity, u), Dot(b.velocity, Perp(u)));
  }

  /** Equal masses: the sum of the two velocities is unchanged. */
  lemma CollisionConservesMomentum(a: Ball, b: Ball, dist: real)
    requires IsDistance(a, b, dist)
    ensures var r := CollideWithBall(a, b, dist);
      Add(r.first.velocity, r.second.velocity) == Add(a.velocity, b.velocity)
  {
    if dist <= DIAMETER {
      var u := UnitNormal(a, b, dist);
      UnitByLength(Offset(a, b), dist);
      Decompose(a.velocity, u);
      Decompose(b.velocity, u);
    }
  }

  /** Equal masses: the sum of the squared speeds is unchanged. */
  lemma CollisionConservesEnergy(a: Ball, b: Ball, dist: real)
    requires IsDistance(a, b, dist)
    ensures var r := CollideWithBall(a, b, dist);
      NormSq(r.first.velocity) + NormSq(r.second.velocity) == NormSq(a.velocity) + NormSq(b.velocity)
  {
    if dist <= DIAMETER {
      var u := UnitNormal(a, b, dist);
      var t := Perp(u);
      UnitByLength(Offset(a, b), dist);
      var v1n, v1t := Dot(a.velocity, u), Dot(a.velocity, t);
      var v2n, v2t := Dot(b.velocity, u), Dot(b.velocity, t);
      Decompose(a.velocity, u);
      Decompose(b.velocity, u);
      Pythagoras(u, v1n, v1t);
      Pythagoras(u, v2n, v2t);
      Pythagoras(u, v2n, v1t);
      Pythagoras(u, v1n, v2t);
    }
  }

  /** The push is equal and opposite: the midpoint of the two centres stays put. */
  lemma CollisionKeepsMidpoint(a: Ball, b: Ball, dist: real)
    requires IsDistance(a, b, dist)
    ensures var r := CollideWithBall(a, b, dist);
      Add(r.first.position, r.second.position) == Add(a.position, b.position)
  {
  }

  /** After a contact the centres are exactly one diameter apart, along the
      original line of centres. */
  lemma CollisionSeparatesCentres(a: Ball, b: Ball, dist: real)
    requires IsDistance(a, b, dist) && dist <= DIAMETER
    ensures var r := CollideWithBall(a, b, dist);
      && Offset(r.first, r.second) == Scale(UnitNormal(a, b, dist), DIAMETER)
      && NormSq(Offset(r.first, r.second)) == DIAMETER * DIAMETER
  {
    var n, u := Offset(a, b), UnitNormal(a, b, dist);
    var k := (DIAMETER - dist) / dist;
    assert k == DIAMETER / dist - 1.0;
    assert n.x + k * n.x == (n.x / dist) * DIAMETER;
    assert n.y + k * n.y == (n.y / dist) * DIAMETER;
    UnitByLength(n, dist);
    Pythagoras(u, DIAMETER, 0.0);
    assert Add(Scale(u, DIAMETER), Scale(Perp(u), 0.0)) == Scale(u, DIAMETER);
  }

  // ---------------------------------------------------------------------
  // Rolling

  /** Repeated ticks of `Update` with a fixed time step. */
  function Roll(b: Ball, delta: real, n: nat): Ball
    decreases n
  {
    if n == 0 then b else Roll(Update(b, delta), delta, n - 1)
  }

  /** Each tick either brings the ball to rest or takes at least 0.15 off its speed. */
  lemma FrictionSlows(b: Ball, delta: real)
    ensures var r := Update(b, delta);
      (r.velocity == Zero && !r.moving) || Speed(r.velocity) <= Speed(b.velocity) - 0.15
  {
  }

  /** A ball at rest stays where it is, at rest, however many ticks pass. */
  lemma {:induction false} RestingBallStays(b: Ball, delta: real, n: nat)
    requires b.velocity == Zero && !b.moving
    ensures Roll(b, delta, n) == b
    decreases n
  {
    if n > 0 {
      assert Update(b, delta) == b;
      RestingBallStays(b, delta, n - 1);
    }
  }

  /** Friction always wins: a ball whose speed is at most 0.15 per tick
      of the horizon is at rest, with `moving` cleared, once it has elapsed. */
  lemma {:induction false} FrictionStopsBall(b: Ball, delta: real, n: nat)
    requires n >= 1 && Speed(b.velocity) <= 0.15 * n as real
    ensures Roll(b, delta, n).velocity == Zero && !Roll(b, delta, n).moving
    decreases n
  {
    var r := Update(b, delta);
    assert Roll(b, delta, n) == Roll(r, delta, n - 1);
    if n == 1 {
      assert Speed(b.velocity) < STOP_SPEED;
    } else {
      FrictionSlows(b, delta);
      if r.velocity == Zero && !r.moving {
        RestingBallStays(r, delta, n - 1);
      } else {
        assert Speed(r.velocity) <= 0.15 * (n - 1) as real;
        FrictionStopsBall(r, delta, n - 1);
      }
    }
  }

  // ---------------------------------------------------------------------
  // Rails and pockets

  /** A moving ball reaching the top rail inside a pocket zone is potted and stopped. */
  lemma TopPocketPots(b: Ball, t: Table)
    requires b.moving && b.position.y <= t.topY + RADIUS && InPocket(b.position.x, t)
    ensures var r := CollideWithTable(b, t);
      r.ball.potted && !r.ball.moving && r.ball.velocity == Zero && r.pots >= 1
  {
    var s1 := TopRail(RailPass(b, false, 0), t);
    assert s1.pots == 1;
    var s3 := BottomRail(RightRail(s1, t), t);
    assert s3.pots >= 1;
  }

  /** A moving ball reaching the bottom rail inside a pocket zone is potted
      and stopped, even when the right rail moved it first. */
  lemma BottomPocketPots(b: Ball, t: Table)
    requires b.moving && t.topY + RADIUS < b.position.y
    requires b.position.y >= t.bottomY - RADIUS && InPocket(b.position.x, t)
    ensures var r := CollideWithTable(b, t);
      r.ball.potted && !r.ball.moving && r.ball.velocity == Zero && r.pots >= 1
  {
    var s1 := TopRail(RailPass(b, false, 0), t);
    assert s1 == RailPass(b, false, 0);
    var s2 := RightRail(s1, t);
    assert InPocket(s2.ball.position.x, t);
    assert BottomRail(s2, t).pots >= 1;
  }

  /** A moving ball touching both the right and the bottom rail is always
      potted, wherever its x lies: the right rail runs first and clamps x to
      RightX - 23.5, inside the right corner zone the bottom rail then
      tests. The top rail runs before that clamp, so at the top the same x
      can reflect instead (`TopRailReflects` has no bound on x). */
  lemma BottomRightCornerPots(b: Ball, t: Table)
    requires b.moving && t.topY + RADIUS < b.position.y
    requires b.position.y >= t.bottomY - RADIUS && b.position.x >= t.rightX - RADIUS
    ensures var r := CollideWithTable(b, t);
      r.ball.potted && !r.ball.moving && r.ball.velocity == Zero && r.pots >= 1
  {
    var s2 := RightRail(TopRail(RailPass(b, false, 0), t), t);
    assert s2.ball.position.x == t.rightX - RADIUS - PUSH;
    assert InPocket(s2.ball.position.x, t);
  }

  /** Outside a pocket the top rail reflects: the y velocity is negated and
      damped, y is clamped just below the rail, nothing is potted. */
  lemma TopRailReflects(b: Ball, t: Table)
    requires WellFormed(t) && b.moving
    requires b.position.y <= t.topY + RADIUS && !InPocket(b.position.x, t)
    ensures var r := CollideWithTable(b, t);
      && r.ball.velocity.y == -b.velocity.y * DAMPING
      && r.ball.position.y == t.topY + RADIUS + PUSH
      && Abs(r.ball.velocity.x) == Abs(b.velocity.x) * DAMPING
      && r.pots == 0 && r.ball.potted == b.potted && r.ball.moving
  {
    var s1 := TopRail(RailPass(b, false, 0), t);
    assert s1.hit && s1.pots == 0 && s1.ball.position.y == t.topY + RADIUS + PUSH;
    assert s1.ball.velocity == Vec(b.velocity.x, -b.velocity.y);
    var s2 := RightRail(s1, t);
    assert BottomRail(s2, t) == s2;
    var s4 := LeftRail(s2, t);
    assert s4 == Rails(b, t) && s4.hit && AlongY(s1.ball, s4.ball);
  }

  /** Outside a pocket the bottom rail reflects in the same way. */
  lemma BottomRailReflects(b: Ball, t: Table)
    requires WellFormed(t) && b.moving && b.position.x <= t.rightX
    requires t.topY + RADIUS < b.position.y
    requires b.position.y >= t.bottomY - RADIUS && !InPocket(b.position.x, t)
    ensures var r := CollideWithTable(b, t);
      && r.ball.velocity.y == -b.velocity.y * DAMPING
      && r.ball.position.y == t.bottomY - RADIUS - PUSH
      && Abs(r.ball.velocity.x) == Abs(b.velocity.x) * DAMPING
      && r.pots == 0 && r.ball.potted == b.potted && r.ball.moving
  {
    var s0 := RailPass(b, false, 0);
    assert TopRail(s0, t) == s0;
    assert b.position.x < t.rightX - RADIUS;
    assert RightRail(s0, t) == s0;
    var s3 := BottomRail(s0, t);
    assert s3.hit && s3.pots == 0 && s3.ball.position.y == t.bottomY - RADIUS - PUSH;
    assert s3.ball.velocity == Vec(b.velocity.x, -b.velocity.y);
    var s4 := LeftRail(s3, t);
    assert s4 == Rails(b, t) && s4.hit && AlongY(s3.ball, s4.ball);
  }

  /** The left and right rails never pot: they negate and damp the x
      velocity and clamp x just inside the rail. */
  lemma SideRailsReflect(b: Ball, t: Table)
    requires WellFormed(t) && b.moving
    requires t.topY + RADIUS < b.position.y < t.bottomY - RADIUS
    ensures var r := CollideWithTable(b, t);
      && r.pots == 0 && r.ball.potted == b.potted
      && (b.position.x >= t.rightX - RADIUS ==>
            && r.ball.velocity == Vec(-b.velocity.x * DAMPING, b.velocity.y * DAMPING)
            && r.ball.position == Vec(t.rightX - RADIUS - PUSH, b.position.y))
      && (b.position.x <= t.leftX + RADIUS ==>
            && r.ball.velocity == Vec(-b.velocity.x * DAMPING, b.velocity.y * DAMPING)
            && r.ball.position == Vec(t.leftX + RADIUS + PUSH, b.position.y))
  {
    var s0 := RailPass(b, false, 0);
    assert TopRail(s0, t) == s0;
    var s2 := RightRail(s0, t);
    assert BottomRail(s2, t) == s2;
    if b.position.x >= t.rightX - RADIUS {
      assert s2.ball.position == Vec(t.rightX - RADIUS - PUSH, b.position.y);
      assert LeftRail(s2, t) == s2;
    } else if b.position.x <= t.leftX + RADIUS {
      assert s2 == s0;
    }
  }

  // ---------------------------------------------------------------------
  // Whole-ball invariants

  /** Every step keeps "not moving means no velocity". */
  lemma MotionConsistencyPreserved(b: Ball, other: Ball, delta: real, dist: real,
                                   power: real, cos: real, sin: real, t: Table, p: Vec)
    requires MotionConsistent(b)
    ensures MotionConsistent(Update(b, delta))
    ensures cos * cos + sin * sin == 1.0 ==> MotionConsistent(Shoot(b, power, cos, sin))
    ensures IsDistance(b, other, dist) && MotionConsistent(other) ==>
      MotionConsistent(CollideWithBall(b, other, dist).first)
      && MotionConsistent(CollideWithBall(b, other, dist).second)
    ensures MotionConsistent(CollideWithTable(b, t).ball)
    ensures MotionConsistent(Reposition(b, p))
    ensures MotionConsistent(Hide(b))
  {
  }

  /** Hiding a ball before re-spotting it makes no difference. */
  lemma RespotAfterHide(b: Ball, p: Vec)
    ensures Reposition(Hide(b), p) == Reposition(b, p)
  {
  }
}
