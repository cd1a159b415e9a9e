/** The ball of the billiards game: a record with position, velocity and
    three flags, and the per-tick step functions that move it, strike it,
    collide it with another ball or with the table rails, and re-spot it.
    Every step returns a new record; the sounds the game plays become
    counters or flags in the result. */
module Balls {
  import opened Geometry

  const DIAMETER: real := 45.0
  const RADIUS: real := DIAMETER / 2.0
  /** Extra clearance a ball is given when it is clamped back from a rail. */
  const PUSH: real := 1.0
  /** Per-tick friction factor applied by `Update`. */
  const FRICTION: real := 0.985
  /** Extra energy loss applied after any rail contact. */
  const DAMPING: real := 0.98
  /** Below this speed on both axes a ball snaps to rest. */
  const STOP_SPEED: real := 10.0
  /** Where a hidden ball is parked, off the table. */
  const HIDDEN: Vec := Vec(-100.0, -100.0)
  /** The middle pocket spans this interval of x on the top and bottom rails. */
  const MIDDLE_POCKET_START: real := 720.0
  const MIDDLE_POCKET_END: real := 780.0
  /** Width along the top and bottom rails of each corner pocket. */
  const CORNER_POCKET: real := 60.0

  datatype Ball = Ball(
    position: Vec,
    velocity: Vec,
    moving: bool,
    color: string,
    potted: bool,
    id: int,
    collided: bool)

  /** The rail coordinates of the table; y grows downwards. */
  datatype Table = Table(topY: real, bottomY: real, leftX: real, rightX: real)

  /** Result of a ball-ball contact: both balls, and whether the strike sound plays. */
  datatype BallPair = BallPair(first: Ball, second: Ball, strike: bool)

  /** Result of a rail check: the ball, and how many times the pot sound plays. */
  datatype TableResult = TableResult(ball: Ball, pots: nat)

  /** The state threaded through the four sequential rail checks. */
  datatype RailPass = RailPass(ball: Ball, hit: bool, pots: nat)

  /** A ball that is not moving has no velocity. */
  predicate MotionConsistent(b: Ball) {
    !b.moving ==> b.velocity == Zero
  }

  /** The larger of the two speed components, the quantity the stop test looks at. */
  function Speed(v: Vec): real {
    Max(Abs(v.x), Abs(v.y))
  }

  /** Fields no physics step touches. */
  predicate SameIdentity(a: Ball, b: Ball) {
    a.color == b.color && a.id == b.id
  }

  function NewBall(position: Vec, color: string, id: int): (b: Ball)
    ensures b.position == position && b.velocity == Zero
    ensures !b.moving && !b.potted && !b.collided
    ensures b.color == color && b.id == id
    ensures MotionConsistent(b)
  {
    Ball(position, Zero, false, color, false, id, false)
  }

  /** One tick of motion: move by the velocity held before friction, then
      apply friction, then snap to rest when both components are slow. */
  function Update(b: Ball, delta: real): (r: Ball)
    ensures r.position == Add(b.position, Scale(b.velocity, delta))
    ensures Abs(r.velocity.x) <= Abs(b.velocity.x) && Abs(r.velocity.y) <= Abs(b.velocity.y)
    ensures r.velocity == Zero || r.velocity == Scale(b.velocity, FRICTION)
    ensures (r.velocity == Zero && !r.moving) || Speed(r.velocity) >= STOP_SPEED
    ensures Speed(b.velocity) < STOP_SPEED ==> r.velocity == Zero && !r.moving
    ensures Speed(Scale(b.velocity, FRICTION)) < STOP_SPEED ==> r.velocity == Zero && !r.moving
    ensures Speed(Scale(b.velocity, FRICTION)) >= STOP_SPEED ==>
      r.velocity == Scale(b.velocity, FRICTION) && r.moving == b.moving
    ensures r.velocity != Zero ==> r.moving == b.moving
    ensures r.moving ==> b.moving
    ensures r.potted == b.potted && r.collided == b.collided && SameIdentity(r, b)
  {
    var position := Add(b.position, Scale(b.velocity, delta));
    var velocity := Scale(b.velocity, FRICTION);
    if Abs(velocity.x) < STOP_SPEED && Abs(velocity.y) < STOP_SPEED then
      b.(position := position, velocity := Zero, moving := false)
    else
      b.(position := position, velocity := velocity)
  }

  /** Strike the ball with `power` along the direction whose cosine and
      sine are `cos` and `sin`. */
  function Shoot(b: Ball, power: real, cos: real, sin: real): (r: Ball)
    requires cos * cos + sin * sin == 1.0
    ensures NormSq(r.velocity) == power * power
    ensures Dot(r.velocity, Vec(-sin, cos)) == 0.0
    ensures Dot(r.velocity, Vec(cos, sin)) == power
    ensures r.moving
    ensures r.position == b.position && r.potted == b.potted && r.collided == b.collided
    ensures SameIdentity(r, b)
  {
    UnitDirection(power, cos, sin);
    b.(velocity := Vec(power * cos, power * sin), moving := true)
  }

  lemma UnitDirection(power: real, cos: real, sin: real)
    requires cos * cos + sin * sin == 1.0
    ensures NormSq(Vec(power * cos, power * sin)) == power * power
    ensures Dot(Vec(power * cos, power * sin), Vec(-sin, cos)) == 0.0
    ensures Dot(Vec(power * cos, power * sin), Vec(cos, sin)) == power
  {
  }

  /** The vector from the second centre to the first. */
  function Offset(a: Ball, b: Ball): Vec {
    Sub(a.position, b.position)
  }

  /** The caller's `dist` is the centre distance: it stands for the square
      root the game computes, and is positive. */
  predicate IsDistance(a: Ball, b: Ball, dist: real) {
    dist > 0.0 && dist * dist == NormSq(Offset(a, b))
  }

  /** Unit vector along the line of centres, from the second ball to the first. */
  function UnitNormal(a: Ball, b: Ball, dist: real): Vec
    requires dist > 0.0
  {
    Vec(Offset(a, b).x / dist, Offset(a, b).y / dist)
  }

  /** The minimum translation that separates two overlapping balls. */
  function Translation(a: Ball, b: Ball, dist: real): Vec
    requires dist > 0.0
  {
    Scale(Offset(a, b), (DIAMETER - dist) / dist)
  }

  /** Resolve a contact between the receiver `a` and the argument `b`: push
      the centres apart to one diameter, swap the velocity components along
      the line of centres and keep the tangential ones. Only the receiver is
      flagged as having collided. */
  function CollideWithBall(a: Ball, b: Ball, dist: real): (r: BallPair)
    requires IsDistance(a, b, dist)
    ensures r.strike <==> dist <= DIAMETER
    ensures !r.strike ==> r.first == a && r.second == b
    ensures r.strike ==> r.first.moving && r.second.moving
    ensures r.strike ==> r.first.collided && r.second.collided == b.collided
    ensures r.first.potted == a.potted && r.second.potted == b.potted
    ensures SameIdentity(r.first, a) && SameIdentity(r.second, b)
  {
    if dist > DIAMETER then BallPair(a, b, false)
    else
      var half := Scale(Translation(a, b, dist), 0.5);
      var u := UnitNormal(a, b, dist);
      var t := Perp(u);
      var v1n, v1t := Dot(a.velocity, u), Dot(a.velocity, t);
      var v2n, v2t := Dot(b.velocity, u), Dot(b.velocity, t);
      var a' := a.(position := Add(a.position, half),
                   velocity := Add(Scale(u, v2n), Scale(t, v1t)),
                   moving := true, collided := true);
      var b' := b.(position := Sub(b.position, half),
                   velocity := Add(Scale(u, v1n), Scale(t, v2t)),
                   moving := true);
      BallPair(a', b', true)
  }

  /** Whether `x` lies in one of the three pocket zones of the top and bottom rails. */
  predicate InPocket(x: real, t: Table) {
    || (MIDDLE_POCKET_START <= x <= MIDDLE_POCKET_END)
    || (t.rightX - CORNER_POCKET <= x <= t.rightX)
    || (t.leftX <= x <= t.leftX + CORNER_POCKET)
  }

  /** Whether a centre at `p` touches any of the four rails. */
  predicate RailContact(p: Vec, t: Table) {
    p.y <= t.topY + RADIUS || p.x >= t.rightX - RADIUS
    || p.y >= t.bottomY - RADIUS || p.x <= t.leftX + RADIUS
  }

  /** Rails far enough apart that a ball clamped off one rail clears the opposite one. */
  predicate WellFormed(t: Table) {
    t.topY + DIAMETER + PUSH < t.bottomY && t.leftX + DIAMETER + PUSH < t.rightX
  }

  function Pocket(b: Ball): (r: Ball)
    ensures r.potted && !r.moving && r.velocity == Zero
    ensures r.position == b.position && r.collided == b.collided && SameIdentity(r, b)
  {
    b.(velocity := Zero, moving := false, potted := true)
  }

  /** What every rail check guarantees about the state it hands on: only
      the motion fields change, a pot stops the ball, a stopped ball stays
      stopped, and a check that does not fire changes nothing. */
  predicate RailStep(s: RailPass, r: RailPass) {
    && r.ball.collided == s.ball.collided && SameIdentity(r.ball, s.ball)
    && (r.ball.moving ==> s.ball.moving)
    && (r.ball.potted <==> s.ball.potted || r.pots > s.pots)
    && r.pots >= s.pots
    && (s.hit ==> r.hit)
    && (!r.hit ==> r == s)
    && (r.pots > s.pots ==> r.ball.velocity == Zero && !r.ball.moving)
    && (s.ball.velocity == Zero && !s.ball.moving ==> r.ball.velocity == Zero && !r.ball.moving)
    && (MotionConsistent(s.ball) ==> MotionConsistent(r.ball))
  }

  /** A top or bottom rail that does not pot leaves the x motion alone. */
  predicate AlongX(b: Ball, r: Ball) {
    r.position.x == b.position.x && r.velocity.x == b.velocity.x
    && r.moving == b.moving && r.potted == b.potted
  }

  /** A left or right rail leaves the y motion alone and at most flips the x velocity. */
  predicate AlongY(b: Ball, r: Ball) {
    r.position.y == b.position.y && r.velocity.y == b.velocity.y
    && Abs(r.velocity.x) == Abs(b.velocity.x)
    && r.moving == b.moving && r.potted == b.potted
  }

  function TopRail(s: RailPass, t: Table): (r: RailPass)
    ensures RailStep(s, r)
    ensures s.ball.position.y > t.topY + RADIUS ==> r == s
    ensures r.pots == s.pots ==> AlongX(s.ball, r.ball)
  {
    var b := s.ball;
    if b.position.y <= t.topY + RADIUS then
      if InPocket(b.position.x, t) then RailPass(Pocket(b), true, s.pots + 1)
      else
        var b' := b.(velocity := b.velocity.(y := -b.velocity.y),
                     position := b.position.(y := t.topY + RADIUS + PUSH));
        RailPass(b', true, s.pots)
    else s
  }

  function RightRail(s: RailPass, t: Table): (r: RailPass)
    ensures RailStep(s, r) && r.pots == s.pots && AlongY(s.ball, r.ball)
    ensures s.ball.position.x < t.rightX - RADIUS ==> r == s
  {
    var b := s.ball;
    if b.position.x >= t.rightX - RADIUS then
      var b' := b.(velocity := b.velocity.(x := -b.velocity.x),
                   position := b.position.(x := t.rightX - RADIUS - PUSH));
      RailPass(b', true, s.pots)
    else s
  }

  function BottomRail(s: RailPass, t: Table): (r: RailPass)
    ensures RailStep(s, r)
    ensures s.ball.position.y < t.bottomY - RADIUS ==> r == s
    ensures r.pots == s.pots ==> AlongX(s.ball, r.ball)
  {
    var b := s.ball;
    if b.position.y >= t.bottomY - RADIUS then
      if InPocket(b.position.x, t) then RailPass(Pocket(b), true, s.pots + 1)
      else
        var b' := b.(velocity := b.velocity.(y := -b.velocity.y),
                     position := b.position.(y := t.bottomY - RADIUS - PUSH));
        RailPass(b', true, s.pots)
    else s
  }

  function LeftRail(s: RailPass, t: Table): (r: RailPass)
    ensures RailStep(s, r) && r.pots == s.pots && AlongY(s.ball, r.ball)
    ensures s.ball.position.x > t.leftX + RADIUS ==> r == s
  {
    var b := s.ball;
    if b.position.x <= t.leftX + RADIUS then
      var b' := b.(velocity := b.velocity.(x := -b.velocity.x),
                   position := b.position.(x := t.leftX + RADIUS + PUSH));
      RailPass(b', true, s.pots)
    else s
  }

  /** The four rail checks in the game's order, each seeing the ball as the
      previous one left it. */
  function Rails(b: Ball, t: Table): (r: RailPass)
    ensures RailStep(RailPass(b, false, 0), r)
    ensures !RailContact(b.position, t) ==> r == RailPass(b, false, 0)
  {
    var s0 := RailPass(b, false, 0);
    var s1 := TopRail(s0, t);
    var s2 := RightRail(s1, t);
    var s3 := BottomRail(s2, t);
    var s4 := LeftRail(s3, t);
    assert RailStep(s0, s2);
    assert RailStep(s0, s3);
    s4
  }

  /** Rail collision of a moving ball: reflect off the rails, pot it in a
      pocket zone of the top or bottom rail, and damp the velocity after any contact. */
  function CollideWithTable(b: Ball, t: Table): (r: TableResult)
    ensures !b.moving ==> r == TableResult(b, 0)
    ensures !RailContact(b.position, t) ==> r == TableResult(b, 0)
    ensures r.ball.moving ==> b.moving
    ensures r.ball.potted <==> b.potted || r.pots > 0
    ensures r.pots > 0 ==> r.ball.velocity == Zero && !r.ball.moving
    ensures r.ball.collided == b.collided && SameIdentity(r.ball, b)
    ensures MotionConsistent(b) ==> MotionConsistent(r.ball)
  {
    if !b.moving then TableResult(b, 0)
    else
      var s := Rails(b, t);
      if s.hit then TableResult(s.ball.(velocity := Scale(s.ball.velocity, DAMPING)), s.pots)
      else TableResult(s.ball, s.pots)
  }

  /** Re-spot the ball: new position, no velocity, no longer potted. */
  function Reposition(b: Ball, position: Vec): (r: Ball)
    ensures r.position == position && r.velocity == Zero && !r.potted
    ensures r.moving == b.moving && r.collided == b.collided && SameIdentity(r, b)
    ensures MotionConsistent(r)
  {
    b.(position := position, velocity := Zero, potted := false)
  }

  /** Park the ball off the table; nothing but its position changes. */
  function Hide(b: Ball): (r: Ball)
    ensures r.position == HIDDEN
    ensures r == b.(position := r.position)
  {
    b.(position := HIDDEN)
  }
}
