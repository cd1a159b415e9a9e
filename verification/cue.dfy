/** The cue: a charge-and-release state machine. While the left mouse
    button is held and no shot has been taken, power grows by a fixed step
    each tick; on release the shot fires once with the charged power and
    the current rotation, power resets, and `shot` latches until the cue is
    repositioned. The `onShoot` callback becomes the `fired` field of a step. */
module Cues {
  import opened Geometry

  /** The cap the charge guard compares against (strictly). */
  const MAX_POWER: int := 6000
  const POWER_STEP: int := 120
  /** How far the sprite anchor slides back per charge step. */
  const ORIGIN_STEP: real := 5.0
  /** The highest power the strict guard lets through: one step past the cap. */
  const PEAK_POWER: int := MAX_POWER + POWER_STEP
  /** Sprite anchor of a cue at rest, and right after a shot. */
  const REST_ORIGIN: Vec := Vec(970.0, 11.0)
  const FIRED_ORIGIN: Vec := Vec(950.0, 11.0)

  datatype Option<T> = None | Some(value: T)

  datatype Cue = Cue(position: Vec, rotation: real, origin: Vec, power: int, shot: bool)

  /** The arguments the cue passes to its `onShoot` callback. */
  datatype Shot = Shot(power: int, rotation: real)

  /** One call of `update`: the new cue and the shot it fired, if any. */
  datatype Step = Step(cue: Cue, fired: Option<Shot>)

  /** The inputs one `update` reads: whether the left button is down, and
      the angle from the cue to the pointer (the result of `atan2`). */
  datatype Tick = Tick(leftDown: bool, aim: real)

  /** A run of updates: the final cue and every shot fired, in order. */
  datatype Trace = Trace(cue: Cue, shots: seq<Shot>)

  function MinInt(a: int, b: int): int {
    if a < b then a else b
  }

  /** The states the cue can reach: power is a whole number of steps no
      higher than the peak, and a taken shot leaves no charge behind. */
  predicate Valid(c: Cue) {
    && 0 <= c.power <= PEAK_POWER
    && c.power % POWER_STEP == 0
    && (c.shot ==> c.power == 0 && c.origin == FIRED_ORIGIN)
  }

  function NewCue(position: Vec): (c: Cue)
    ensures c.position == position && c.rotation == 0.0 && c.origin == REST_ORIGIN
    ensures c.power == 0 && !c.shot
    ensures Valid(c)
  {
    Cue(position, 0.0, REST_ORIGIN, 0, false)
  }

  /** One charge step: nothing once power exceeds the cap, otherwise one
      power step with the sprite anchor sliding back in lockstep. */
  function IncreasePower(c: Cue): (r: Cue)
    ensures c.power > MAX_POWER ==> r == c
    ensures c.power <= MAX_POWER ==> r.power == c.power + POWER_STEP
    ensures r.power <= PEAK_POWER || r == c
    ensures r.origin == Vec(c.origin.x + ORIGIN_STEP * ((r.power - c.power) / POWER_STEP) as real, c.origin.y)
    ensures r.position == c.position && r.rotation == c.rotation && r.shot == c.shot
  {
    if c.power > MAX_POWER then c
    else c.(power := c.power + POWER_STEP, origin := c.origin.(x := c.origin.x + ORIGIN_STEP))
  }

  /** Fire: report the charged power and the rotation, then reset power and
      the anchor and latch `shot`. */
  function Shoot(c: Cue): (r: Step)
    ensures r.fired == Some(Shot(c.power, c.rotation))
    ensures r.cue.power == 0 && r.cue.shot && r.cue.origin == FIRED_ORIGIN
    ensures r.cue.position == c.position && r.cue.rotation == c.rotation
    ensures Valid(r.cue)
  {
    Step(c.(power := 0, origin := FIRED_ORIGIN, shot := true), Some(Shot(c.power, c.rotation)))
  }

  /** One tick: charge while the button is held and no shot was taken,
      otherwise fire if there is any charge; then take the new aim. The
      shot carries the rotation from before this tick's aim. */
  function Update(c: Cue, leftDown: bool, aim: real): (r: Step)
    ensures leftDown && !c.shot ==> r.fired == None && r.cue == IncreasePower(c).(rotation := aim)
    ensures r.fired.Some? <==> !(leftDown && !c.shot) && c.power > 0
    ensures r.fired.Some? ==> r.fired.value == Shot(c.power, c.rotation)
    ensures r.fired.Some? ==> r.cue.power == 0 && r.cue.shot && r.cue.origin == FIRED_ORIGIN
    ensures !(leftDown && !c.shot) && c.power <= 0 ==> r.cue == c.(rotation := aim)
    ensures r.cue.rotation == aim && r.cue.position == c.position
    ensures Valid(c) ==> Valid(r.cue)
  {
    var s :=
      if leftDown && !c.shot then Step(IncreasePower(c), None)
      else if c.power > 0 then Shoot(c)
      else Step(c, None);
    s.(cue := s.cue.(rotation := aim))
  }

  /** Move the cue to a new position for the next shot: the anchor resets
      and the latch clears; power and rotation are kept. */
  function Reposition(c: Cue, position: Vec): (r: Cue)
    ensures r.position == position && r.origin == REST_ORIGIN && !r.shot
    ensures r.power == c.power && r.rotation == c.rotation
    ensures Valid(c) ==> Valid(r)
  {
    c.(position := position, origin := REST_ORIGIN, shot := false)
  }

  /** Feed a sequence of ticks to `Update`, collecting the shots fired. */
  function Run(c: Cue, ticks: seq<Tick>): Trace
    decreases |ticks|
  {
    if |ticks| == 0 then Trace(c, [])
    else
      var s := Update(c, ticks[0].leftDown, ticks[0].aim);
      var rest := Run(s.cue, ticks[1..]);
      Trace(rest.cue, (if s.fired.Some? then [s.fired.value] else []) + rest.shots)
  }
}
