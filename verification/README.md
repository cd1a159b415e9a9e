# Billiards physics, cue and mouse input — a Dafny model

This project models the sequential core of a small browser billiards game:

- **the ball** (`web-app/Ball.js`): a record with position, velocity and the
  `moving`, `potted` and `collided` flags, and its per-tick steps: `update`
  (integration, friction, stop snap), `shoot`, `collideWithBall` (push apart,
  swap normal velocity components), `collideWithTable` (rail reflection,
  pocketing, damping), `reposition` and `hide`;
- **the cue** (`web-app/Cue.js`): a charge-and-release state machine. Power
  grows by 120 per tick while the left button is held and no shot has been
  taken. On release it fires `onShoot(power, rotation)` once, resets power
  and latches `shot` until `reposition`;
- **the mouse** (`web-app/Input.js`): three buttons with a level flag
  (`down`) and an edge flag (`pressed`), driven by the down, up and reset
  handlers, plus the pointer position in canvas coordinates.

Numbers are Dafny `real`, an exact idealisation of JavaScript doubles.
Every operation is a pure function from the old record to a new one:

- the sounds the game plays become result fields (`strike`, `pots`);
- `onShoot` becomes the `fired` field of a cue step;
- the global `Mouse` read by the cue becomes a `leftDown` argument.

Modules:

- `Geometry` (`geometry.dfy`): vectors and orthonormal-frame facts.
- `Balls` (`ball.dfy`) and `BallLaws` (`ball_laws.dfy`): the ball.
- `Cues` (`cue.dfy`) and `CueLaws` (`cue_laws.dfy`): the cue.
- `Input` (`input.dfy`): the mouse.
- `Session` (`session.dfy`): the left button's level feeding the cue.

Two places where a square root or trigonometry is needed take the result
as an argument:

- `collideWithBall` gets the centre distance `dist`. It must satisfy
  `dist > 0` and `dist * dist == |a - b|^2` (`Balls.IsDistance`). The unit
  normal is `(nx / dist, ny / dist)`.
- `shoot` gets the pair `(cos θ, sin θ)`, with `cos² + sin² == 1`.

The cue's `updateRotation` (an `atan2` of the pointer offset) becomes the
`aim` argument of each tick.

Behaviour of the code that a reader may not expect, modelled as written:

- The charge guard is `power > MAX_POWER`, a strict comparison. Power
  therefore reaches 6120 (`PEAK_POWER`), one step past the cap of 6000. It
  is not clamped at 6000.
- Rail contact is tested at one radius from the rail. The clamp puts the
  ball at radius plus `PUSH` (1) from the rail.
- `update` has no precondition on the time step. Any `delta` is accepted.
- Only the top and bottom rails test the pocket zones. The left and right
  rails always reflect.
- The strike rotation is the one held before the tick's re-aim. This is
  because `update` calls `shoot` before `updateRotation`.
- The corners are not symmetric. A ball past the right rail at the bottom
  rail is first clamped by the right rail to RightX − 23.5, which lies in
  the corner zone, so the bottom rail pots it. At the top rail the same
  ball reflects, because the top check runs before the right-rail clamp.

## Model

| member | source | states |
|---|---|---|
| Balls.NewBall | web-app/Ball.js:14-56 | a fresh ball copies the given position, has zero velocity and all three flags false, so it starts at rest consistently |
| Balls.Update | web-app/Ball.js:62-77 | position advances by the pre-friction velocity times delta; the velocity becomes exactly zero with `moving` false iff both components of 0.985·v are below 10 in magnitude, and otherwise it is 0.985·v with `moving` kept; neither component grows in magnitude; a ball slower than 10 on both axes always stops; `potted`/`collided` are untouched |
| Balls.Shoot | web-app/Ball.js:91-97 | for a unit direction the new speed squared is power squared, the velocity has no component across the aim and exactly `power` along it, for any sign of power; the ball is moving and nothing else changes |
| Balls.CollideWithBall | web-app/Ball.js:103-160 | the strike happens iff the centre distance is at most 45; otherwise both balls are returned unchanged; on a strike both balls move, only the receiver is flagged `collided`, and `potted` and identity are kept |
| Balls.CollideWithTable | web-app/Ball.js:166-235 | a ball that is not moving, or touches no rail, is unchanged; the step never starts a ball moving; the ball is potted iff it was or a pot occurred; a pot leaves it stopped with zero velocity; it keeps "not moving means no velocity" |
| Balls.Reposition | web-app/Ball.js:241-247 | the ball moves to the new spot with zero velocity and `potted` cleared; `moving` and `collided` are kept |
| Balls.Hide | web-app/Ball.js:252-255 | only the position changes, to (-100, -100) |
| Geometry.UnitByLength | web-app/Ball.js:130-133 | dividing the centre offset by its length gives a unit normal |
| BallLaws.CollisionSwapsNormalComponents | web-app/Ball.js:135-153 | after a contact each ball's normal component equals the other's old one and its tangent component is its own old one |
| BallLaws.CollisionConservesMomentum | web-app/Ball.js:139-153 | the sum of the two velocities is the same before and after the call |
| BallLaws.CollisionConservesEnergy | web-app/Ball.js:139-153 | the sum of the squared speeds is the same before and after the call |
| BallLaws.CollisionKeepsMidpoint | web-app/Ball.js:120-128 | the two pushes are equal and opposite: the sum of the centres is unchanged |
| BallLaws.CollisionSeparatesCentres | web-app/Ball.js:120-128 | after a contact the centres lie exactly one diameter (45) apart along the original line of centres |
| BallLaws.FrictionSlows | web-app/Ball.js:67-76 | each tick either stops the ball or takes at least 0.15 off its larger speed component |
| BallLaws.RestingBallStays | web-app/Ball.js:62-77 | a ball with zero velocity and `moving` false is unchanged by any number of ticks |
| BallLaws.FrictionStopsBall | web-app/Ball.js:62-77 | a ball whose larger speed component is at most 0.15·n is at rest, `moving` false, after n ticks: the stop snap makes every roll end |
| BallLaws.TopPocketPots | web-app/Ball.js:174-186 | a moving ball at the top rail inside a pocket zone ends potted, not moving, with zero velocity, through the later rail checks and damping |
| BallLaws.BottomPocketPots | web-app/Ball.js:194-216 | likewise at the bottom rail, also when the right-rail clamp moved it first (the clamp lands inside the corner zone) |
| BallLaws.TopRailReflects | web-app/Ball.js:174-234 | outside a pocket the top rail negates and damps y velocity, clamps y to TopY+R+1, keeps the ball moving and pots nothing |
| BallLaws.BottomRightCornerPots | web-app/Ball.js:194-216 | a moving ball touching both the right and the bottom rail is always potted and stopped, whatever its x: the right-rail clamp to RightX−23.5 lands in the corner zone |
| BallLaws.BottomRailReflects | web-app/Ball.js:202-234 | for x ≤ RightX and outside a pocket, the bottom rail negates and damps y velocity, clamps y to BottomY−R−1, keeps the ball moving and pots nothing |
| BallLaws.SideRailsReflect | web-app/Ball.js:195-234 | between the top and bottom rails the left and right rails never pot; they negate and damp x velocity, damp y velocity and clamp x to LeftX+R+1 or RightX−R−1 |
| BallLaws.MotionConsistencyPreserved | web-app/Ball.js:62-255 | every ball step keeps "not moving means zero velocity" |
| BallLaws.RespotAfterHide | web-app/Ball.js:241-255 | hiding a ball before re-spotting it makes no difference |
| Cues.NewCue | web-app/Cue.js:9-45 | a fresh cue has power 0, `shot` false, rotation 0 and anchor (970, 11), and is in a reachable state |
| Cues.IncreasePower | web-app/Cue.js:80-87 | nothing changes above 6000; otherwise power rises by 120; the anchor slides 5 per step actually taken; power never passes 6120 unless it already had |
| Cues.Shoot | web-app/Cue.js:92-97 | the shot carries the pre-reset power and rotation; power becomes 0, `shot` latches, the anchor becomes (950, 11) |
| Cues.Update | web-app/Cue.js:50-59 | holding the button on an unlatched cue only charges; otherwise a shot fires iff power is positive, with the old power and rotation, leaving power 0 and `shot` set; the new aim is always taken; reachable states stay reachable |
| Cues.Reposition | web-app/Cue.js:103-108 | the cue moves, the anchor resets to (970, 11), `shot` clears; power and rotation are kept |
| CueLaws.CapOvershootsByOneStep | web-app/Cue.js:81-86 | from 6000 one charge step reaches 6120, above the cap, and a further step stays there |
| CueLaws.HeldChargeSaturates | web-app/Cue.js:50-87 | n held ticks on an unlatched cue fire nothing and give power min(p + 120·n, 6120), with the anchor slid 5 per step taken |
| CueLaws.LatchedCueIsSilent | web-app/Cue.js:51-57 | once `shot` is set with power 0, no run of ticks fires or changes power |
| CueLaws.AtMostOneShot | web-app/Cue.js:50-97 | from any reachable state any run of ticks fires at most one shot, and none when already latched |
| CueLaws.ReleaseFiresOnce | web-app/Cue.js:53-56 | a release on a charged, unlatched cue fires exactly one shot, with that charge and rotation, whatever follows |
| CueLaws.RunTakesLastAim | web-app/Cue.js:58 | after a run of ticks the cue points where the last tick aimed |
| CueLaws.RepositionRearms | web-app/Cue.js:103-108 | repositioning a cue that has fired gives an unlatched, uncharged cue at the rest anchor |
| Input.NewButtonState | web-app/Input.js:5-8 | a new button is up and not pressed |
| Input.NewMouse | web-app/Input.js:70-79 | all three buttons start up and not pressed; the position starts at (0, 0) |
| Input.HandleMouseMove | web-app/Input.js:14-20 | the position becomes client minus rectangle corner; no button changes |
| Input.Press | web-app/Input.js:41-42 | a pressed button is down; `pressed` rises only when it was up |
| Input.Release | web-app/Input.js:61 | a released button is up; `pressed` is untouched |
| Input.HandleMouseDown | web-app/Input.js:36-52 | only the button selected by `which` goes down; its `pressed` rises iff it was up; other buttons, and all buttons for any other `which`, are unchanged; the position is updated |
| Input.HandleMouseUp | web-app/Input.js:58-64 | only the selected button goes up; no `pressed` flag changes; the position is updated |
| Input.Reset | web-app/Input.js:84-88 | every `pressed` flag clears and every `down` flag and the position stay |
| Input.PressedMarksEdgeOnly | web-app/Input.js:39-51 | after a reset, a press sets `pressed` exactly when the button was up |
| Input.ClickRestoresLevels | web-app/Input.js:36-64 | pressing then releasing a button that was up restores every `down` flag and leaves the click recorded in `pressed` |
| Input.MoveAbsorbedByButton | web-app/Input.js:14-20 | a move followed by a press or release gives the same state as the press or release alone, since both handlers overwrite the position first |
| Input.LevelFollowsLastEvent | web-app/Input.js:36-88 | from the initial handler, after any stream of moves, presses, releases and resets, a button is down exactly when its last press-or-release event was a press (up if there was none) |
| Session.LeftClickFiresCharge | web-app/Cue.js:50-58 | a left press seen for n ticks and then released fires exactly one shot of min(120·n, 6120) at the last aim, and nothing while held |

## Left out

- Audio (`document.getElementById(...).play()`), `console.log` and canvas
  resizing are side effects. They are dropped, or become result fields: the
  strike flag, the pot count, and the fired shot.
- `Math.sqrt`, `Math.cos`, `Math.sin` and `Math.atan2` are inputs under
  stated preconditions. IEEE rounding is not modelled, since numbers are
  exact reals.
- `collideWithBall` with `dist == 0` divides by zero in the game and yields
  NaN. The model requires `dist > 0`.
- `evt.which` is an integer. A non-integer `which` selects no button in the
  game, the same as any integer outside 1 to 3.
- `Ball.draw`, `Cue.draw` and `Canvas.js` are rendering only.
- Asset loading in `Assets.js` and bootstrap in `main.js` do no modelled
  computation.
- The game loop and rules (timer, score, rack positions, `ballsMoving`) live
  in `GameLogic.js`. That file is not part of this model. `onShoot` is
  therefore a reported event, not a call into `Ball.shoot`.
- `Balls.Shoot` requires `cos² + sin² == 1`. The game's argument is
  `rotation` and always satisfies it.
- `MouseHandler` also installs the DOM handlers and resizes the canvas.
  Only its initial state is modelled.
