/** The mouse state the game polls: three buttons with level (`down`) and
    edge (`pressed`) flags, and the pointer position relative to the
    canvas. The DOM handlers become pure transitions; the event's `which`
    and client coordinates and the canvas rectangle are parameters. */
module Input {
  import opened Geometry

  /** Values of `which` for the left, middle and right buttons. */
  const LEFT: int := 1
  const MIDDLE: int := 2
  const RIGHT: int := 3

  datatype ButtonState = ButtonState(down: bool, pressed: bool)

  datatype Mouse = Mouse(left: ButtonState, middle: ButtonState, right: ButtonState, position: Vec)

  /** The parts of a DOM mouse event the handlers read. */
  datatype MouseEvent = MouseEvent(which: int, clientX: real, clientY: real)

  /** Left and top edges of the canvas's bounding rectangle. */
  datatype Rect = Rect(left: real, top: real)

  function NewButtonState(): (s: ButtonState)
    ensures !s.down && !s.pressed
  {
    ButtonState(false, false)
  }

  /** The handler's state at construction: all buttons up and unpressed,
      pointer at the origin. */
  function NewMouse(): (m: Mouse)
    ensures forall w :: LEFT <= w <= RIGHT ==> !Button(m, w).down && !Button(m, w).pressed
    ensures m.position == Zero
  {
    Mouse(NewButtonState(), NewButtonState(), NewButtonState(), Zero)
  }

  /** The button a value of `which` selects. */
  function Button(m: Mouse, which: int): ButtonState
    requires LEFT <= which <= RIGHT
  {
    if which == LEFT then m.left else if which == MIDDLE then m.middle else m.right
  }

  /** Replace the button `which` selects; any other `which` changes nothing. */
  function WithButton(m: Mouse, which: int, s: ButtonState): (r: Mouse)
    ensures r.position == m.position
    ensures forall w :: LEFT <= w <= RIGHT ==> Button(r, w) == if w == which then s else Button(m, w)
  {
    if which == LEFT then m.(left := s)
    else if which == MIDDLE then m.(middle := s)
    else if which == RIGHT then m.(right := s)
    else m
  }

  /** Pointer position in canvas coordinates: client position minus the
      rectangle's top-left corner. */
  function HandleMouseMove(m: Mouse, e: MouseEvent, rect: Rect): (r: Mouse)
    ensures r.position == Vec(e.clientX - rect.left, e.clientY - rect.top)
    ensures r.left == m.left && r.middle == m.middle && r.right == m.right
  {
    m.(position := Vec(e.clientX - rect.left, e.clientY - rect.top))
  }

  /** A button going down: `pressed` rises only on an up-to-down edge. */
  function Press(s: ButtonState): (r: ButtonState)
    ensures r.down
    ensures r.pressed <==> s.pressed || !s.down
  {
    ButtonState(true, if !s.down then true else s.pressed)
  }

  /** A button going up: only the level flag changes. */
  function Release(s: ButtonState): (r: ButtonState)
    ensures !r.down && r.pressed == s.pressed
  {
    s.(down := false)
  }

  function HandleMouseDown(m: Mouse, e: MouseEvent, rect: Rect): (r: Mouse)
    ensures r.position == Vec(e.clientX - rect.left, e.clientY - rect.top)
    ensures forall w :: LEFT <= w <= RIGHT ==>
      && (Button(r, w).down <==> Button(m, w).down || w == e.which)
      && (Button(r, w).pressed <==> Button(m, w).pressed || (w == e.which && !Button(m, w).down))
    ensures forall w :: LEFT <= w <= RIGHT && w != e.which ==> Button(r, w) == Button(m, w)
  {
    var moved := HandleMouseMove(m, e, rect);
    if LEFT <= e.which <= RIGHT then WithButton(moved, e.which, Press(Button(moved, e.which)))
    else moved
  }

  function HandleMouseUp(m: Mouse, e: MouseEvent, rect: Rect): (r: Mouse)
    ensures r.position == Vec(e.clientX - rect.left, e.clientY - rect.top)
    ensures forall w :: LEFT <= w <= RIGHT ==>
      && (Button(r, w).down <==> Button(m, w).down && w != e.which)
      && Button(r, w).pressed == Button(m, w).pressed
    ensures forall w :: LEFT <= w <= RIGHT && w != e.which ==> Button(r, w) == Button(m, w)
  {
    var moved := HandleMouseMove(m, e, rect);
    if LEFT <= e.which <= RIGHT then WithButton(moved, e.which, Release(Button(moved, e.which)))
    else moved
  }

  /** Clear every edge flag; levels and position stay. */
  function Reset(m: Mouse): (r: Mouse)
    ensures forall w :: LEFT <= w <= RIGHT ==>
      !Button(r, w).pressed && Button(r, w).down == Button(m, w).down
    ensures r.position == m.position
  {
    m.(left := m.left.(pressed := false),
       middle := m.middle.(pressed := false),
       right := m.right.(pressed := false))
  }

  /** After a reset, a press sets `pressed` exactly when the button was up:
      holding a button does not re-signal it. */
  lemma PressedMarksEdgeOnly(m: Mouse, e: MouseEvent, rect: Rect)
    requires LEFT <= e.which <= RIGHT
    ensures Button(HandleMouseDown(Reset(m), e, rect), e.which).pressed <==> !Button(m, e.which).down
  {
  }

  /** Pressing and releasing a button that was up restores every level
      flag, and leaves the click recorded as `pressed`. */
  lemma ClickRestoresLevels(m: Mouse, down: MouseEvent, up: MouseEvent, rect: Rect)
    requires LEFT <= down.which <= RIGHT && up.which == down.which
    requires !Button(m, down.which).down
    ensures var r := HandleMouseUp(HandleMouseDown(m, down, rect), up, rect);
      && (forall w :: LEFT <= w <= RIGHT ==> Button(r, w).down == Button(m, w).down)
      && Button(r, down.which).pressed
  {
  }

  /** A move that a press or release follows leaves no trace: both handlers
      overwrite the position first. */
  lemma MoveAbsorbedByButton(m: Mouse, e0: MouseEvent, r0: Rect, e: MouseEvent, rect: Rect)
    ensures HandleMouseDown(HandleMouseMove(m, e0, r0), e, rect) == HandleMouseDown(m, e, rect)
    ensures HandleMouseUp(HandleMouseMove(m, e0, r0), e, rect) == HandleMouseUp(m, e, rect)
  {
  }

  // ---------------------------------------------------------------------
  // Event streams

  /** What the document delivers to the handler, and the game's per-frame reset. */
  datatype Event = Move(e: MouseEvent) | Down(e: MouseEvent) | Up(e: MouseEvent) | Cleared

  function Apply(m: Mouse, ev: Event, rect: Rect): Mouse {
    match ev
    case Move(e) => HandleMouseMove(m, e, rect)
    case Down(e) => HandleMouseDown(m, e, rect)
    case Up(e) => HandleMouseUp(m, e, rect)
    case Cleared => Reset(m)
  }

  /** The state after handling `evs` in order. */
  function Replay(m: Mouse, evs: seq<Event>, rect: Rect): Mouse
    decreases |evs|
  {
    if evs == [] then m else Apply(Replay(m, evs[..|evs| - 1], rect), evs[|evs| - 1], rect)
  }

  /** Whether the last press or release of button `w` in `evs` was a press;
      false when there was none. */
  function LastWasPress(evs: seq<Event>, w: int): bool
    decreases |evs|
  {
    if evs == [] then false
    else
      var ev := evs[|evs| - 1];
      if ev.Down? && ev.e.which == w then true
      else if ev.Up? && ev.e.which == w then false
      else LastWasPress(evs[..|evs| - 1], w)
  }

  /** From the initial handler, a button is down exactly when its last
      press-or-release event was a press: moves, resets and other buttons'
      events never change its level. */
  lemma {:induction false} LevelFollowsLastEvent(evs: seq<Event>, rect: Rect, w: int)
    requires LEFT <= w <= RIGHT
    ensures Button(Replay(NewMouse(), evs, rect), w).down == LastWasPress(evs, w)
    decreases |evs|
  {
    if evs != [] {
      LevelFollowsLastEvent(evs[..|evs| - 1], rect, w);
    }
  }
}
