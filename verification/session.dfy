/** How the mouse drives the cue: each cue tick reads the level of the left
    button, so a left click held for some ticks and then released charges
    the cue and fires it once. */
module Session {
  import opened Input
  import opened Cues
  import opened CueLaws

  /** The ticks of a button held at one aim. */
  function Hold(down: bool, aim: real, n: nat): (ticks: seq<Tick>)
    ensures |ticks| == n
    ensures forall i :: 0 <= i < n ==> ticks[i] == Tick(down, aim)
  {
    seq(n, _ => Tick(down, aim))
  }

  /** Press the left button, let the cue see it for `n >= 1` ticks, release
      it, and tick once more: nothing fires while held, and the release
      fires exactly the charge of `n` steps, capped at the peak, at the aim. */
  lemma LeftClickFiresCharge(c: Cue, m: Mouse, press: MouseEvent, release: MouseEvent,
                             rect: Rect, n: nat, aim: real)
    requires Valid(c) && !c.shot && c.power == 0 && n >= 1
    requires press.which == LEFT && release.which == LEFT
    ensures var held := HandleMouseDown(m, press, rect);
      var charge := Run(c, Hold(held.left.down, aim, n));
      var fire := Cues.Update(charge.cue, HandleMouseUp(held, release, rect).left.down, aim);
      && charge.shots == []
      && fire.fired == Some(Shot(MinInt(POWER_STEP * n, PEAK_POWER), aim))
      && fire.cue.shot && fire.cue.power == 0
  {
    var held := HandleMouseDown(m, press, rect);
    assert Button(held, LEFT).down;
    var ticks := Hold(held.left.down, aim, n);
    HeldChargeSaturates(c, ticks);
    RunTakesLastAim(c, ticks);
    var up := HandleMouseUp(held, release, rect);
    assert !Button(up, LEFT).down;
  }
}
