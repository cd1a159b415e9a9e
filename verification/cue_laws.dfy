/** Properties of the cue over whole runs of ticks: the charge saturates one
    step past the cap, a latched cue is silent, and at most one shot fires
    between two repositionings. */
module CueLaws {
  import opened Geometry
  import opened Cues

  /** The strict guard lets power reach one step past the cap, and no further. */
  lemma CapOvershootsByOneStep(c: Cue)
    requires c.power == MAX_POWER
    ensures IncreasePower(c).power == PEAK_POWER > MAX_POWER
    ensures IncreasePower(IncreasePower(c)).power == PEAK_POWER
  {
  }

  /** Holding the button on an unlatched cue charges by one step per tick
      until the peak, fires nothing, and slides the anchor five units per
      step actually taken. */
  lemma {:induction false} HeldChargeSaturates(c: Cue, ticks: seq<Tick>)
    requires Valid(c) && !c.shot
    requires forall i :: 0 <= i < |ticks| ==> ticks[i].leftDown
    ensures var r := Run(c, ticks);
      && r.shots == []
      && r.cue.power == MinInt(c.power + POWER_STEP * |ticks|, PEAK_POWER)
      && r.cue.origin == Vec(c.origin.x + ORIGIN_STEP * ((r.cue.power - c.power) / POWER_STEP) as real, c.origin.y)
      && !r.cue.shot && Valid(r.cue)
    decreases |ticks|
  {
    if |ticks| > 0 {
      var s := Update(c, true, ticks[0].aim);
      assert ticks[0].leftDown;
      var rest := ticks[1..];
      assert forall i :: 0 <= i < |rest| ==> rest[i].leftDown by {
        forall i | 0 <= i < |rest| ensures rest[i].leftDown {
          assert rest[i] == ticks[i + 1];
        }
      }
      HeldChargeSaturates(s.cue, rest);
      var r := Run(s.cue, rest);
      assert Run(c, ticks) == Trace(r.cue, r.shots);
      var k := (r.cue.power - s.cue.power) / POWER_STEP;
      var j := (s.cue.power - c.power) / POWER_STEP;
      assert s.cue.power == c.power + POWER_STEP * j;
      assert r.cue.power == s.cue.power + POWER_STEP * k;
      assert (r.cue.power - c.power) / POWER_STEP == j + k;
    }
  }

  /** Once the shot has been taken, no run of ticks changes the power or
      fires again. */
  lemma {:induction false} LatchedCueIsSilent(c: Cue, ticks: seq<Tick>)
    requires c.shot && c.power == 0
    ensures var r := Run(c, ticks);
      r.shots == [] && r.cue.shot && r.cue.power == 0 && r.cue.origin == c.origin
    decreases |ticks|
  {
    if |ticks| > 0 {
      LatchedCueIsSilent(Update(c, ticks[0].leftDown, ticks[0].aim).cue, ticks[1..]);
    }
  }

  /** From any reachable state, a run of ticks fires at most one shot; a
      latched cue fires none. */
  lemma {:induction false} AtMostOneShot(c: Cue, ticks: seq<Tick>)
    requires Valid(c)
    ensures |Run(c, ticks).shots| <= 1
    ensures c.shot ==> Run(c, ticks).shots == []
    decreases |ticks|
  {
    if c.shot {
      LatchedCueIsSilent(c, ticks);
    } else if |ticks| > 0 {
      var s := Update(c, ticks[0].leftDown, ticks[0].aim);
      AtMostOneShot(s.cue, ticks[1..]);
      if s.fired.Some? {
        LatchedCueIsSilent(s.cue, ticks[1..]);
      }
    }
  }

  /** Releasing a charged, unlatched cue fires exactly one shot with the
      charge and the pre-tick rotation, and nothing follows it. */
  lemma ReleaseFiresOnce(c: Cue, aim: real, rest: seq<Tick>)
    requires Valid(c) && !c.shot && c.power > 0
    ensures Run(c, [Tick(false, aim)] + rest).shots == [Shot(c.power, c.rotation)]
  {
    var ticks := [Tick(false, aim)] + rest;
    assert ticks[1..] == rest;
    var s := Update(c, false, aim);
    LatchedCueIsSilent(s.cue, rest);
  }

  /** After a non-empty run the cue points where the last tick aimed. */
  lemma {:induction false} RunTakesLastAim(c: Cue, ticks: seq<Tick>)
    requires |ticks| > 0
    ensures Run(c, ticks).cue.rotation == ticks[|ticks| - 1].aim
    decreases |ticks|
  {
    var s := Update(c, ticks[0].leftDown, ticks[0].aim);
    if |ticks| > 1 {
      RunTakesLastAim(s.cue, ticks[1..]);
      assert ticks[1..][|ticks| - 2] == ticks[|ticks| - 1];
    }
  }

  /** Repositioning a cue that has fired re-arms it for exactly one more shot. */
  lemma RepositionRearms(c: Cue, p: Vec)
    requires Valid(c) && c.shot
    ensures var r := Reposition(c, p);
      Valid(r) && !r.shot && r.power == 0 && r.origin == REST_ORIGIN
  {
  }
}
