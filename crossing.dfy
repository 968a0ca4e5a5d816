/** The level-crossing controller that the engine runs once per frame in auto mode
    (game/engine.ts:172-186): OPEN -> WARNING -> CLOSING -> CLOSED -> OPENING -> OPEN,
    with the early exit CLOSING -> OPENING once the train is already past. */
module Crossing {
  import opened Types

  /** The gate train is between 850 and 800 short of the crossing: the trigger window. */
  predicate InTriggerZone(c: CrossingState, trainX: Option<real>) {
    trainX.Some? && trainX.value - c.x < -800.0 && trainX.value - c.x > -850.0
  }

  /** The gate train is more than 800 past the crossing: the departure zone. */
  predicate InDepartureZone(c: CrossingState, trainX: Option<real>) {
    trainX.Some? && trainX.value - c.x > 800.0
  }

  /** The two zone tests on the x of the gate train, when there is one (engine.ts:175-179). */
  function Detect(c: CrossingState, trainX: Option<real>): CrossingState {
    if trainX.None? then c
    else
      var dist := trainX.value - c.x;
      var c1 := if dist < -800.0 && dist > -850.0 && c.state == Open then c.(state := Warning, timer := 80) else c;
      if dist > 800.0 && (c1.state == Closed || c1.state == Closing) then c1.(state := Opening) else c1
  }

  /** The alarm lamp after a frame in which it may blink: it flips on every 15th frame. */
  function Blink(c: CrossingState, frameCount: int): bool {
    if frameCount % 15 == 0 then !c.isAlarmOn else c.isAlarmOn
  }

  /** The per-phase actions of the `switch` (engine.ts:180-185). */
  function Drive(c: CrossingState, frameCount: int): CrossingState {
    match c.state
    case Open => c
    case Warning =>
      var t := c.timer - 1;
      c.(timer := t, isAlarmOn := Blink(c, frameCount), state := if t <= 0 then Closing else Warning)
    case Closing =>
      var a := c.angle + 0.05;
      var c1 := if a >= 0.0 then c.(angle := 0.0, state := Closed) else c.(angle := a);
      c1.(isAlarmOn := Blink(c, frameCount))
    case Closed => c.(isAlarmOn := Blink(c, frameCount))
    case Opening =>
      var a := c.angle - 0.05;
      if a <= OPEN_ANGLE then c.(angle := OPEN_ANGLE, state := Open, isAlarmOn := false)
      else c.(angle := a, isAlarmOn := false)
  }

  /** One auto-mode frame of the crossing, given the x of the gate train (if any) and the
      frame number. */
  function Next(c: CrossingState, trainX: Option<real>, frameCount: int): CrossingState {
    Drive(Detect(c, trainX), frameCount)
  }

  /** What holds of the crossing between frames: the angle stays between raised and lowered,
      it is fully raised while OPEN or WARNING, fully lowered while CLOSED and never fully
      lowered while still CLOSING, the lamp is dark
      while OPEN or OPENING, and a WARNING countdown is positive and at most 80. */
  predicate Inv(c: CrossingState) {
    && OPEN_ANGLE <= c.angle <= 0.0
    && (c.state == Open || c.state == Warning ==> c.angle == OPEN_ANGLE)
    && (c.state == Closed ==> c.angle == 0.0)
    && (c.state == Closing ==> c.angle < 0.0)
    && (c.state == Open || c.state == Opening ==> !c.isAlarmOn)
    && (c.state == Warning ==> 0 < c.timer <= 80)
  }

  /** The phase that follows each phase in the normal cycle. */
  function Succ(p: Phase): Phase {
    match p
    case Open => Warning
    case Warning => Closing
    case Closing => Closed
    case Closed => Opening
    case Opening => Open
  }

  /** Every frame keeps the invariant, and hence the angle within [OPEN_ANGLE, 0]. */
  lemma NextKeepsInv(c: CrossingState, trainX: Option<real>, frameCount: int)
    requires Inv(c)
    ensures Inv(Next(c, trainX, frameCount))
    ensures OPEN_ANGLE <= Next(c, trainX, frameCount).angle <= 0.0
  {
  }

  /** A frame never moves the crossing itself. */
  lemma NextKeepsPosition(c: CrossingState, trainX: Option<real>, frameCount: int)
    ensures Next(c, trainX, frameCount).x == c.x
  {
  }

  /** From OPEN the crossing goes to WARNING exactly when the gate train is in the trigger
      window; the countdown is set to 80 and already counted down once in the same frame.
      Otherwise an OPEN crossing is left exactly as it was. */
  lemma OpenTriggersWarning(c: CrossingState, trainX: Option<real>, frameCount: int)
    requires c.state == Open
    ensures Next(c, trainX, frameCount).state == Warning <==> InTriggerZone(c, trainX)
    ensures InTriggerZone(c, trainX) ==> Detect(c, trainX).timer == 80 && Next(c, trainX, frameCount).timer == 79
    ensures !InTriggerZone(c, trainX) ==> Next(c, trainX, frameCount) == c
  {
  }

  /** In WARNING the countdown drops by exactly one per frame and the crossing starts closing
      when it reaches zero; train positions play no part. */
  lemma WarningCountsDown(c: CrossingState, trainX: Option<real>, frameCount: int)
    requires c.state == Warning
    ensures Next(c, trainX, frameCount).timer == c.timer - 1
    ensures Next(c, trainX, frameCount).state == (if c.timer - 1 <= 0 then Closing else Warning)
    ensures Next(c, trainX, frameCount).angle == c.angle
  {
  }

  /** Only WARNING changes the countdown, apart from OPEN arming it for a new WARNING. */
  lemma TimerOnlyInWarning(c: CrossingState, trainX: Option<real>, frameCount: int)
    ensures var n := Next(c, trainX, frameCount);
            n.timer != c.timer ==>
              (c.state == Warning && n.timer == c.timer - 1)
              || (c.state == Open && n.state == Warning && n.timer == 79)
  {
  }

  /** While CLOSING with the train not yet past, the barrier lowers by 0.05 a frame and is
      clamped to 0, which is also when it becomes CLOSED. */
  lemma ClosingLowers(c: CrossingState, trainX: Option<real>, frameCount: int)
    requires c.state == Closing && c.angle <= 0.0 && !InDepartureZone(c, trainX)
    ensures var n := Next(c, trainX, frameCount);
            n.angle == Min(c.angle + 0.05, 0.0) && n.angle >= c.angle
            && n.state == (if c.angle + 0.05 >= 0.0 then Closed else Closing)
  {
  }

  /** Once the train is more than 800 past, a CLOSING or CLOSED crossing starts opening in that
      very frame: the only way CLOSED is skipped. From CLOSING with the barrier still almost up
      it can pass through OPENING to OPEN within the frame. */
  lemma DepartureOpens(c: CrossingState, trainX: Option<real>, frameCount: int)
    requires Inv(c) && (c.state == Closing || c.state == Closed) && InDepartureZone(c, trainX)
    ensures var n := Next(c, trainX, frameCount);
            n.state == Opening || (c.state == Closing && n.state == Open)
  {
  }

  /** OPENING is only ever entered from CLOSING or CLOSED with the train in the departure zone. */
  lemma OpeningOnlyOnDeparture(c: CrossingState, trainX: Option<real>, frameCount: int)
    requires c.state != Opening && Next(c, trainX, frameCount).state in {Opening, Open} && c.state != Open
    ensures (c.state == Closing || c.state == Closed) && InDepartureZone(c, trainX)
  {
  }

  /** While OPENING the barrier rises by 0.05 a frame, the lamp is forced dark, and the barrier
      is clamped to OPEN_ANGLE, which is also when the crossing becomes OPEN. */
  lemma OpeningRaises(c: CrossingState, trainX: Option<real>, frameCount: int)
    requires Inv(c) && Detect(c, trainX).state == Opening
    ensures var d := Detect(c, trainX);
            var n := Next(c, trainX, frameCount);
            n.angle == Max(d.angle - 0.05, OPEN_ANGLE) && n.angle <= d.angle && !n.isAlarmOn
            && n.state == (if d.angle - 0.05 <= OPEN_ANGLE then Open else Opening)
  {
  }

  /** The lamp blinks every 15 frames while WARNING, CLOSING or CLOSED, is dark in OPENING, and
      is untouched while OPEN. */
  lemma AlarmCadence(c: CrossingState, trainX: Option<real>, frameCount: int)
    ensures var d := Detect(c, trainX);
            var n := Next(c, trainX, frameCount);
            && (d.state in {Warning, Closing, Closed} ==> n.isAlarmOn == (if frameCount % 15 == 0 then !c.isAlarmOn else c.isAlarmOn))
            && (d.state == Opening ==> !n.isAlarmOn)
            && (d.state == Open ==> n.isAlarmOn == c.isAlarmOn)
  {
  }

  /** The phases only ever move forward around the cycle, one step a frame, except for the
      early exit from CLOSING to OPENING (or through OPENING to OPEN within the frame). */
  lemma PhaseCycle(c: CrossingState, trainX: Option<real>, frameCount: int)
    requires Inv(c)
    ensures var n := Next(c, trainX, frameCount);
            n.state == c.state || n.state == Succ(c.state)
            || (c.state == Closing && (n.state == Opening || n.state == Open))
  {
  }

  // ---------------------------------------------------------------------------
  // Many frames
  // ---------------------------------------------------------------------------

  /** The crossing after a run of auto-mode frames, numbered from `frameCount` on, with the gate
      train at `trainXs[k]` in frame k. */
  function Run(c: CrossingState, trainXs: seq<Option<real>>, frameCount: int): CrossingState
    decreases |trainXs|
  {
    if trainXs == [] then c else Run(Next(c, trainXs[0], frameCount), trainXs[1..], frameCount + 1)
  }

  lemma {:induction false} RunAppend(c: CrossingState, xs: seq<Option<real>>, ys: seq<Option<real>>, frameCount: int)
    ensures Run(c, xs + ys, frameCount) == Run(Run(c, xs, frameCount), ys, frameCount + |xs|)
    decreases |xs|
  {
    if xs == [] {
      assert xs + ys == ys;
    } else {
      assert (xs + ys)[0] == xs[0] && (xs + ys)[1..] == xs[1..] + ys;
      RunAppend(Next(c, xs[0], frameCount), xs[1..], ys, frameCount + 1);
    }
  }

  /** No frame of the run has the gate train in the departure zone of a crossing at `cx`. */
  predicate NoDeparture(cx: real, trainXs: seq<Option<real>>) {
    forall k :: 0 <= k < |trainXs| ==> !(trainXs[k].Some? && trainXs[k].value - cx > 800.0)
  }

  /** A WARNING with countdown `timer` becomes CLOSING after exactly `timer` frames, with the
      barrier still up, whatever the trains do. */
  lemma {:induction false} WarningRun(c: CrossingState, trainXs: seq<Option<real>>, frameCount: int)
    requires c.state == Warning && c.timer >= 1 && |trainXs| == c.timer
    ensures Run(c, trainXs, frameCount).state == Closing
    ensures Run(c, trainXs, frameCount).angle == c.angle && Run(c, trainXs, frameCount).x == c.x
    decreases |trainXs|
  {
    var n := Next(c, trainXs[0], frameCount);
    WarningCountsDown(c, trainXs[0], frameCount);
    if c.timer > 1 {
      WarningRun(n, trainXs[1..], frameCount + 1);
    } else {
      assert trainXs[1..] == [];
    }
  }

  /** A CLOSED crossing stays CLOSED, barrier down, until the train departs. */
  lemma {:induction false} ClosedRun(c: CrossingState, trainXs: seq<Option<real>>, frameCount: int)
    requires c.state == Closed && c.angle == 0.0 && NoDeparture(c.x, trainXs)
    ensures Run(c, trainXs, frameCount).state == Closed && Run(c, trainXs, frameCount).angle == 0.0
    decreases |trainXs|
  {
    if trainXs != [] {
      assert !(trainXs[0].Some? && trainXs[0].value - c.x > 800.0);
      assert NoDeparture(c.x, trainXs[1..]) by {
        forall k | 0 <= k < |trainXs[1..]| ensures !(trainXs[1..][k].Some? && trainXs[1..][k].value - c.x > 800.0) {
          assert trainXs[1..][k] == trainXs[k + 1];
        }
      }
      ClosedRun(Next(c, trainXs[0], frameCount), trainXs[1..], frameCount + 1);
    }
  }

  /** A CLOSING crossing whose train does not depart has, after n frames, its barrier at
      min(angle + 0.05 n, 0), and is CLOSED exactly when that reaches 0. */
  lemma {:induction false} ClosingRun(c: CrossingState, trainXs: seq<Option<real>>, frameCount: int)
    requires c.state == Closing && c.angle < 0.0 && NoDeparture(c.x, trainXs)
    ensures var r := Run(c, trainXs, frameCount);
            var a := c.angle + 0.05 * |trainXs| as real;
            r.angle == Min(a, 0.0) && r.state == (if a >= 0.0 then Closed else Closing)
    decreases |trainXs|
  {
    if trainXs != [] {
      var x0 := trainXs[0];
      assert !InDepartureZone(c, x0);
      var n := Next(c, x0, frameCount);
      ClosingLowers(c, x0, frameCount);
      assert NoDeparture(c.x, trainXs[1..]) by {
        forall k | 0 <= k < |trainXs[1..]| ensures !(trainXs[1..][k].Some? && trainXs[1..][k].value - c.x > 800.0) {
          assert trainXs[1..][k] == trainXs[k + 1];
        }
      }
      NextKeepsPosition(c, x0, frameCount);
      assert |trainXs[1..]| as real == |trainXs| as real - 1.0;
      if n.state == Closed {
        ClosedRun(n, trainXs[1..], frameCount + 1);
      } else {
        ClosingRun(n, trainXs[1..], frameCount + 1);
      }
    }
  }

  /** The closing scenario: a train entering the trigger window of an open crossing, and not
      departing meanwhile, has the crossing CLOSED 111 frames after the trigger frame (80 frames
      of warning, counted down from the trigger frame on, then 32 frames of lowering), and not
      one frame earlier. */
  lemma TriggerToClosed(c: CrossingState, trainXs: seq<Option<real>>, frameCount: int)
    requires Inv(c) && c.state == Open && |trainXs| == 112
    requires InTriggerZone(c, trainXs[0]) && NoDeparture(c.x, trainXs)
    ensures Run(c, trainXs[..111], frameCount).state == Closing
    ensures Run(c, trainXs, frameCount).state == Closed
  {
    var w := Next(c, trainXs[0], frameCount);
    OpenTriggersWarning(c, trainXs[0], frameCount);
    assert w.state == Warning && w.timer == 79 && w.angle == OPEN_ANGLE && w.x == c.x;
    var xs1, xs2, xs3 := trainXs[1..80], trainXs[80..111], trainXs[111..];
    assert trainXs == [trainXs[0]] + xs1 + xs2 + xs3;
    assert trainXs[..111] == [trainXs[0]] + xs1 + xs2;
    assert Run(c, [trainXs[0]], frameCount) == w;
    RunAppend(c, [trainXs[0]], xs1, frameCount);
    WarningRun(w, xs1, frameCount + 1);
    var cl := Run(w, xs1, frameCount + 1);
    assert cl.state == Closing && cl.angle == OPEN_ANGLE && cl.x == c.x;
    RunAppend(c, [trainXs[0]] + xs1, xs2, frameCount);
    assert NoDeparture(c.x, xs2) by {
      forall k | 0 <= k < |xs2| ensures !(xs2[k].Some? && xs2[k].value - c.x > 800.0) {
        assert xs2[k] == trainXs[80 + k];
      }
    }
    ClosingRun(cl, xs2, frameCount + 80);
    assert NoDeparture(c.x, xs2 + xs3) by {
      forall k | 0 <= k < |xs2 + xs3| ensures !((xs2 + xs3)[k].Some? && (xs2 + xs3)[k].value - c.x > 800.0) {
        assert (xs2 + xs3)[k] == trainXs[80 + k];
      }
    }
    ClosingRun(cl, xs2 + xs3, frameCount + 80);
    RunAppend(c, [trainXs[0]] + xs1, xs2 + xs3, frameCount);
    assert [trainXs[0]] + xs1 + (xs2 + xs3) == trainXs;
  }
}
