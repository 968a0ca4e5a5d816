/** What one frame does to all vehicles and trains together (game/engine.ts:188 running
    game/entities.ts:124-143 on each entity in array order). The update is sequential: a
    vehicle looking for a car ahead sees the vehicles before it in the array already moved
    this frame and the ones after it not yet moved. */
module Traffic {
  import opened Types
  import opened Entities

  /** What every vehicle is told in one frame: the world width, the play mode, the crossing,
      and the frame's bob value `Math.sin(frameCount * 0.3) * 2`. */
  datatype Tick = Tick(worldWidth: real, mode: PlayMode, crossing: CrossingState, bob: real)

  /** Vehicle `i` has another road vehicle ahead of it by less than its own width plus 30. */
  predicate CarAheadIn(s: seq<VehicleState>, i: int)
    requires 0 <= i < |s|
  {
    exists j :: 0 <= j < |s| && j != i && !IsTrain(s[j].kind) && s[j].x > s[i].x && s[j].x - s[i].x < s[i].width + 30.0
  }

  /** Vehicle `i` stops this frame. */
  predicate MustStop(s: seq<VehicleState>, i: int, t: Tick)
    requires 0 <= i < |s|
  {
    t.mode == AutoPlay && !IsTrain(s[i].kind) && (AtStopLine(t.crossing, s[i].x) || CarAheadIn(s, i))
  }

  /** Vehicle `i` updated against the fleet as it stands. */
  function StepOne(s: seq<VehicleState>, i: int, t: Tick): VehicleState
    requires 0 <= i < |s|
  {
    Advance(s[i], MustStop(s, i, t), t.worldWidth, t.bob)
  }

  /** Update vehicles `i`, `i + 1`, ... in turn, each seeing the ones before it already updated. */
  function StepFrom(s: seq<VehicleState>, i: nat, t: Tick): (r: seq<VehicleState>)
    requires i <= |s|
    ensures |r| == |s|
    decreases |s| - i
  {
    if i == |s| then s else StepFrom(s[i := StepOne(s, i, t)], i + 1, t)
  }

  /** The whole frame: every vehicle updated once, in array order. */
  function StepAll(s: seq<VehicleState>, t: Tick): (r: seq<VehicleState>)
    ensures |r| == |s|
  {
    StepFrom(s, 0, t)
  }

  /** Vehicles before position `i` are left alone. */
  lemma {:induction false} StepFromKeepsPrefix(s: seq<VehicleState>, i: nat, t: Tick)
    requires i <= |s|
    ensures StepFrom(s, i, t)[..i] == s[..i]
    decreases |s| - i
  {
    if i < |s| {
      var s' := s[i := StepOne(s, i, t)];
      StepFromKeepsPrefix(s', i + 1, t);
      assert StepFrom(s, i, t)[..i] == StepFrom(s', i + 1, t)[..i + 1][..i];
      assert s'[..i + 1][..i] == s[..i];
    }
  }

  /** The array-order semantics of the frame: vehicle `k` is updated against the fleet in
      which vehicles `0 .. k-1` already hold their new values and vehicles `k ..` their old ones. */
  lemma {:induction false} StepFromInOrder(s: seq<VehicleState>, i: nat, t: Tick, k: int)
    requires i <= k < |s|
    ensures var r := StepFrom(s, i, t);
            r[k] == StepOne(r[..k] + s[k..], k, t)
    decreases |s| - i
  {
    var r := StepFrom(s, i, t);
    var s' := s[i := StepOne(s, i, t)];
    assert r == StepFrom(s', i + 1, t);
    if k == i {
      StepFromKeepsPrefix(s', i + 1, t);
      assert r[..i + 1] == s'[..i + 1];
      assert r[k] == s'[i] == StepOne(s, i, t);
      assert r[..k] == s[..k] by {
        assert r[..k] == r[..i + 1][..k];
        assert s'[..i + 1][..k] == s[..k];
      }
      assert r[..k] + s[k..] == s;
    } else {
      StepFromInOrder(s', i + 1, t, k);
      assert s'[k..] == s[k..];
    }
  }

  /** The whole frame in array order: entity `k` after the frame is entity `k` stepped against
      the fleet with entities `0 .. k-1` already moved. */
  lemma StepAllInOrder(s: seq<VehicleState>, t: Tick, k: int)
    requires 0 <= k < |s|
    ensures var r := StepAll(s, t);
            r[k] == StepOne(r[..k] + s[k..], k, t)
  {
    StepFromInOrder(s, 0, t, k);
  }

  /** A frame changes no kind, depth, speed or width: the width is fixed at construction. */
  lemma StepAllKeepsShape(s: seq<VehicleState>, t: Tick)
    ensures var r := StepAll(s, t);
            forall k :: 0 <= k < |s| ==>
              r[k].kind == s[k].kind && r[k].y == s[k].y && r[k].speed == s[k].speed && r[k].width == s[k].width
  {
    var r := StepAll(s, t);
    forall k | 0 <= k < |s|
      ensures r[k].kind == s[k].kind && r[k].y == s[k].y && r[k].speed == s[k].speed && r[k].width == s[k].width
    {
      StepAllInOrder(s, t, k);
    }
  }

  /** Trains always run: never stopped, always a full `speed` further on. */
  lemma TrainsNeverStop(s: seq<VehicleState>, t: Tick, k: int)
    requires 0 <= k < |s| && IsTrain(s[k].kind)
    ensures !StepAll(s, t)[k].isStopped
    ensures StepAll(s, t)[k].x == s[k].x + s[k].speed
  {
    StepAllInOrder(s, t, k);
  }

  /** In tap mode nothing is ever stopped and everything moves by its speed. */
  lemma TapModeNothingStops(s: seq<VehicleState>, t: Tick, k: int)
    requires 0 <= k < |s| && t.mode == TapPlay
    ensures !StepAll(s, t)[k].isStopped
    ensures StepAll(s, t)[k].x == s[k].x + s[k].speed
  {
    StepAllInOrder(s, t, k);
  }

  /** In auto mode a road vehicle stops exactly when it is at the stop line of a crossing that is
      not open, or when another road vehicle, as it stands at that moment of the frame, is ahead
      of it by less than its width plus 30. */
  lemma RoadStopRule(s: seq<VehicleState>, t: Tick, k: int)
    requires 0 <= k < |s| && t.mode == AutoPlay && !IsTrain(s[k].kind)
    ensures var r := StepAll(s, t);
            r[k].isStopped <==> AtStopLine(t.crossing, s[k].x) || CarAheadIn(r[..k] + s[k..], k)
  {
    StepAllInOrder(s, t, k);
    var r := StepAll(s, t);
    assert (r[..k] + s[k..])[k] == s[k];
  }

  /** A stopped vehicle keeps its place, wheel angle and bounce; a moving one advances by its speed. */
  lemma StoppedIsFrozen(s: seq<VehicleState>, t: Tick, k: int)
    requires 0 <= k < |s|
    ensures var r := StepAll(s, t);
            if r[k].isStopped then r[k].x == s[k].x && r[k].wheelRot == s[k].wheelRot && r[k].bounce == s[k].bounce
            else r[k].x == s[k].x + s[k].speed && r[k].wheelRot == s[k].wheelRot + s[k].speed * 0.1 && r[k].bounce == t.bob
  {
    StepAllInOrder(s, t, k);
    var r := StepAll(s, t);
    assert (r[..k] + s[k..])[k] == s[k];
  }

  /** A vehicle is marked for deletion after the frame exactly when it already was or it is now
      more than 1000 past the right edge; no mark is ever cleared. */
  lemma MarkRule(s: seq<VehicleState>, t: Tick, k: int)
    requires 0 <= k < |s|
    ensures var r := StepAll(s, t);
            (r[k].marked <==> s[k].marked || r[k].x > t.worldWidth + 1000.0) && (s[k].marked ==> r[k].marked)
  {
    StepAllInOrder(s, t, k);
    var r := StepAll(s, t);
    assert (r[..k] + s[k..])[k] == s[k];
  }

  /** The vehicles' own view of "a car ahead" agrees with the one on field values, as long as no
      vehicle occurs twice in the fleet. */
  lemma CarAheadAgrees(fleet: seq<Vehicle>, i: int)
    requires 0 <= i < |fleet| && Distinct(fleet)
    ensures fleet[i].CarAhead(fleet) <==> CarAheadIn(Snapshot(fleet), i)
  {
    var s := Snapshot(fleet);
    if fleet[i].CarAhead(fleet) {
      var e :| e in fleet && !IsTrain(e.kind) && e != fleet[i] && e.x > fleet[i].x && e.x - fleet[i].x < fleet[i].width + 30.0;
      var j :| 0 <= j < |fleet| && fleet[j] == e;
      assert s[j].x == e.x && s[i].x == fleet[i].x;
    }
    if CarAheadIn(s, i) {
      var j :| 0 <= j < |s| && j != i && !IsTrain(s[j].kind) && s[j].x > s[i].x && s[j].x - s[i].x < s[i].width + 30.0;
      assert fleet[j] in fleet && fleet[j] != fleet[i];
    }
  }

  /** The removal law on the vehicles themselves: after a frame every vehicle more than 1000 past
      the right edge is marked for deletion. */
  lemma FleetFarRightMarked(fleet: seq<Vehicle>, s0: seq<VehicleState>, t: Tick)
    requires |s0| == |fleet| && Snapshot(fleet) == StepAll(s0, t)
    ensures forall e :: e in fleet && e.x > t.worldWidth + 1000.0 ==> e.markedForDeletion
  {
    forall e | e in fleet && e.x > t.worldWidth + 1000.0 ensures e.markedForDeletion {
      var k :| 0 <= k < |fleet| && fleet[k] == e;
      MarkRule(s0, t, k);
      assert Snapshot(fleet)[k] == e.State();
    }
  }
}
