/** The per-frame clean-up of the engine's collections (game/engine.ts:164, 189-193):
    removing spent entities, particles and rain, and the depth sort of the vehicles. */
module Compaction {
  import opened Types
  import opened Entities

  /** `entities.filter(e => !e.markedForDeletion)` */
  function Survivors(s: seq<Vehicle>): seq<Vehicle>
    reads s
  {
    if s == [] then []
    else (if s[0].markedForDeletion then [] else [s[0]]) + Survivors(s[1..])
  }

  /** The vehicles kept are exactly the unmarked ones, none of them twice as often as before. */
  lemma {:induction false} SurvivorsUnmarked(s: seq<Vehicle>)
    ensures forall v :: v in Survivors(s) <==> v in s && !v.markedForDeletion
    ensures multiset(Survivors(s)) <= multiset(s)
  {
    if s != [] {
      SurvivorsUnmarked(s[1..]);
      assert s == [s[0]] + s[1..];
    }
  }

  /** `weatherParticles.filter(p => p.y < height + 50)` */
  function StillFalling(s: seq<WeatherParticle>, height: real): seq<WeatherParticle>
    reads s
  {
    if s == [] then []
    else (if s[0].y < height + 50.0 then [s[0]] else []) + StillFalling(s[1..], height)
  }

  /** The drops and flakes kept are exactly those above the bottom edge plus 50, none of them
      twice as often as before. */
  lemma {:induction false} StillFallingAboveBottom(s: seq<WeatherParticle>, height: real)
    ensures forall p :: p in StillFalling(s, height) <==> p in s && p.y < height + 50.0
    ensures multiset(StillFalling(s, height)) <= multiset(s)
  {
    if s != [] {
      StillFallingAboveBottom(s[1..], height);
      assert s == [s[0]] + s[1..];
    }
  }

  /** `particles.filter(p => p.life > 0)` */
  function StillAlive(s: seq<Particle>): seq<Particle>
    reads s
  {
    if s == [] then []
    else (if s[0].life > 0.0 then [s[0]] else []) + StillAlive(s[1..])
  }

  /** The callouts kept are exactly the live ones, none of them twice as often as before. */
  lemma {:induction false} StillAliveKeepsLive(s: seq<Particle>)
    ensures forall p :: p in StillAlive(s) <==> p in s && p.life > 0.0
    ensures multiset(StillAlive(s)) <= multiset(s)
  {
    if s != [] {
      StillAliveKeepsLive(s[1..]);
      assert s == [s[0]] + s[1..];
    }
  }

  /** Vehicles in drawing order: non-decreasing depth `y`. */
  predicate SortedByY(s: seq<Vehicle>) {
    forall i, j :: 0 <= i < j < |s| ==> s[i].y <= s[j].y
  }

  /** Put `v` into a depth-sorted list, in front of every vehicle at its depth or deeper. */
  function InsertByY(v: Vehicle, s: seq<Vehicle>): (r: seq<Vehicle>)
    requires SortedByY(s)
    ensures SortedByY(r)
    ensures multiset(r) == multiset(s) + multiset{v}
    ensures forall k :: 0 <= k < |r| ==> v.y <= r[k].y || (s != [] && s[0].y <= r[k].y)
  {
    if s == [] then [v]
    else if v.y <= s[0].y then
      SortedCons(v, s);
      [v] + s
    else
      var t := InsertByY(v, s[1..]);
      assert s == [s[0]] + s[1..];
      assert |s| > 1 ==> s[1..][0] == s[1] && s[0].y <= s[1].y;
      assert forall k :: 0 <= k < |t| ==> s[0].y <= t[k].y;
      SortedCons(s[0], t);
      [s[0]] + t
  }

  lemma SortedCons(x: Vehicle, t: seq<Vehicle>)
    requires SortedByY(t) && forall k :: 0 <= k < |t| ==> x.y <= t[k].y
    ensures SortedByY([x] + t)
  {
    var r := [x] + t;
    forall i, j | 0 <= i < j < |r|
      ensures r[i].y <= r[j].y
    {
      if i > 0 {
        assert r[i] == t[i - 1] && r[j] == t[j - 1];
      }
    }
  }

  /** `entities.sort((a, b) => a.y - b.y)`: a stable sort by depth. */
  function SortByY(s: seq<Vehicle>): (r: seq<Vehicle>)
    ensures SortedByY(r)
    ensures multiset(r) == multiset(s)
  {
    if s == [] then []
    else
      assert s == [s[0]] + s[1..];
      InsertByY(s[0], SortByY(s[1..]))
  }

  /** The clean-up of the vehicles leaves no marked vehicle, in depth order, and exactly the
      unmarked ones, each once, so no vehicle is duplicated by it. */
  lemma CompactedFleet(s: seq<Vehicle>)
    requires Distinct(s)
    ensures var r := SortByY(Survivors(s));
            && SortedByY(r)
            && multiset(r) == multiset(Survivors(s))
            && (forall v :: v in r <==> v in s && !v.markedForDeletion)
            && Distinct(r)
  {
    var r := SortByY(Survivors(s));
    SurvivorsUnmarked(s);
    assert forall v :: v in r <==> v in multiset(r);
    assert forall v :: v in Survivors(s) <==> v in multiset(Survivors(s));
    DistinctSubMultiset(s, r);
  }

  /** The filters read only the fields of the filtered objects: when those are unchanged, so is
      the result. */
  twostate lemma SurvivorsUnchanged(s: seq<Vehicle>)
    requires unchanged(s)
    ensures Survivors(s) == old(Survivors(s))
  {
  }

  twostate lemma StillAliveUnchanged(s: seq<Particle>)
    requires unchanged(s)
    ensures StillAlive(s) == old(StillAlive(s))
  {
  }
}
