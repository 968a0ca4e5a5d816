/** What the three spawners create (game/engine.ts:97-123): the kind tables, the per-kind
    start positions and speeds, and the at-most-one cap of auto mode. */
module Spawner {
  import opened Types
  import opened Entities

  /** `Math.floor(Math.random() * n)`: an index into a table of n entries. */
  function PickIndex(r: real, n: nat): (i: nat)
    requires Unit(r) && n > 0
    ensures i < n
    ensures (i as real) <= r * (n as real) < (i as real) + 1.0
  {
    assert r * (n as real) < n as real by {
      assert (1.0 - r) * (n as real) > 0.0;
    }
    (r * (n as real)).Floor
  }

  /** The road table, weighted toward cars. */
  const ROAD_TABLE: seq<Kind> := [Car, Car, Car, Police, Ambulance, Truck, Truck, Mixer, Bus]

  /** The commuter table; `local_orange` is never spawned. */
  const COMMUTER_TABLE: seq<Kind> := [Rapit, Kuroshio, SpecialRapid, Medetai, LocalMaroon]

  const ROAD_START_X: real := -150.0
  const COMMUTER_START_X: real := -700.0
  const SHINKANSEN_START_X: real := -900.0
  const SHINKANSEN_SPEED: real := 15.0

  function RoadKindAt(r: real): (k: Kind)
    requires Unit(r)
    ensures IsRoadKind(k) && !IsTrain(k) && k in ROAD_TABLE
  {
    ROAD_TABLE[PickIndex(r, |ROAD_TABLE|)]
  }

  /** A road vehicle's speed, `3 + Math.random() * 2.5`. */
  function RoadSpeed(r: real): (v: real)
    requires Unit(r)
    ensures 3.0 <= v < 5.5
  {
    3.0 + r * 2.5
  }

  function CommuterKindAt(r: real): (k: Kind)
    requires Unit(r)
    ensures IsCommuter(k) && !IsShinkansen(k) && k in COMMUTER_TABLE
  {
    COMMUTER_TABLE[PickIndex(r, |COMMUTER_TABLE|)]
  }

  /** The fixed speed of each commuter kind: rapit and special_rapid 7, kuroshio 6, medetai 3.5,
      any other 4. */
  function CommuterSpeed(k: Kind): (v: real)
    ensures (k == Rapit || k == SpecialRapid) <==> v == 7.0
    ensures k == Kuroshio <==> v == 6.0
    ensures k == Medetai <==> v == 3.5
    ensures !IsNamedTrain(k) <==> v == 4.0
  {
    var speed := 4.0;
    var speed := if k == Rapit || k == SpecialRapid then 7.0 else speed;
    var speed := if k == Kuroshio then 6.0 else speed;
    if k == Medetai then 3.5 else speed
  }

  /** The high-speed livery: yellow for draws below 0.3, E5 otherwise. */
  function LiveryAt(r: real): (k: Kind)
    ensures IsShinkansen(k)
    ensures k == ShinkansenYellow <==> r < 0.3
  {
    if r < 0.3 then ShinkansenYellow else ShinkansenE5
  }

  /** The three spawn categories; in auto mode each is capped at one live entity. */
  datatype Category = RoadTraffic | CommuterTrain | HighSpeedTrain

  /** Road vehicles are never capped; the engine's commuter test (`kt.includes(e.type) ||
      e.type.includes('local')`) and high-speed test (`e.type.includes('shinkansen')`). */
  predicate InCategory(k: Kind, c: Category) {
    match c
    case RoadTraffic => !IsTrain(k)
    case CommuterTrain => IsCommuter(k)
    case HighSpeedTrain => IsShinkansen(k)
  }

  /** Some entity of the category is alive. */
  predicate AnyOf(s: seq<Vehicle>, c: Category) {
    exists i :: 0 <= i < |s| && InCategory(s[i].kind, c)
  }

  /** How many entities of the category are alive. */
  function CountOf(s: seq<Vehicle>, c: Category): (n: nat)
    ensures n <= |s|
    ensures n == 0 <==> !AnyOf(s, c)
  {
    if s == [] then 0
    else
      var n := CountOf(s[..|s| - 1], c);
      assert forall i :: 0 <= i < |s| - 1 ==> s[..|s| - 1][i] == s[i];
      n + if InCategory(s[|s| - 1].kind, c) then 1 else 0
  }

  /** What a capped spawner leaves in the entity list: nothing new in auto mode when the category
      already has a live entity, otherwise the new entity appended. */
  function CappedSpawn(s: seq<Vehicle>, v: Vehicle, mode: PlayMode, c: Category): seq<Vehicle> {
    if mode == AutoPlay && AnyOf(s, c) then s else s + [v]
  }

  /** The cap does its job: in auto mode a spawner never takes its category above one live
      entity; in tap mode it always appends. */
  lemma CapKeepsAtMostOne(s: seq<Vehicle>, v: Vehicle, mode: PlayMode, c: Category)
    requires InCategory(v.kind, c)
    ensures mode == AutoPlay && CountOf(s, c) <= 1 ==> CountOf(CappedSpawn(s, v, mode, c), c) <= 1
    ensures mode == AutoPlay ==> CountOf(CappedSpawn(s, v, mode, c), c) == 1 || CountOf(s, c) > 1
    ensures AnyOf(CappedSpawn(s, v, mode, c), c)
    ensures mode == TapPlay ==> CappedSpawn(s, v, mode, c) == s + [v]
    ensures mode == TapPlay ==> CountOf(CappedSpawn(s, v, mode, c), c) == CountOf(s, c) + 1
  {
    var t := s + [v];
    assert t[..|t| - 1] == s;
    if mode == AutoPlay && !AnyOf(s, c) {
      assert CountOf(t, c) == 1;
    }
    assert InCategory(t[|t| - 1].kind, c);
  }
}
