/** The moving things of the scene (game/entities.ts): road vehicles and trains,
    decorative clouds, rain and snow, and the floating honk callouts. */
module Entities {
  import opened Types

  /** Every vehicle and train type string the simulation knows. */
  datatype Kind =
    | Car | Police | Ambulance | Truck | Mixer | Bus
    | ShinkansenE5 | ShinkansenYellow
    | Rapit | Kuroshio | SpecialRapid | Medetai | LocalOrange | LocalMaroon

  /** `type.includes('shinkansen')` */
  predicate IsShinkansen(k: Kind) { k == ShinkansenE5 || k == ShinkansenYellow }

  /** `type.includes('local')` */
  predicate IsLocal(k: Kind) { k == LocalOrange || k == LocalMaroon }

  /** Membership in the list `['rapit', 'kuroshio', 'special_rapid', 'medetai']`. */
  predicate IsNamedTrain(k: Kind) { k == Rapit || k == Kuroshio || k == SpecialRapid || k == Medetai }

  /** The `isTrain` test a vehicle applies to itself and to the vehicles ahead of it. */
  predicate IsTrain(k: Kind) { IsShinkansen(k) || IsLocal(k) || IsNamedTrain(k) }

  /** Membership in the engine's road list `['car', 'truck', 'bus', 'police', 'ambulance', 'mixer']`. */
  predicate IsRoadKind(k: Kind) { k == Car || k == Truck || k == Bus || k == Police || k == Ambulance || k == Mixer }

  /** The ground-level trains: the category of the commuter spawn cap and the 600-wide class. */
  predicate IsCommuter(k: Kind) { IsNamedTrain(k) || IsLocal(k) }

  /** The footprint width a vehicle gets at construction. */
  function WidthOf(k: Kind): (w: real)
    ensures w == 800.0 || w == 600.0 || w == 130.0 || w == 100.0
  {
    if IsShinkansen(k) then 800.0
    else if IsNamedTrain(k) || IsLocal(k) then 600.0
    else if k == Truck || k == Mixer || k == Bus then 130.0
    else 100.0
  }

  /** The width rule by class: high-speed trains 800, commuter trains 600, the three heavy road
      vehicles 130, the other road vehicles 100; so a kind is a train exactly when it is 600 or more wide. */
  lemma WidthByClass(k: Kind)
    ensures IsShinkansen(k) <==> WidthOf(k) == 800.0
    ensures IsCommuter(k) <==> WidthOf(k) == 600.0
    ensures (k == Truck || k == Mixer || k == Bus) <==> WidthOf(k) == 130.0
    ensures (k == Car || k == Police || k == Ambulance) <==> WidthOf(k) == 100.0
    ensures IsTrain(k) <==> WidthOf(k) >= 600.0
  {
  }

  /** The engine's and the vehicles' two ways of telling trains from road traffic agree on
      every kind, and the train that drives the gate is exactly a commuter train. */
  lemma ClassifiersAgree(k: Kind)
    ensures IsTrain(k) <==> !IsRoadKind(k)
    ensures (!IsShinkansen(k) && !IsRoadKind(k)) <==> IsCommuter(k)
    ensures IsTrain(k) <==> IsShinkansen(k) || IsCommuter(k)
  {
  }

  // ---------------------------------------------------------------------------
  // Clouds
  // ---------------------------------------------------------------------------

  /** The four `Math.random()` draws a new cloud makes. */
  datatype CloudSeed = CloudSeed(across: real, height: real, pace: real, scale: real) {
    predicate Valid() { Unit(across) && Unit(height) && Unit(pace) && Unit(scale) }
  }

  class Cloud {
    var x: real
    const y: real
    const speed: real
    const size: real

    constructor (width: real, skyLine: real, seed: CloudSeed)
      requires seed.Valid()
      ensures x == seed.across * width && y == seed.height * (skyLine - 150.0)
      ensures speed == 0.2 + seed.pace * 0.3 && size == 0.5 + seed.scale * 0.8
      ensures 0.2 <= speed < 0.5
    {
      x := seed.across * width;
      y := seed.height * (skyLine - 150.0);
      speed := 0.2 + seed.pace * 0.3;
      size := 0.5 + seed.scale * 0.8;
    }

    /** Drift right by `speed`, wrapping to -150 once past the right edge plus 150. */
    method Update(width: real)
      modifies this
      ensures x == if old(x) + speed > width + 150.0 then -150.0 else old(x) + speed
      ensures width >= -300.0 ==> x <= width + 150.0
    {
      x := x + speed;
      if x > width + 150.0 {
        x := -150.0;
      }
    }
  }

  // ---------------------------------------------------------------------------
  // Rain and snow
  // ---------------------------------------------------------------------------

  /** The draws a new weather particle makes; `swirl` stands for the snow drift
      `Math.sin(Math.random() * Math.PI * 2) * 2`, which lies in [-2, 2]. */
  datatype WeatherSeed = WeatherSeed(across: real, fall: real, slant: real, swirl: real, size: real) {
    predicate Valid() { Unit(across) && Unit(fall) && Unit(slant) && -2.0 <= swirl <= 2.0 && Unit(size) }
  }

  class WeatherParticle {
    var x: real
    var y: real
    const vy: real
    var vx: real
    const len: real
    const s: real
    const kind: WeatherMode

    constructor (width: real, kind: WeatherMode, seed: WeatherSeed)
      requires seed.Valid()
      ensures this.kind == kind && x == seed.across * width && y == -10.0
      ensures kind == Rain ==> vy == 15.0 + seed.fall * 5.0 && vx == -2.0 + seed.slant * 4.0
                               && len == 20.0 + seed.size * 20.0 && s == 0.0
      ensures kind != Rain ==> vy == 2.0 + seed.fall * 3.0 && vx == seed.swirl
                               && s == 3.0 + seed.size * 4.0 && len == 0.0
      ensures vy >= 2.0
    {
      this.kind := kind;
      x := seed.across * width;
      y := -10.0;
      if kind == Rain {
        vy := 15.0 + seed.fall * 5.0;
        vx := -2.0 + seed.slant * 4.0;
        len := 20.0 + seed.size * 20.0;
        s := 0.0;
      } else {
        vy := 2.0 + seed.fall * 3.0;
        vx := seed.swirl;
        s := 3.0 + seed.size * 4.0;
        len := 0.0;
      }
    }

    /** Fall by `vy` and drift by `vx`; snow also sways, by `sway`, the frame's
        `Math.sin(frameCount * 0.1) * 0.1`. */
    method Update(sway: real)
      modifies this
      ensures y == old(y) + vy && x == old(x) + old(vx)
      ensures vx == if kind == Snow then old(vx) + sway else old(vx)
    {
      y := y + vy;
      x := x + vx;
      if kind == Snow {
        vx := vx + sway;
      }
    }
  }

  // ---------------------------------------------------------------------------
  // Honk callouts
  // ---------------------------------------------------------------------------

  class Particle {
    const x: real
    var y: real
    const text: string
    var life: real
    /** Every callout rises at the same rate. */
    const vy: real := -2.0

    constructor (x: real, y: real, text: string)
      ensures this.x == x && this.y == y && this.text == text && life == 1.0 && vy == -2.0
    {
      this.x := x;
      this.y := y;
      this.text := text;
      life := 1.0;
    }

    /** Rise by two and fade by 0.02. */
    method Update()
      modifies this
      ensures y == old(y) - 2.0 && life == old(life) - 0.02 && life < old(life)
    {
      y := y + vy;
      life := life - 0.02;
    }
  }

  /** The five callout texts a honk picks from. */
  const HONK_TEXTS: seq<string> := ["\U{1F3B5}", "\U{1F3B6}", "\U{1F3BA}", "Puu!", "Gatagoto"]

  /** `s[Math.floor(Math.random() * s.length)]` over the callout texts. */
  function HonkText(r: real): (t: string)
    requires Unit(r)
    ensures t in HONK_TEXTS
  {
    HONK_TEXTS[(r * 5.0).Floor]
  }

  // ---------------------------------------------------------------------------
  // Vehicles and trains
  // ---------------------------------------------------------------------------

  /** The value of every field of a vehicle, for stating how a frame changes many of them. */
  datatype VehicleState = VehicleState(
    kind: Kind, x: real, y: real, speed: real, width: real,
    bounce: real, isStopped: bool, wheelRot: real, marked: bool)

  /** The stop line sits 80 before the crossing; a road vehicle holds there when it is less
      than 100 short of it and the crossing is anything but open. */
  predicate AtStopLine(c: CrossingState, x: real) {
    var dist := (c.x - 80.0) - x;
    c.state != Open && dist > 0.0 && dist < 100.0
  }

  /** One frame's move of a vehicle that has decided whether it is stopped: a stopped vehicle
      keeps its place, wheel angle and bounce; a moving one advances by its speed, turns its
      wheels by a tenth of it and takes the frame's bob; either way it is marked for deletion
      once it is more than 1000 past the right edge, and a mark is never taken back. */
  function Advance(v: VehicleState, stop: bool, worldWidth: real, bob: real): (r: VehicleState)
    ensures r.kind == v.kind && r.y == v.y && r.speed == v.speed && r.width == v.width
    ensures r.isStopped == stop
    ensures stop ==> r.x == v.x && r.wheelRot == v.wheelRot && r.bounce == v.bounce
    ensures !stop ==> r.x == v.x + v.speed && r.wheelRot == v.wheelRot + v.speed * 0.1 && r.bounce == bob
    ensures r.marked <==> v.marked || r.x > worldWidth + 1000.0
  {
    var x := if stop then v.x else v.x + v.speed;
    VehicleState(v.kind, x, v.y, v.speed, v.width,
                 if stop then v.bounce else bob,
                 stop,
                 if stop then v.wheelRot else v.wheelRot + v.speed * 0.1,
                 v.marked || x > worldWidth + 1000.0)
  }

  class Vehicle {
    const kind: Kind
    var x: real
    const y: real
    const speed: real
    const width: real
    var markedForDeletion: bool
    var bounce: real
    var isStopped: bool
    var wheelRot: real

    constructor (kind: Kind, x: real, y: real, speed: real)
      ensures this.kind == kind && this.x == x && this.y == y && this.speed == speed
      ensures width == WidthOf(kind)
      ensures !markedForDeletion && bounce == 0.0 && !isStopped && wheelRot == 0.0
    {
      this.kind := kind;
      this.x := x;
      this.y := y;
      this.speed := speed;
      width := WidthOf(kind);
      markedForDeletion := false;
      bounce := 0.0;
      isStopped := false;
      wheelRot := 0.0;
    }

    function State(): VehicleState
      reads this
    {
      VehicleState(kind, x, y, speed, width, bounce, isStopped, wheelRot, markedForDeletion)
    }

    /** Some other road vehicle in `others` is ahead of this one by less than its width plus 30. */
    predicate CarAhead(others: seq<Vehicle>)
      reads this, others
    {
      exists e :: e in others && !IsTrain(e.kind) && e != this && e.x > x && e.x - x < width + 30.0
    }

    /** One frame: only road vehicles in auto mode can stop, and they stop at the stop line
        before a crossing that is not open or behind a road vehicle too close ahead. */
    method Update(worldWidth: real, mode: PlayMode, crossing: CrossingState, others: seq<Vehicle>, bob: real)
      modifies this
      ensures State() == Advance(old(State()),
                                 mode == AutoPlay && !IsTrain(kind)
                                 && (AtStopLine(crossing, old(x)) || old(CarAhead(others))),
                                 worldWidth, bob)
    {
      isStopped := false;
      if mode == AutoPlay {
        var isTrain := IsTrain(kind);
        if !isTrain {
          var stopLine := crossing.x - 80.0;
          var dist := stopLine - x;
          if crossing.state != Open && dist > 0.0 && dist < 100.0 {
            isStopped := true;
          }
          if CarAhead(others) {
            isStopped := true;
          }
        }
      }
      if !isStopped {
        x := x + speed;
        wheelRot := wheelRot + speed * 0.1;
        bounce := bob;
      }
      if x > worldWidth + 1000.0 {
        markedForDeletion := true;
      }
    }

    /** Jolt the vehicle and hand back the one callout it emits, just above its front.
        The horn sound itself is an audio side effect outside the model. */
    method Honk(textPick: real) returns (p: Particle)
      requires Unit(textPick)
      modifies this
      ensures bounce == -20.0
      ensures x == old(x) && isStopped == old(isStopped) && wheelRot == old(wheelRot)
      ensures markedForDeletion == old(markedForDeletion)
      ensures fresh(p) && p.x == x + 50.0 && p.y == y - 20.0 && p.life == 1.0 && p.vy == -2.0
      ensures p.text == HonkText(textPick)
    {
      bounce := -20.0;
      var t := HonkText(textPick);
      p := new Particle(x + 50.0, y - 20.0, t);
    }
  }

  /** The field values of a sequence of vehicles, in order. */
  function Snapshot(s: seq<Vehicle>): (r: seq<VehicleState>)
    reads s
    ensures |r| == |s| && forall k :: 0 <= k < |s| ==> r[k] == s[k].State()
  {
    seq(|s|, k requires 0 <= k < |s| reads s => s[k].State())
  }

  /** Field values read again after only other objects changed are the same. */
  twostate lemma SnapshotUnchanged(s: seq<Vehicle>)
    requires unchanged(s)
    ensures Snapshot(s) == old(Snapshot(s))
  {
  }
}
