/** The simulation engine (game/engine.ts): it owns the vehicles, the callouts, the clouds
    and the rain or snow, the frame counter, the crossing and the environment, and changes
    them once per frame, on a settings change, on a tap and on a resize. */
module Engine {
  import opened Types
  import opened Entities
  import Traffic
  import Crossing
  import Environment
  import opened Spawner
  import opened Compaction

  /** Everything one frame draws from `Math.random()` and the trigonometric values it computes. */
  datatype FrameDraws = FrameDraws(
    curve: real,                    // Math.pow(Math.sin(Math.PI * env.time), 2)
    weatherRoll: real,
    weatherSeeds: seq<WeatherSeed>,
    snowSway: real,                 // Math.sin(frameCount * 0.1) * 0.1
    cloud: CloudSeed,
    roadTrial: real, localTrial: real, shinkansenTrial: real,
    roadPick: real, roadPace: real, localPick: real, liveryPick: real,
    bob: real)                      // Math.sin(frameCount * 0.3) * 2
  {
    predicate Valid() {
      && 0.0 <= curve <= 1.0
      && Unit(weatherRoll)
      && |weatherSeeds| >= 5 && (forall k :: 0 <= k < |weatherSeeds| ==> weatherSeeds[k].Valid())
      && cloud.Valid()
      && Unit(roadTrial) && Unit(localTrial) && Unit(shinkansenTrial)
      && Unit(roadPick) && Unit(roadPace) && Unit(localPick) && Unit(liveryPick)
    }

    /** The draw the spawner of category `c` picks its kind from. */
    function PickFor(c: Category): real {
      match c
      case RoadTraffic => roadPick
      case CommuterTrain => localPick
      case HighSpeedTrain => liveryPick
    }

    /** The draw the spawner of category `c` picks its speed from; only road traffic has one. */
    function PaceFor(c: Category): real {
      if c == RoadTraffic then roadPace else 0.0
    }
  }

  /** The engine's test for the train that drives the gate: neither a shinkansen nor a road kind. */
  predicate IsGateTrain(k: Kind) { !IsShinkansen(k) && !IsRoadKind(k) }

  /** `entities.find(...)` for the gate train: the index of the first one. */
  function GateTrain(s: seq<Vehicle>): (r: Option<nat>)
    ensures r.Some? ==> r.value < |s| && IsGateTrain(s[r.value].kind)
                        && forall j :: 0 <= j < r.value ==> !IsGateTrain(s[j].kind)
    ensures r.None? ==> forall j :: 0 <= j < |s| ==> !IsGateTrain(s[j].kind)
  {
    if s == [] then None
    else if IsGateTrain(s[0].kind) then Some(0)
    else match GateTrain(s[1..])
      case None => None
      case Some(i) => Some(i + 1)
  }

  /** The x of the gate train, if there is one. */
  function GateTrainX(s: seq<Vehicle>): Option<real>
    reads s
  {
    match GateTrain(s)
    case None => None
    case Some(i) => Some(s[i].x)
  }

  /** A high-speed train never drives the gate: the gate follows the first commuter train. */
  lemma GateIgnoresShinkansen(s: seq<Vehicle>)
    ensures GateTrain(s).Some? ==> IsCommuter(s[GateTrain(s).value].kind)
    ensures GateTrain(s).None? <==> forall j :: 0 <= j < |s| ==> !IsCommuter(s[j].kind)
    ensures forall j :: 0 <= j < |s| && IsShinkansen(s[j].kind) ==> GateTrain(s) != Some(j)
  {
    forall j | 0 <= j < |s| ensures IsGateTrain(s[j].kind) <==> IsCommuter(s[j].kind) {
      ClassifiersAgree(s[j].kind);
    }
  }

  /** The tap at (x, y) falls inside the open box of a vehicle, 100 high. */
  predicate Hits(e: Vehicle, x: real, y: real)
    reads e
  {
    x > e.x && x < e.x + e.width && y > e.y && y < e.y + 100.0
  }

  /** The index of the first vehicle a tap hits, if any. */
  function FirstHit(s: seq<Vehicle>, x: real, y: real): (r: Option<nat>)
    reads s
    ensures r.Some? ==> r.value < |s| && Hits(s[r.value], x, y)
                        && forall k :: 0 <= k < r.value ==> !Hits(s[k], x, y)
    ensures r.None? ==> forall k :: 0 <= k < |s| ==> !Hits(s[k], x, y)
  {
    if s == [] then None
    else if Hits(s[0], x, y) then Some(0)
    else match FirstHit(s[1..], x, y)
      case None => None
      case Some(i) => Some(i + 1)
  }

  class FumikiriGame {
    var settings: Settings

    var entities: seq<Vehicle>
    var particles: seq<Particle>
    var clouds: seq<Cloud>
    var weatherParticles: seq<WeatherParticle>
    var frameCount: int
    var crossing: CrossingState
    var env: EnvState

    var width: real
    var height: real
    var skyLine: real
    var elevatedTrackY: real
    var groundTrackY: real
    var roadY: real

    /** The layout bands and the crossing position follow from the surface size. */
    ghost predicate LayoutOk()
      reads this`width, this`height, this`skyLine, this`elevatedTrackY, this`groundTrackY, this`roadY, this`crossing
    {
      && width >= 0.0 && height >= 0.0
      && skyLine == height * 0.35 && elevatedTrackY == height * 0.25
      && groundTrackY == height * 0.55 && roadY == height * 0.85
      && crossing.x == width * 0.35
    }

    /** The engine between frames and calls: the layout is consistent, the environment and
        crossing keep their invariants, the crossing is pinned OPEN in tap mode, no object sits
        twice in a collection, there are at most five clouds, no vehicle is marked for
        deletion, every callout has life in (0, 1] and every weather particle is rain or snow. */
    ghost predicate Valid()
      reads this, entities, particles
    {
      LayoutOk() && ControlOk() && FleetOk() && CalloutsOk() && CloudsOk() && RainOk()
    }

    ghost predicate ControlOk()
      reads this`frameCount, this`env, this`crossing, this`settings
    {
      && frameCount >= 0
      && Environment.Inv(env)
      && Crossing.Inv(crossing)
      && (settings.playMode == TapPlay ==> crossing.state == Open)
    }

    ghost predicate FleetOk()
      reads this`entities, entities
    {
      Distinct(entities) && forall e :: e in entities ==> !e.markedForDeletion
    }

    ghost predicate CalloutsOk()
      reads this`particles, particles
    {
      Distinct(particles) && forall p :: p in particles ==> 0.0 < p.life <= 1.0
    }

    ghost predicate CloudsOk()
      reads this`clouds
    {
      Distinct(clouds) && |clouds| <= 5
    }

    ghost predicate RainOk()
      reads this`weatherParticles
    {
      Distinct(weatherParticles) && forall w :: w in weatherParticles ==> w.kind == Rain || w.kind == Snow
    }

    /** `weatherParticles` is `kept` followed by one particle of weather `w` per particle the frame
        pours, each seeded by its draw: it starts at y = -10 and at x = `across` times the width. */
    ghost predicate Poured(kept: seq<WeatherParticle>, w: WeatherMode, seeds: seq<WeatherSeed>)
      reads this`weatherParticles, this`width, weatherParticles
    {
      && |weatherParticles| == |kept| + Environment.ParticlesPerFrame(w) <= |kept| + |seeds|
      && weatherParticles[..|kept|] == kept
      && forall k :: |kept| <= k < |weatherParticles| ==>
           var p := weatherParticles[k];
           p.kind == w && p.y == -10.0 && p.x == seeds[k - |kept|].across * width
    }

    constructor (settings: Settings, innerWidth: nat, innerHeight: nat)
      ensures Valid() && this.settings == settings
      ensures entities == [] && particles == [] && clouds == [] && weatherParticles == []
      ensures frameCount == 0 && env == Environment.Initial()
      ensures crossing == CrossingState(Open, 0, OPEN_ANGLE, width * 0.35, false)
      ensures width == innerWidth as real && height == innerHeight as real
    {
      this.settings := settings;
      entities, particles, clouds, weatherParticles := [], [], [], [];
      frameCount := 0;
      crossing := CrossingState(Open, 0, OPEN_ANGLE, 0.0, false);
      env := Environment.Initial();
      new;
      Resize(innerWidth, innerHeight);
    }

    /** Take the new surface size and recompute the bands and the crossing position from it
        alone, so resizing twice to the same size changes nothing the second time. */
    method Resize(innerWidth: nat, innerHeight: nat)
      modifies this`width, this`height, this`skyLine, this`elevatedTrackY, this`groundTrackY, this`roadY, this`crossing
      ensures width == innerWidth as real && height == innerHeight as real
      ensures crossing == old(crossing).(x := width * 0.35)
      ensures LayoutOk()
      ensures 0.0 <= elevatedTrackY <= skyLine <= groundTrackY <= roadY <= height
      ensures 0.0 <= crossing.x <= width
      ensures old(Valid()) ==> Valid()
    {
      width, height, skyLine, elevatedTrackY, groundTrackY, roadY, crossing :=
        innerWidth as real, innerHeight as real, (innerHeight as real) * 0.35, (innerHeight as real) * 0.25,
        (innerHeight as real) * 0.55, (innerHeight as real) * 0.85, crossing.(x := (innerWidth as real) * 0.35);
    }
    /** Switching into tap mode forces the crossing OPEN, raised and dark; switching the weather
        to a fixed kind pins it at once and drops the particles in flight. */
    method UpdateSettings(next: Settings)
      requires Valid()
      modifies this`settings, this`crossing, this`env, this`weatherParticles
      ensures Valid() && settings == next
      ensures crossing == if old(settings).playMode != next.playMode && next.playMode == TapPlay
                          then old(crossing).(state := Open, angle := OPEN_ANGLE, isAlarmOn := false)
                          else old(crossing)
      ensures if old(settings).weatherMode != next.weatherMode && next.weatherMode != AutoWeather
              then env == old(env).(weather := next.weatherMode) && weatherParticles == []
              else env == old(env) && weatherParticles == old(weatherParticles)
    {
      if settings.playMode != next.playMode && next.playMode == TapPlay {
        crossing := crossing.(state := Open, angle := OPEN_ANGLE, isAlarmOn := false);
      }
      if settings.weatherMode != next.weatherMode && next.weatherMode != AutoWeather {
        env, weatherParticles := env.(weather := next.weatherMode), [];
      }
      settings := next;
    }

    /** `v` is the vehicle a spawner of category `c` has just built from the draws. */
    ghost predicate IsSpawn(v: Vehicle, c: Category, pick: real, pace: real)
      reads this`roadY, this`groundTrackY, this`elevatedTrackY, v
    {
      && Unit(pick) && Unit(pace)
      && !v.markedForDeletion && v.bounce == 0.0 && !v.isStopped && v.wheelRot == 0.0
      && v.width == WidthOf(v.kind)
      && match c
         case RoadTraffic =>
           v.kind == RoadKindAt(pick) && v.x == ROAD_START_X && v.y == roadY - 30.0 && v.speed == RoadSpeed(pace)
         case CommuterTrain =>
           v.kind == CommuterKindAt(pick) && v.x == COMMUTER_START_X && v.y == groundTrackY - 55.0
           && v.speed == CommuterSpeed(v.kind)
         case HighSpeedTrain =>
           v.kind == LiveryAt(pick) && v.x == SHINKANSEN_START_X && v.y == elevatedTrackY - 50.0
           && v.speed == SHINKANSEN_SPEED
    }

    /** `entities` is `before` with one new vehicle of category `c` appended. */
    ghost predicate AppendedSpawn(before: seq<Vehicle>, c: Category, pick: real, pace: real)
      reads this, entities
    {
      && |entities| == |before| + 1 && entities == before + [entities[|before|]]
      && IsSpawn(entities[|before|], c, pick, pace)
    }

    /** Append one road vehicle; road traffic is never capped. */
    method SpawnVehicle(pick: real, pace: real)
      requires FleetOk() && Unit(pick) && Unit(pace)
      modifies this`entities
      ensures FleetOk()
      ensures AppendedSpawn(old(entities), RoadTraffic, pick, pace) && fresh(entities[|entities| - 1])
    {
      var kind := RoadKindAt(pick);
      var speed := RoadSpeed(pace);
      var v := new Vehicle(kind, ROAD_START_X, roadY - 30.0, speed);
      entities := entities + [v];
      assert entities[..|old(entities)|] == old(entities);
    }

    /** Append one commuter train, unless in auto mode one is already alive. */
    method SpawnLocalTrain(pick: real)
      requires FleetOk() && Unit(pick)
      modifies this`entities
      ensures FleetOk()
      ensures if settings.playMode == AutoPlay && AnyOf(old(entities), CommuterTrain) then entities == old(entities)
              else AppendedSpawn(old(entities), CommuterTrain, pick, 0.0) && fresh(entities[|entities| - 1])
      ensures exists v: Vehicle :: InCategory(v.kind, CommuterTrain) && entities == CappedSpawn(old(entities), v, settings.playMode, CommuterTrain)
      ensures settings.playMode == AutoPlay && CountOf(old(entities), CommuterTrain) <= 1 ==> CountOf(entities, CommuterTrain) <= 1
    {
      if settings.playMode == AutoPlay && AnyOf(entities, CommuterTrain) {
        ghost var i :| 0 <= i < |entities| && InCategory(entities[i].kind, CommuterTrain);
        assert InCategory(entities[i].kind, CommuterTrain) && entities == CappedSpawn(entities, entities[i], settings.playMode, CommuterTrain);
        CapKeepsAtMostOne(entities, entities[i], settings.playMode, CommuterTrain);
        return;
      }
      var kind := CommuterKindAt(pick);
      var speed := CommuterSpeed(kind);
      var v := new Vehicle(kind, COMMUTER_START_X, groundTrackY - 55.0, speed);
      entities := entities + [v];
      assert InCategory(v.kind, CommuterTrain) && entities == CappedSpawn(old(entities), v, settings.playMode, CommuterTrain);
      CapKeepsAtMostOne(old(entities), v, settings.playMode, CommuterTrain);
    }

    /** Append one high-speed train, unless in auto mode one is already alive. */
    method SpawnShinkansen(pick: real)
      requires FleetOk() && Unit(pick)
      modifies this`entities
      ensures FleetOk()
      ensures if settings.playMode == AutoPlay && AnyOf(old(entities), HighSpeedTrain) then entities == old(entities)
              else AppendedSpawn(old(entities), HighSpeedTrain, pick, 0.0) && fresh(entities[|entities| - 1])
      ensures exists v: Vehicle :: InCategory(v.kind, HighSpeedTrain) && entities == CappedSpawn(old(entities), v, settings.playMode, HighSpeedTrain)
      ensures settings.playMode == AutoPlay && CountOf(old(entities), HighSpeedTrain) <= 1 ==> CountOf(entities, HighSpeedTrain) <= 1
    {
      if settings.playMode == AutoPlay && AnyOf(entities, HighSpeedTrain) {
        ghost var i :| 0 <= i < |entities| && InCategory(entities[i].kind, HighSpeedTrain);
        assert InCategory(entities[i].kind, HighSpeedTrain) && entities == CappedSpawn(entities, entities[i], settings.playMode, HighSpeedTrain);
        CapKeepsAtMostOne(entities, entities[i], settings.playMode, HighSpeedTrain);
        return;
      }
      var kind := LiveryAt(pick);
      var v := new Vehicle(kind, SHINKANSEN_START_X, elevatedTrackY - 50.0, SHINKANSEN_SPEED);
      entities := entities + [v];
      assert InCategory(v.kind, HighSpeedTrain) && entities == CappedSpawn(old(entities), v, settings.playMode, HighSpeedTrain);
      CapKeepsAtMostOne(old(entities), v, settings.playMode, HighSpeedTrain);
    }

    /** `particles` is `before` plus the one callout that honking `v` emits. */
    ghost predicate HonkedOnce(before: seq<Particle>, v: Vehicle, textPick: real)
      reads this, particles, v
    {
      && |particles| == |before| + 1 && particles[..|before|] == before
      && var p := particles[|before|];
         Unit(textPick) && p.x == v.x + 50.0 && p.y == v.y - 20.0 && p.life == 1.0 && p.vy == -2.0
         && p.text == HonkText(textPick)
    }

    /** `ent.honk()` followed by pushing its callout: vehicle `k` bounces and one callout
        appears above it; nothing else changes. */
    method HonkVehicle(k: nat, textPick: real)
      requires Valid() && k < |entities| && Unit(textPick)
      modifies entities[k], this`particles
      ensures Valid()
      ensures HonkedOnce(old(particles), entities[k], textPick) && fresh(particles[|particles| - 1])
      ensures entities[k].bounce == -20.0 && entities[k].State() == old(entities[k].State()).(bounce := -20.0)
    {
      var p := entities[k].Honk(textPick);
      DistinctAppend(particles, p);
      particles := particles + [p];
      assert particles[..|old(particles)|] == old(particles);
    }

    /** The tap-mode spawn by band: above the elevated track plus 50 a high-speed train, else
        above the road minus 50 a commuter train, else a road vehicle. */
    method SpawnAt(y: real, pick: real, pace: real)
      requires Valid() && settings.playMode == TapPlay && Unit(pick) && Unit(pace)
      modifies this`entities
      ensures Valid()
      ensures |entities| == |old(entities)| + 1 && fresh(entities[|entities| - 1])
      ensures y < elevatedTrackY + 50.0 ==> AppendedSpawn(old(entities), HighSpeedTrain, pick, 0.0)
      ensures elevatedTrackY + 50.0 <= y < roadY - 50.0 ==> AppendedSpawn(old(entities), CommuterTrain, pick, 0.0)
      ensures elevatedTrackY + 50.0 <= y && roadY - 50.0 <= y ==> AppendedSpawn(old(entities), RoadTraffic, pick, pace)
    {
      if y < elevatedTrackY + 50.0 {
        SpawnShinkansen(pick);
      } else if y < roadY - 50.0 {
        SpawnLocalTrain(pick);
      } else {
        SpawnVehicle(pick, pace);
      }
    }

    /** A tap honks the first vehicle whose box contains it and does nothing else. Missing every
        vehicle, it spawns by band in tap mode and in auto mode honks a randomly picked
        vehicle, if there is one, without spawning anything. */
    method HandleTap(x: real, y: real, pick: real, pace: real, textPick: real)
      requires Valid() && Unit(pick) && Unit(pace) && Unit(textPick)
      modifies this`entities, this`particles, entities
      ensures Valid()
      ensures old(FirstHit(entities, x, y)).Some? ==>
                && entities == old(entities)
                && var k := old(FirstHit(entities, x, y)).value;
                   HonkedOnce(old(particles), entities[k], textPick) && fresh(particles[|particles| - 1])
                   && entities[k].State() == old(entities[k].State()).(bounce := -20.0)
                   && forall j :: 0 <= j < |entities| && j != k ==> unchanged(entities[j])
      ensures old(FirstHit(entities, x, y)).None? && settings.playMode == TapPlay ==>
                && particles == old(particles)
                && |entities| == |old(entities)| + 1 && fresh(entities[|entities| - 1])
                && (y < elevatedTrackY + 50.0 ==> AppendedSpawn(old(entities), HighSpeedTrain, pick, 0.0))
                && (elevatedTrackY + 50.0 <= y < roadY - 50.0 ==> AppendedSpawn(old(entities), CommuterTrain, pick, 0.0))
                && (elevatedTrackY + 50.0 <= y && roadY - 50.0 <= y ==> AppendedSpawn(old(entities), RoadTraffic, pick, pace))
                && forall j :: 0 <= j < |old(entities)| ==> unchanged(entities[j])
      ensures old(FirstHit(entities, x, y)).None? && settings.playMode == AutoPlay ==>
                && entities == old(entities)
                && if entities == [] then particles == old(particles)
                   else var k := PickIndex(pick, |entities|);
                        HonkedOnce(old(particles), entities[k], textPick) && fresh(particles[|particles| - 1])
                        && entities[k].State() == old(entities[k].State()).(bounce := -20.0)
                        && forall j :: 0 <= j < |entities| && j != k ==> unchanged(entities[j])
    {
      var hit := FindTapped(x, y);
      if hit.Some? {
        HonkVehicle(hit.value, textPick);
      } else if settings.playMode == TapPlay {
        SpawnAt(y, pick, pace);
      } else if |entities| > 0 {
        HonkVehicle(PickIndex(pick, |entities|), textPick);
      }
    }

    /** The scan of a tap: the index of the first vehicle whose box contains the point. */
    method FindTapped(x: real, y: real) returns (hit: Option<nat>)
      ensures hit == FirstHit(entities, x, y)
      ensures hit.Some? ==> hit.value < |entities| && Hits(entities[hit.value], x, y)
      ensures hit.None? <==> forall k :: 0 <= k < |entities| ==> !Hits(entities[k], x, y)
    {
      var i := 0;
      while i < |entities|
        invariant 0 <= i <= |entities|
        invariant forall k :: 0 <= k < i ==> !Hits(entities[k], x, y)
      {
        var ent := entities[i];
        if x > ent.x && x < ent.x + ent.width && y > ent.y && y < ent.y + 100.0 {
          return Some(i);
        }
        i := i + 1;
      }
      return None;
    }

    /** The environment half of a frame: time of day, weather, and the new rain or snow,
        five particles a frame for rain, two for snow, none when clear. */
    method UpdateEnvironment(curve: real, roll: real, seeds: seq<WeatherSeed>)
      requires ControlOk() && RainOk() && 0.0 <= curve <= 1.0 && Unit(roll)
      requires |seeds| >= 5 && forall k :: 0 <= k < |seeds| ==> seeds[k].Valid()
      modifies this`env, this`weatherParticles
      ensures ControlOk() && RainOk()
      ensures env == Environment.EnvNext(old(env), settings, frameCount, curve, roll)
      ensures var kept := if Environment.Rerolls(old(env), settings.weatherMode) then [] else old(weatherParticles);
              && Poured(kept, env.weather, seeds)
              && forall k :: |kept| <= k < |weatherParticles| ==> fresh(weatherParticles[k])
    {
      StepTimeOfDay(curve);
      StepWeather(roll);
      Environment.EnvNextKeepsInv(old(env), settings, frameCount, curve, roll);
      if env.weather != Clear {
        var count := if env.weather == Rain then 5 else 2;
        PourWeather(count, seeds);
      }
    }

    /** The time-of-day half of the environment step. */
    method StepTimeOfDay(curve: real)
      requires env.cycleDuration > 0
      modifies this`env
      ensures env == Environment.TimeStep(old(env), settings.timeMode, frameCount, curve)
    {
      if settings.timeMode == AutoTime {
        env := env.(time := (frameCount % env.cycleDuration) as real / env.cycleDuration as real);
        env := env.(nightIntensity := curve);
      } else if settings.timeMode == Day {
        env := env.(nightIntensity := Max(0.0, env.nightIntensity - 0.02));
      } else {
        env := env.(nightIntensity := Min(1.0, env.nightIntensity + 0.02));
      }
      env := env.(isNight := env.nightIntensity > 0.3);
    }

    /** The weather half of the environment step; a new automatic roll also clears the sky of
        the old particles. */
    method StepWeather(roll: real)
      modifies this`env, this`weatherParticles
      ensures env == Environment.WeatherStep(old(env), settings.weatherMode, roll)
      ensures weatherParticles == if Environment.Rerolls(old(env), settings.weatherMode) then [] else old(weatherParticles)
    {
      if settings.weatherMode == AutoWeather {
        env := env.(weatherTimer := env.weatherTimer + 1);
        if env.weatherTimer > 1200 {
          env := env.(weatherTimer := 0);
          var r := roll;
          if r < 0.5 {
            env := env.(weather := Clear);
          } else if r < 0.8 {
            env := env.(weather := Rain);
          } else {
            env := env.(weather := Snow);
          }
          weatherParticles := [];
        }
      } else {
        env := env.(weather := settings.weatherMode);
      }
    }

    /** The particle loop of the environment step: `n` new particles of the current weather,
        one from each of the first `n` seeds, at the top of the screen. */
    method PourWeather(n: nat, seeds: seq<WeatherSeed>)
      requires RainOk() && (env.weather == Rain || env.weather == Snow)
      requires n <= |seeds| && forall k :: 0 <= k < |seeds| ==> seeds[k].Valid()
      modifies this`weatherParticles
      ensures RainOk()
      ensures |weatherParticles| == |old(weatherParticles)| + n
      ensures weatherParticles[..|old(weatherParticles)|] == old(weatherParticles)
      ensures forall k :: |old(weatherParticles)| <= k < |weatherParticles| ==>
                var p := weatherParticles[k];
                fresh(p) && p.kind == env.weather && p.y == -10.0 && p.x == seeds[k - |old(weatherParticles)|].across * width
    {
      for i := 0 to n
        invariant |weatherParticles| == |old(weatherParticles)| + i
        invariant weatherParticles[..|old(weatherParticles)|] == old(weatherParticles)
        invariant RainOk()
        invariant forall k :: |old(weatherParticles)| <= k < |weatherParticles| ==>
                    var p := weatherParticles[k];
                    fresh(p) && p.kind == env.weather && p.y == -10.0 && p.x == seeds[k - |old(weatherParticles)|].across * width
      {
        var p := new WeatherParticle(width, env.weather, seeds[i]);
        DistinctAppend(weatherParticles, p);
        weatherParticles := weatherParticles + [p];
      }
    }

    /** `clouds.forEach(c => c.update(width))`: every cloud drifts right by its speed and
        wraps back to -150 once past the right edge plus 150. */
    method DriftClouds()
      requires Distinct(clouds) && width >= 0.0
      modifies clouds
      ensures forall k :: 0 <= k < |clouds| ==>
                clouds[k].x == (if old(clouds[k].x) + clouds[k].speed > width + 150.0 then -150.0
                                else old(clouds[k].x) + clouds[k].speed)
      ensures forall k :: 0 <= k < |clouds| ==> clouds[k].x <= width + 150.0
    {
      var i := 0;
      while i < |clouds|
        invariant 0 <= i <= |clouds|
        invariant forall k :: 0 <= k < i ==>
                    clouds[k].x == (if old(clouds[k].x) + clouds[k].speed > width + 150.0 then -150.0
                                    else old(clouds[k].x) + clouds[k].speed)
                    && clouds[k].x <= width + 150.0
        invariant forall k :: i <= k < |clouds| ==> clouds[k].x == old(clouds[k].x)
      {
        clouds[i].Update(width);
        i := i + 1;
      }
    }

    /** Add a cloud when there are fewer than five (one per frame), then let every cloud drift. */
    method StepClouds(seed: CloudSeed)
      requires CloudsOk() && width >= 0.0 && seed.Valid()
      modifies this`clouds, clouds
      ensures CloudsOk()
      ensures |clouds| == if |old(clouds)| < 5 then |old(clouds)| + 1 else |old(clouds)|
      ensures clouds[..|old(clouds)|] == old(clouds)
      ensures |clouds| > |old(clouds)| ==> fresh(clouds[|clouds| - 1])
      ensures |clouds| > |old(clouds)| ==>
                var c := clouds[|clouds| - 1];
                var x0 := seed.across * width;
                && c.y == seed.height * (skyLine - 150.0)
                && c.speed == 0.2 + seed.pace * 0.3 && c.size == 0.5 + seed.scale * 0.8
                && c.x == (if x0 + c.speed > width + 150.0 then -150.0 else x0 + c.speed)
      ensures forall k :: 0 <= k < |old(clouds)| ==>
                clouds[k].x == (if old(clouds[k].x) + clouds[k].speed > width + 150.0 then -150.0
                                else old(clouds[k].x) + clouds[k].speed)
      ensures forall c :: c in clouds ==> c.x <= width + 150.0
    {
      if |clouds| < 5 {
        var c := new Cloud(width, skyLine, seed);
        DistinctAppend(clouds, c);
        clouds := clouds + [c];
      }
      assert clouds[..|old(clouds)|] == old(clouds);
      DriftClouds();
    }

    /** `weatherParticles.forEach(p => p.update(...))`: every particle falls by its own speed and
        drifts sideways; snow also sways. */
    method FallWeather(sway: real)
      requires Distinct(weatherParticles)
      modifies weatherParticles
      ensures forall k :: 0 <= k < |weatherParticles| ==>
                var p := weatherParticles[k];
                p.y == old(p.y) + p.vy && p.x == old(p.x) + old(p.vx)
                && p.vx == (if p.kind == Snow then old(p.vx) + sway else old(p.vx))
    {
      var i := 0;
      while i < |weatherParticles|
        invariant 0 <= i <= |weatherParticles|
        invariant forall k :: 0 <= k < i ==>
                    var p := weatherParticles[k];
                    p.y == old(p.y) + p.vy && p.x == old(p.x) + old(p.vx)
                    && p.vx == (if p.kind == Snow then old(p.vx) + sway else old(p.vx))
        invariant forall k :: i <= k < |weatherParticles| ==>
                    var p := weatherParticles[k];
                    p.y == old(p.y) && p.x == old(p.x) && p.vx == old(p.vx)
      {
        weatherParticles[i].Update(sway);
        i := i + 1;
      }
    }

    /** `weatherParticles = weatherParticles.filter(p => p.y < height + 50)` */
    method DropFallen()
      requires Distinct(weatherParticles)
      modifies this`weatherParticles
      ensures Distinct(weatherParticles)
      ensures weatherParticles == StillFalling(old(weatherParticles), height)
      ensures forall p :: p in weatherParticles <==> p in old(weatherParticles) && p.y < height + 50.0
    {
      ghost var all := weatherParticles;
      weatherParticles := StillFalling(weatherParticles, height);
      assert StillFalling(all, height) == old(StillFalling(all, height));
      StillFallingAboveBottom(all, height);
      DistinctSubMultiset(all, weatherParticles);
    }

    /** Let every rain drop and snow flake fall, then drop those past the bottom plus 50. */
    method StepWeatherParticles(sway: real)
      requires Valid()
      modifies this`weatherParticles, weatherParticles
      ensures Valid()
      ensures forall k :: 0 <= k < |old(weatherParticles)| ==>
                var p := old(weatherParticles)[k];
                p.y == old(p.y) + p.vy && p.x == old(p.x) + old(p.vx)
                && p.vx == (if p.kind == Snow then old(p.vx) + sway else old(p.vx))
      ensures forall p :: p in weatherParticles <==> p in old(weatherParticles) && p.y < height + 50.0
    {
      FallWeather(sway);
      DropFallen();
    }

    /** One step of the crossing controller (auto mode only), run against the gate train as it
        stands after this frame's spawns. */
    method StepCrossing()
      requires ControlOk() && settings.playMode == AutoPlay
      modifies this`crossing
      ensures ControlOk()
      ensures crossing == Crossing.Next(old(crossing), old(GateTrainX(entities)), frameCount)
      ensures crossing.x == old(crossing).x
    {
      WatchGateTrain();
      DriveGate();
      Crossing.NextKeepsInv(old(crossing), old(GateTrainX(entities)), frameCount);
      Crossing.NextKeepsPosition(old(crossing), old(GateTrainX(entities)), frameCount);
    }

    /** The zone tests on the first commuter train: entering the trigger window sounds the
        warning with an 80-frame countdown, leaving past the departure line starts opening. */
    method WatchGateTrain()
      modifies this`crossing
      ensures crossing == Crossing.Detect(old(crossing), GateTrainX(entities))
    {
      var localTrain := GateTrain(entities);
      if localTrain.Some? {
        var dist := entities[localTrain.value].x - crossing.x;
        if dist < -800.0 && dist > -850.0 && crossing.state == Open {
          crossing := crossing.(state := Warning);
          crossing := crossing.(timer := 80);
        }
        if dist > 800.0 && (crossing.state == Closed || crossing.state == Closing) {
          crossing := crossing.(state := Opening);
        }
      }
    }

    /** The per-phase `switch` of the crossing. */
    method DriveGate()
      modifies this`crossing
      ensures crossing == Crossing.Drive(old(crossing), frameCount)
    {
      match crossing.state {
        case Warning =>
          crossing := crossing.(timer := crossing.timer - 1);
          if frameCount % 15 == 0 { crossing := crossing.(isAlarmOn := !crossing.isAlarmOn); }
          if crossing.timer <= 0 { crossing := crossing.(state := Closing); }
        case Closing =>
          crossing := crossing.(angle := crossing.angle + 0.05);
          if crossing.angle >= 0.0 {
            crossing := crossing.(angle := 0.0);
            crossing := crossing.(state := Closed);
          }
          if frameCount % 15 == 0 { crossing := crossing.(isAlarmOn := !crossing.isAlarmOn); }
        case Closed =>
          if frameCount % 15 == 0 { crossing := crossing.(isAlarmOn := !crossing.isAlarmOn); }
        case Opening =>
          crossing := crossing.(angle := crossing.angle - 0.05);
          crossing := crossing.(isAlarmOn := false);
          if crossing.angle <= OPEN_ANGLE {
            crossing := crossing.(angle := OPEN_ANGLE);
            crossing := crossing.(state := Open);
          }
        case Open =>
      }
    }

    /** `entities.forEach(e => e.update(...))`: every vehicle moves in array order, each one
        seeing the vehicles before it already moved this frame. */
    method MoveFleet(bob: real)
      requires Distinct(entities)
      modifies entities
      ensures entities == old(entities)
      ensures Snapshot(entities) == Traffic.StepAll(old(Snapshot(entities)), Traffic.Tick(width, settings.playMode, crossing, bob))
    {
      ghost var t := Traffic.Tick(width, settings.playMode, crossing, bob);
      ghost var s0 := Snapshot(entities);
      var i := 0;
      while i < |entities|
        invariant 0 <= i <= |entities|
        invariant Traffic.StepFrom(Snapshot(entities), i, t) == Traffic.StepFrom(s0, 0, t)
      {
        ghost var before := Snapshot(entities);
        Traffic.CarAheadAgrees(entities, i);
        var e := entities[i];
        e.Update(width, settings.playMode, crossing, entities, bob);
        assert Snapshot(entities) == before[i := Traffic.StepOne(before, i, t)] by {
          forall k | 0 <= k < |entities| ensures Snapshot(entities)[k] == before[i := Traffic.StepOne(before, i, t)][k] {
            if k != i {
              assert entities[k] != e;
            }
          }
        }
        i := i + 1;
      }
    }

    /** `entities = entities.filter(e => !e.markedForDeletion)` followed by the depth sort. */
    method Compact()
      requires Distinct(entities)
      modifies this`entities
      ensures FleetOk() && SortedByY(entities)
      ensures entities == SortByY(Survivors(old(entities)))
      ensures forall e :: e in entities <==> e in old(entities) && !e.markedForDeletion
    {
      ghost var all := entities;
      entities := SortByY(Survivors(entities));
      SurvivorsUnchanged(all);
      CompactedFleet(all);
    }

    /** Move every vehicle, then drop the marked ones and sort the rest by depth. */
    method StepFleet(bob: real)
      requires FleetOk()
      modifies this`entities, entities
      ensures FleetOk() && SortedByY(entities)
      ensures Snapshot(old(entities)) == Traffic.StepAll(old(Snapshot(entities)), Traffic.Tick(width, settings.playMode, crossing, bob))
      ensures forall e :: e in entities <==> e in old(entities) && !e.markedForDeletion
      ensures forall e :: e in old(entities) && e.x > width + 1000.0 ==> e !in entities
      ensures forall e :: e in entities ==> e.x <= width + 1000.0
    {
      MoveFleet(bob);
      ghost var t := Traffic.Tick(width, settings.playMode, crossing, bob);
      ghost var s0 := old(Snapshot(entities));
      ghost var all := entities;
      Traffic.FleetFarRightMarked(all, s0, t);
      label moved:
      Compact();
      SnapshotUnchanged@moved(all);
    }

    /** `particles.forEach(p => p.update())`: every callout rises by 2 and loses 0.02 of life. */
    method AgeParticles()
      requires Distinct(particles)
      modifies particles
      ensures forall k :: 0 <= k < |particles| ==>
                particles[k].y == old(particles[k].y) - 2.0 && particles[k].life == old(particles[k].life) - 0.02
      ensures particles == old(particles)
      ensures forall p :: p in particles ==> p.life == old(p.life) - 0.02
    {
      var i := 0;
      while i < |particles|
        invariant 0 <= i <= |particles|
        invariant forall k :: 0 <= k < i ==>
                    particles[k].y == old(particles[k].y) - 2.0 && particles[k].life == old(particles[k].life) - 0.02
        invariant forall k :: i <= k < |particles| ==>
                    particles[k].y == old(particles[k].y) && particles[k].life == old(particles[k].life)
      {
        particles[i].Update();
        i := i + 1;
      }
    }

    /** `particles = particles.filter(p => p.life > 0)` */
    method DropSpent()
      requires Distinct(particles)
      modifies this`particles
      ensures Distinct(particles)
      ensures particles == StillAlive(old(particles))
      ensures forall p :: p in particles <==> p in old(particles) && p.life > 0.0
    {
      ghost var all := particles;
      particles := StillAlive(particles);
      StillAliveUnchanged(all);
      StillAliveKeepsLive(all);
      DistinctSubMultiset(all, particles);
    }

    /** Let every callout rise and fade, then drop the ones whose life is spent. */
    method StepParticles()
      requires Valid()
      modifies this`particles, particles
      ensures Valid()
      ensures forall k :: 0 <= k < |old(particles)| ==>
                var p := old(particles)[k];
                p.y == old(p.y) - 2.0 && p.life == old(p.life) - 0.02
      ensures forall p :: p in particles <==> p in old(particles) && p.life > 0.0
    {
      AgeParticles();
      DropSpent();
    }

    /** The sky part of a frame: the environment, with this frame's rain or snow, and the clouds. */
    method StepSky(d: FrameDraws)
      requires Valid() && d.Valid()
      modifies this`frameCount, this`env, this`weatherParticles, this`clouds, clouds
      ensures Valid() && frameCount == old(frameCount) + 1
      ensures env == Environment.EnvNext(old(env), settings, frameCount, d.curve, d.weatherRoll)
      ensures var kept := if Environment.Rerolls(old(env), settings.weatherMode) then [] else old(weatherParticles);
              && Poured(kept, env.weather, d.weatherSeeds)
              && forall k :: |kept| <= k < |weatherParticles| ==> fresh(weatherParticles[k])
      ensures forall k :: 0 <= k < |weatherParticles| ==> weatherParticles[k] in old(weatherParticles) || fresh(weatherParticles[k])
      ensures |clouds| == if |old(clouds)| < 5 then |old(clouds)| + 1 else |old(clouds)|
      ensures clouds[..|old(clouds)|] == old(clouds)
      ensures forall k :: 0 <= k < |old(clouds)| ==>
                clouds[k].x == (if old(clouds[k].x) + clouds[k].speed > width + 150.0 then -150.0
                                else old(clouds[k].x) + clouds[k].speed)
      ensures |clouds| > |old(clouds)| ==>
                var c := clouds[|clouds| - 1];
                var x0 := d.cloud.across * width;
                && fresh(c) && c.y == d.cloud.height * (skyLine - 150.0)
                && c.speed == 0.2 + d.cloud.pace * 0.3 && c.size == 0.5 + d.cloud.scale * 0.8
                && c.x == (if x0 + c.speed > width + 150.0 then -150.0 else x0 + c.speed)
      ensures forall c :: c in clouds ==> c.x <= width + 150.0
    {
      frameCount := frameCount + 1;
      UpdateEnvironment(d.curve, d.weatherRoll, d.weatherSeeds);
      StepClouds(d.cloud);
    }

    /** The road trial of a frame: a road vehicle when the draw is below 0.012. */
    method RoadTrial(d: FrameDraws)
      requires FleetOk() && d.Valid()
      modifies this`entities
      ensures FleetOk()
      ensures AppendedPlan(old(entities), if d.roadTrial < 0.012 then [RoadTraffic] else [], d)
      ensures forall k :: |old(entities)| <= k < |entities| ==> fresh(entities[k])
    {
      if d.roadTrial < 0.012 { SpawnVehicle(d.roadPick, d.roadPace); }
    }

    /** The commuter trial of a frame: a commuter train when the draw is below 0.003 while the
        crossing is OPEN, unless one is alive. `plan` is what the earlier trials spawned since
        `before`, none of it a commuter train, so the cap may be judged on `before`. */
    method CommuterTrial(d: FrameDraws, ghost before: seq<Vehicle>, ghost plan: seq<Category>)
      requires FleetOk() && settings.playMode == AutoPlay && d.Valid()
      requires AppendedPlan(before, plan, d) && CommuterTrain !in plan
      modifies this`entities
      ensures FleetOk()
      ensures AppendedPlan(before, plan + CommuterPiece(before, d), d)
      ensures entities[..|old(entities)|] == old(entities)
      ensures forall k :: |old(entities)| <= k < |entities| ==> fresh(entities[k])
    {
      PlanKeepsAnyOf(before, plan, d, CommuterTrain);
      if d.localTrial < 0.003 && crossing.state == Open { SpawnLocalTrain(d.localPick); }
    }

    /** The high-speed trial of a frame: a high-speed train when the draw is below 0.005, unless
        one is alive. `plan` is what the earlier trials spawned since `before`, none of it a
        high-speed train, so the cap may be judged on `before`. */
    method HighSpeedTrial(d: FrameDraws, ghost before: seq<Vehicle>, ghost plan: seq<Category>)
      requires FleetOk() && settings.playMode == AutoPlay && d.Valid()
      requires AppendedPlan(before, plan, d) && HighSpeedTrain !in plan
      modifies this`entities
      ensures FleetOk()
      ensures AppendedPlan(before, plan + HighSpeedPiece(before, d), d)
      ensures entities[..|old(entities)|] == old(entities)
      ensures forall k :: |old(entities)| <= k < |entities| ==> fresh(entities[k])
    {
      PlanKeepsAnyOf(before, plan, d, HighSpeedTrain);
      if d.shinkansenTrial < 0.005 { SpawnShinkansen(d.liveryPick); }
    }

    /** The category the commuter trial spawns, if any: a draw below 0.003 with the crossing
        OPEN and no commuter train in `before`. */
    function CommuterPiece(before: seq<Vehicle>, d: FrameDraws): seq<Category>
      reads this`crossing
    {
      if d.localTrial < 0.003 && crossing.state == Open && !AnyOf(before, CommuterTrain) then [CommuterTrain] else []
    }

    /** The category the high-speed trial spawns, if any: a draw below 0.005 with no high-speed
        train in `before`. */
    function HighSpeedPiece(before: seq<Vehicle>, d: FrameDraws): seq<Category>
    {
      if d.shinkansenTrial < 0.005 && !AnyOf(before, HighSpeedTrain) then [HighSpeedTrain] else []
    }

    /** The categories the frame's three trials spawn, in order: a road vehicle when the road draw
        succeeds, then the commuter and high-speed pieces, both judged on the entities alive
        before the frame's spawns. */
    function TrialPlan(before: seq<Vehicle>, d: FrameDraws): seq<Category>
      reads this`crossing
    {
      (if d.roadTrial < 0.012 then [RoadTraffic] else []) + CommuterPiece(before, d) + HighSpeedPiece(before, d)
    }

    /** Each trial contributes its category exactly when it succeeds, no category twice, the road
        vehicle first and the high-speed train last. */
    lemma TrialPlanCases(before: seq<Vehicle>, d: FrameDraws)
      ensures var plan := TrialPlan(before, d);
              && (RoadTraffic in plan <==> d.roadTrial < 0.012)
              && (CommuterTrain in plan <==> d.localTrial < 0.003 && crossing.state == Open && !AnyOf(before, CommuterTrain))
              && (HighSpeedTrain in plan <==> d.shinkansenTrial < 0.005 && !AnyOf(before, HighSpeedTrain))
              && (RoadTraffic in plan ==> plan[0] == RoadTraffic)
              && (HighSpeedTrain in plan ==> plan[|plan| - 1] == HighSpeedTrain)
              && forall i, j :: 0 <= i < j < |plan| ==> plan[i] != plan[j]
    {
    }

    /** `entities` is `before` followed by one vehicle per category of `plan`, each built from the
        draws of its trial. */
    ghost predicate AppendedPlan(before: seq<Vehicle>, plan: seq<Category>, d: FrameDraws)
      reads this, entities
    {
      && |entities| == |before| + |plan|
      && entities[..|before|] == before
      && forall k :: 0 <= k < |plan| ==>
           IsSpawn(entities[|before| + k], plan[k], d.PickFor(plan[k]), d.PaceFor(plan[k]))
    }

    /** Vehicles spawned by a plan without a capped category leave that category as alive or as
        absent as it was in `before`. */
    lemma PlanKeepsAnyOf(before: seq<Vehicle>, plan: seq<Category>, d: FrameDraws, c: Category)
      requires AppendedPlan(before, plan, d) && c != RoadTraffic && c !in plan
      ensures AnyOf(entities, c) == AnyOf(before, c)
    {
      var n := |before|;
      forall k | n <= k < |entities|
        ensures !InCategory(entities[k].kind, c)
      {
        var j := k - n;
        assert plan[j] in plan;
        assert IsSpawn(entities[n + j], plan[j], d.PickFor(plan[j]), d.PaceFor(plan[j]));
      }
      if AnyOf(entities, c) {
        var i :| 0 <= i < |entities| && InCategory(entities[i].kind, c);
        assert i < n && entities[i] == before[i];
      }
      if AnyOf(before, c) {
        var i :| 0 <= i < n && InCategory(before[i].kind, c);
        assert entities[i] == before[i];
      }
    }

    /** The auto-mode spawn trials of a frame, in order: the road trial, the commuter trial and
        the high-speed trial. The caps look at the entities alive before the frame's spawns, since
        a road vehicle is in neither capped category and a commuter train is not a high-speed one. */
    method SpawnTraffic(d: FrameDraws)
      requires FleetOk() && settings.playMode == AutoPlay && d.Valid()
      modifies this`entities
      ensures FleetOk()
      ensures AppendedPlan(old(entities), TrialPlan(old(entities), d), d)
      ensures forall k :: |old(entities)| <= k < |entities| ==> fresh(entities[k])
    {
      ghost var n := |entities|;
      ghost var p1: seq<Category> := if d.roadTrial < 0.012 then [RoadTraffic] else [];
      RoadTrial(d);
      ghost var e1 := entities;
      CommuterTrial(d, old(entities), p1);
      ghost var e2 := entities;
      HighSpeedTrial(d, old(entities), p1 + CommuterPiece(old(entities), d));
      forall k | n <= k < |entities|
        ensures fresh(entities[k])
      {
        if k < |e1| {
          assert entities[k] == e1[k];
        } else if k < |e2| {
          assert entities[k] == e2[k];
        }
      }
    }

    /** The traffic part of a frame: in auto mode the spawns and the crossing, then in every
        mode the vehicles. */
    method StepTraffic(d: FrameDraws)
      requires ControlOk() && FleetOk() && d.Valid()
      modifies this`entities, this`crossing, entities
      ensures ControlOk() && FleetOk() && SortedByY(entities)
      ensures settings.playMode == TapPlay ==> crossing == old(crossing)
      ensures crossing.x == old(crossing).x
      ensures settings.playMode == AutoPlay ==> exists gateX :: crossing == Crossing.Next(old(crossing), gateX, frameCount)
      ensures forall e :: e in entities ==> e in old(entities) || fresh(e)
      ensures forall e :: e in entities ==> e.x <= width + 1000.0
    {
      if settings.playMode == AutoPlay {
        SpawnTraffic(d);
        ghost var gateX := GateTrainX(entities);
        StepCrossing();
        assert crossing == Crossing.Next(old(crossing), gateX, frameCount);
      }
      StepFleet(d.bob);
    }

    /** The traffic stage seen from the whole engine: every part of the invariant that the
        stage does not touch survives it. */
    method TrafficStage(d: FrameDraws)
      requires Valid() && d.Valid()
      modifies this`entities, this`crossing, entities
      ensures Valid() && SortedByY(entities)
      ensures settings.playMode == TapPlay ==> crossing == old(crossing)
      ensures forall e :: e in entities ==> e in old(entities) || fresh(e)
      ensures forall e :: e in entities ==> e.x <= width + 1000.0
    {
      StepTraffic(d);
    }

    /** One frame (engine.ts:156-194). */
    method Update(d: FrameDraws)
      requires Valid() && d.Valid()
      modifies this, entities, particles, clouds, weatherParticles
      ensures Valid()
      ensures frameCount == old(frameCount) + 1 && settings == old(settings)
      ensures width == old(width) && height == old(height)
      ensures env == Environment.EnvNext(old(env), settings, frameCount, d.curve, d.weatherRoll)
      ensures settings.playMode == TapPlay ==> crossing == old(crossing)
      ensures SortedByY(entities)
      ensures forall e :: e in entities ==> e in old(entities) || fresh(e)
      ensures forall e :: e in entities ==> e.x <= width + 1000.0
      ensures forall p :: p in weatherParticles ==> p.y < height + 50.0
      ensures |clouds| == if |old(clouds)| < 5 then |old(clouds)| + 1 else |old(clouds)|
      ensures forall c :: c in clouds ==> c.x <= width + 150.0
    {
      StepSky(d);
      StepWeatherParticles(d.snowSway);
      TrafficStage(d);
      StepParticles();
    }
  }
}
