/** Time of day and weather (game/engine.ts:125-154): what one frame does to the
    environment record, and how many rain or snow particles it adds. */
module Environment {
  import opened Types

  /** The night intensity one frame later. `curve` stands for the automatic day curve
      `Math.pow(Math.sin(Math.PI * time), 2)`, which lies in [0, 1]. */
  function NightStep(mode: TimeMode, nightIntensity: real, curve: real): real {
    match mode
    case AutoTime => curve
    case Day => Max(0.0, nightIntensity - 0.02)
    case Night => Min(1.0, nightIntensity + 0.02)
  }

  /** The time-of-day half of a frame (engine.ts:126-134). */
  function TimeStep(env: EnvState, mode: TimeMode, frameCount: int, curve: real): EnvState
    requires env.cycleDuration > 0
  {
    var time := if mode == AutoTime then (frameCount % env.cycleDuration) as real / env.cycleDuration as real else env.time;
    var n := NightStep(mode, env.nightIntensity, curve);
    env.(time := time, nightIntensity := n, isNight := n > 0.3)
  }

  /** The automatic weather roll: clear below 0.5, rain below 0.8, snow otherwise. */
  function RollWeather(r: real): WeatherMode {
    if r < 0.5 then Clear else if r < 0.8 then Rain else Snow
  }

  /** The automatic weather timer runs out this frame: the weather is rolled again and the
      particles in flight are thrown away. */
  predicate Rerolls(env: EnvState, mode: WeatherMode) {
    mode == AutoWeather && env.weatherTimer + 1 > 1200
  }

  /** The weather half of a frame (engine.ts:136-148). */
  function WeatherStep(env: EnvState, mode: WeatherMode, roll: real): EnvState {
    if mode == AutoWeather then
      if env.weatherTimer + 1 > 1200 then env.(weatherTimer := 0, weather := RollWeather(roll))
      else env.(weatherTimer := env.weatherTimer + 1)
    else env.(weather := mode)
  }

  /** One frame of the environment under the given settings. */
  function EnvNext(env: EnvState, settings: Settings, frameCount: int, curve: real, roll: real): EnvState
    requires env.cycleDuration > 0
  {
    WeatherStep(TimeStep(env, settings.timeMode, frameCount, curve), settings.weatherMode, roll)
  }

  /** How many weather particles a frame adds (engine.ts:150-153). */
  function ParticlesPerFrame(w: WeatherMode): (n: nat)
    ensures w == Rain ==> n == 5
    ensures w == Snow ==> n == 2
    ensures w == Clear ==> n == 0
  {
    if w != Clear then (if w == Rain then 5 else 2) else 0
  }

  /** The environment between frames: a 3600-frame day, the time of day in [0, 1), night
      intensity in [0, 1] with "night" meaning above 0.3, an actual weather (never "auto"), and
      the weather timer within [0, 1200]. */
  predicate Inv(env: EnvState) {
    && env.cycleDuration == 3600
    && 0.0 <= env.time < 1.0
    && 0.0 <= env.nightIntensity <= 1.0
    && (env.isNight <==> env.nightIntensity > 0.3)
    && env.weather != AutoWeather
    && 0 <= env.weatherTimer <= 1200
  }

  /** The environment the engine starts with. */
  function Initial(): (env: EnvState)
    ensures Inv(env) && env.weather == Clear && env.nightIntensity == 0.0 && !env.isNight
  {
    EnvState(0.0, 3600, false, 0.0, Clear, 0)
  }

  /** Every frame keeps the invariant, whatever the settings. */
  lemma EnvNextKeepsInv(env: EnvState, settings: Settings, frameCount: int, curve: real, roll: real)
    requires Inv(env) && 0.0 <= curve <= 1.0 && frameCount >= 0
    ensures Inv(EnvNext(env, settings, frameCount, curve, roll))
  {
    var cd := env.cycleDuration;
    var m := frameCount % cd;
    assert 0 <= m < cd;
    assert (m as real) / (cd as real) < 1.0 by {
      assert (m as real) < (cd as real);
    }
  }

  /** Manual day lowers the night intensity by 0.02 a frame down to 0, manual night raises it by
      0.02 up to 1, and "night" is always intensity above 0.3. */
  lemma ManualNightRamp(env: EnvState, settings: Settings, frameCount: int, curve: real, roll: real)
    requires Inv(env)
    ensures var e := EnvNext(env, settings, frameCount, curve, roll);
            && (settings.timeMode == Day ==> e.nightIntensity == Max(0.0, env.nightIntensity - 0.02) && e.nightIntensity <= env.nightIntensity)
            && (settings.timeMode == Night ==> e.nightIntensity == Min(1.0, env.nightIntensity + 0.02) && e.nightIntensity >= env.nightIntensity)
            && (settings.timeMode != AutoTime ==> e.time == env.time)
            && (e.isNight <==> e.nightIntensity > 0.3)
  {
  }

  /** The night intensity after `n` frames of one time mode with the automatic curve at `curve`. */
  function NightAfter(mode: TimeMode, nightIntensity: real, curve: real, n: nat): real
  {
    if n == 0 then nightIntensity else NightStep(mode, NightAfter(mode, nightIntensity, curve, n - 1), curve)
  }

  /** In manual day mode the night intensity after n frames is exactly max(0, start - 0.02 n). */
  lemma {:induction false} DayRampAfter(nightIntensity: real, curve: real, n: nat)
    requires 0.0 <= nightIntensity
    ensures NightAfter(Day, nightIntensity, curve, n) == Max(0.0, nightIntensity - 0.02 * (n as real))
  {
    if n > 0 {
      DayRampAfter(nightIntensity, curve, n - 1);
    }
  }

  /** In manual night mode the night intensity after n frames is exactly min(1, start + 0.02 n). */
  lemma {:induction false} NightRampAfter(nightIntensity: real, curve: real, n: nat)
    requires nightIntensity <= 1.0
    ensures NightAfter(Night, nightIntensity, curve, n) == Min(1.0, nightIntensity + 0.02 * (n as real))
  {
    if n > 0 {
      NightRampAfter(nightIntensity, curve, n - 1);
    }
  }

  /** Fifty frames of manual day take any night to full day, fifty of manual night any day to full night. */
  lemma FiftyFramesSuffice(nightIntensity: real, curve: real, n: nat)
    requires 0.0 <= nightIntensity <= 1.0 && n >= 50
    ensures NightAfter(Day, nightIntensity, curve, n) == 0.0
    ensures NightAfter(Night, nightIntensity, curve, n) == 1.0
  {
    DayRampAfter(nightIntensity, curve, n);
    NightRampAfter(nightIntensity, curve, n);
  }

  /** A non-automatic weather mode is the weather every frame and leaves the timer alone. */
  lemma ManualWeatherPinned(env: EnvState, settings: Settings, frameCount: int, curve: real, roll: real)
    requires Inv(env) && settings.weatherMode != AutoWeather
    ensures var e := EnvNext(env, settings, frameCount, curve, roll);
            e.weather == settings.weatherMode && e.weatherTimer == env.weatherTimer
            && !Rerolls(env, settings.weatherMode)
  {
  }

  /** Automatic weather counts frames and rolls the weather again, resetting its timer to 0,
      exactly in the frame that takes the timer past 1200; otherwise the weather stays. */
  lemma AutoWeatherTimer(env: EnvState, settings: Settings, frameCount: int, curve: real, roll: real)
    requires Inv(env) && settings.weatherMode == AutoWeather
    ensures var e := EnvNext(env, settings, frameCount, curve, roll);
            && (Rerolls(env, AutoWeather) <==> env.weatherTimer == 1200)
            && (Rerolls(env, AutoWeather) ==> e.weatherTimer == 0 && e.weather == RollWeather(roll))
            && (!Rerolls(env, AutoWeather) ==> e.weatherTimer == env.weatherTimer + 1 && e.weather == env.weather)
  {
  }

  /** The roll picks clear for half of [0, 1), rain for the next 0.3 and snow for the last 0.2. */
  lemma RollThresholds(r: real)
    requires Unit(r)
    ensures RollWeather(r) == Clear <==> r < 0.5
    ensures RollWeather(r) == Rain <==> 0.5 <= r < 0.8
    ensures RollWeather(r) == Snow <==> 0.8 <= r
  {
  }
}
