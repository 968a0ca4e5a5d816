/** The enumerations and plain records shared by the engine and the entities
    (types.ts), plus two small helpers used throughout the model. */
module Types {

  datatype PlayMode = AutoPlay | TapPlay
  datatype TimeMode = AutoTime | Day | Night
  datatype WeatherMode = AutoWeather | Clear | Rain | Snow

  /** The settings object the UI hands to the engine. */
  datatype Settings = Settings(playMode: PlayMode, timeMode: TimeMode, weatherMode: WeatherMode)

  /** Time of day and weather; `weather` is only ever Clear, Rain or Snow. */
  datatype EnvState = EnvState(
    time: real,
    cycleDuration: int,
    isNight: bool,
    nightIntensity: real,
    weather: WeatherMode,
    weatherTimer: int)

  /** The barrier phases of the level crossing. */
  datatype Phase = Open | Warning | Closing | Closed | Opening

  /** The level crossing: phase, warning countdown, barrier angle, its fixed x and the alarm lamp. */
  datatype CrossingState = CrossingState(state: Phase, timer: int, angle: real, x: real, isAlarmOn: bool)

  /** The raised (open) barrier angle, `-Math.PI / 2`, written as the shortest decimal that rounds
      to the double the source computes; the model uses this exact decimal. */
  const OPEN_ANGLE: real := -1.5707963267948966

  datatype Option<T> = None | Some(value: T)

  /** A value `Math.random()` can return. */
  predicate Unit(r: real) { 0.0 <= r < 1.0 }

  function Max(a: real, b: real): (m: real)
    ensures m >= a && m >= b && (m == a || m == b)
  {
    if a >= b then a else b
  }

  function Min(a: real, b: real): (m: real)
    ensures m <= a && m <= b && (m == a || m == b)
  {
    if a <= b then a else b
  }

  /** No object occurs twice in a collection: the engine never shares an entity. */
  predicate Distinct<T(==)>(s: seq<T>) {
    forall i, j :: 0 <= i < j < |s| ==> s[i] != s[j]
  }

  lemma {:induction false} DistinctCountAtMostOne<T>(s: seq<T>, x: T)
    requires Distinct(s)
    ensures multiset(s)[x] <= 1
  {
    if s != [] {
      assert s == [s[0]] + s[1..];
      assert Distinct(s[1..]) by {
        forall i, j | 0 <= i < j < |s[1..]| ensures s[1..][i] != s[1..][j] {
          assert s[1..][i] == s[i + 1] && s[1..][j] == s[j + 1];
        }
      }
      DistinctCountAtMostOne(s[1..], x);
      if x == s[0] {
        assert x !in s[1..] by {
          forall k | 0 <= k < |s[1..]| ensures s[1..][k] != x {
            assert s[1..][k] == s[k + 1];
          }
        }
      }
    }
  }

  /** Appending an object not yet present keeps a collection free of duplicates. */
  lemma DistinctAppend<T>(s: seq<T>, x: T)
    requires Distinct(s) && x !in s
    ensures Distinct(s + [x])
  {
  }

  /** Dropping and reordering objects (a filter, a sort) keeps a collection free of duplicates. */
  lemma DistinctSubMultiset<T>(s: seq<T>, r: seq<T>)
    requires Distinct(s) && multiset(r) <= multiset(s)
    ensures Distinct(r)
  {
    forall i, j | 0 <= i < j < |r| ensures r[i] != r[j] {
      if r[i] == r[j] {
        assert r == r[..j] + [r[j]] + r[j + 1..];
        assert r[i] in r[..j];
        assert multiset(r)[r[i]] >= 2;
        DistinctCountAtMostOne(s, r[i]);
        assert false;
      }
    }
  }
}
