/** Choosing the default log level from the number of `-v` flags.

    The verbosity count is clamped into the range of valid positions of the
    five level names, most severe first, and the name at that position
    becomes the default log filter. */
module Logger {

  /** Rust's `u8`: the verbosity count is stored in one byte. */
  newtype u8 = x: int | 0 <= x < 256

  /** The level names, from least to most verbose. */
  const LogLevels: seq<string> := ["error", "warn", "info", "debug", "trace"]

  /** `x` moved into the range from `min` to `max`. */
  function Clamp(x: nat, min: nat, max: nat): (r: nat)
    ensures min <= max ==> min <= r <= max
  {
    if x < min then min
    else if x > max then max
    else x
  }

  /** The distance between two naturals. */
  function Dist(a: nat, b: nat): nat {
    if a <= b then b - a else a - b
  }

  /** The three branches: below the range gives `min`, above it (and not
      below) gives `max`, anything else comes back unchanged. */
  lemma ClampCases(x: nat, min: nat, max: nat)
    ensures x < min ==> Clamp(x, min, max) == min
    ensures min <= x && max < x ==> Clamp(x, min, max) == max
    ensures min <= x <= max ==> Clamp(x, min, max) == x
  {
  }

  /** Clamping a value that is already clamped changes nothing. */
  lemma ClampIdempotent(x: nat, min: nat, max: nat)
    requires min <= max
    ensures Clamp(Clamp(x, min, max), min, max) == Clamp(x, min, max)
  {
  }

  /** Clamping never moves a smaller value above a larger one. */
  lemma ClampMonotone(x: nat, y: nat, min: nat, max: nat)
    requires min <= max && x <= y
    ensures Clamp(x, min, max) <= Clamp(y, min, max)
  {
  }

  /** With a non-empty range, `Clamp` picks the point of the range nearest
      to `x`, and that point is the only one that near: the clamp is the
      projection of `x` onto the range. */
  lemma ClampIsNearestPoint(x: nat, min: nat, max: nat, y: nat)
    requires min <= max && min <= y <= max
    ensures Dist(Clamp(x, min, max), x) <= Dist(y, x)
    ensures Dist(y, x) <= Dist(Clamp(x, min, max), x) ==> y == Clamp(x, min, max)
  {
  }

  /** The position in `LogLevels` chosen for a verbosity count. */
  function LevelIndex(verbosity: u8): (i: nat)
    ensures i < |LogLevels|
    ensures verbosity as int < |LogLevels| ==> i == verbosity as int
    ensures |LogLevels| <= verbosity as int ==> i == |LogLevels| - 1
  {
    Clamp(verbosity as nat, 0, |LogLevels| - 1)
  }

  /** The default log filter for a verbosity count. */
  function DefaultLevel(verbosity: u8): (name: string)
    ensures name in LogLevels
  {
    LogLevels[LevelIndex(verbosity)]
  }

  /** Each count from 0 to 3 selects its own level; 4 and above select
      `trace`. */
  lemma DefaultLevelNames(verbosity: u8)
    ensures verbosity == 0 ==> DefaultLevel(verbosity) == "error"
    ensures verbosity == 1 ==> DefaultLevel(verbosity) == "warn"
    ensures verbosity == 2 ==> DefaultLevel(verbosity) == "info"
    ensures verbosity == 3 ==> DefaultLevel(verbosity) == "debug"
    ensures verbosity >= 4 ==> DefaultLevel(verbosity) == "trace"
  {
  }

  /** More `-v` flags never select a less verbose level. */
  lemma LevelIndexMonotone(v1: u8, v2: u8)
    requires v1 <= v2
    ensures LevelIndex(v1) <= LevelIndex(v2)
  {
  }

  /** One more `-v` flag raises the level by exactly one step, until `trace`
      is reached, where it stays. */
  lemma LevelIndexStep(v: u8)
    requires v < 255
    ensures LevelIndex(v + 1) == if LevelIndex(v) < |LogLevels| - 1 then LevelIndex(v) + 1 else LevelIndex(v)
  {
  }
}
