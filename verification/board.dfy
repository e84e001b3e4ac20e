/** The playing field: its size, the game constants, and the numeric rules
    for keeping a point on the board and for picking up a coin
    (world/server.js, lines 22-24, 111, 119-120 and 126-129). */
module Board {

  const GAME_WIDTH: real := 800.0
  const GAME_HEIGHT: real := 600.0
  const MAX_COINS: nat := 10
  /** The largest velocity a move message may ask for. */
  const VELOCITY_CAP: real := 20.0
  /** A coin is collected when the player is closer than this. */
  const COLLECT_RADIUS: real := 15.0

  function Min(a: real, b: real): real { if a <= b then a else b }

  function Max(a: real, b: real): real { if a >= b then a else b }

  /** Distance between two coordinates on one axis. */
  function Gap(a: real, b: real): (d: real)
    ensures d >= 0.0 && (d == a - b || d == b - a)
  {
    if a >= b then a - b else b - a
  }

  /** A factor in `[-1, 1]` never stretches a non-negative length. */
  lemma UnitScale(a: real, c: real)
    requires -1.0 <= a <= 1.0 && 0.0 <= c
    ensures -c <= a * c <= c
  {
    assert (1.0 - a) * c >= 0.0;
    assert (1.0 + a) * c >= 0.0;
  }

  /** `Math.max(lo, Math.min(hi, v))`. */
  function Clamp(lo: real, hi: real, v: real): (r: real)
    requires lo <= hi
    ensures lo <= r <= hi
    ensures lo <= v <= hi ==> r == v
    ensures v < lo ==> r == lo
    ensures hi < v ==> r == hi
  {
    Max(lo, Min(hi, v))
  }

  /** A point inside `[0, GAME_WIDTH] x [0, GAME_HEIGHT]`, borders included. */
  predicate OnBoard(x: real, y: real) {
    0.0 <= x <= GAME_WIDTH && 0.0 <= y <= GAME_HEIGHT
  }

  /** Squared Euclidean distance between two points. */
  function DistSq(px: real, py: real, qx: real, qy: real): real {
    (px - qx) * (px - qx) + (py - qy) * (py - qy)
  }

  /** `Math.sqrt(dx*dx + dy*dy) < 15`, compared on squares: the square root is
      monotone on non-negative reals and both sides are non-negative. */
  predicate WithinReach(px: real, py: real, qx: real, qy: real) {
    DistSq(px, py, qx, qy) < COLLECT_RADIUS * COLLECT_RADIUS
  }

  /** `Math.random() * GAME_WIDTH`, given the random draw `r` in `[0, 1)`. */
  function RandomX(r: real): (x: real)
    requires 0.0 <= r < 1.0
    ensures 0.0 <= x < GAME_WIDTH
  {
    r * GAME_WIDTH
  }

  /** `Math.random() * GAME_HEIGHT`, given the random draw `r` in `[0, 1)`. */
  function RandomY(r: real): (y: real)
    requires 0.0 <= r < 1.0
    ensures 0.0 <= y < GAME_HEIGHT
  {
    r * GAME_HEIGHT
  }

  /** Clamping a coordinate that starts inside `[lo, hi]` never moves it further
      than the unclamped step `d` would have. */
  lemma ClampShortensStep(lo: real, hi: real, start: real, d: real, bound: real)
    requires lo <= start <= hi
    requires -bound <= d <= bound
    ensures Gap(Clamp(lo, hi, start + d), start) <= bound
  {
  }
}
