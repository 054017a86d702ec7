/** Fixed tuning values of the game, the screen it is played on, and the
    random draw used when a pipe is spawned. Screen sizes are whole pixels
    (a canvas has integer width and height); positions and speeds are exact
    reals. */
module Config {

  /** The player's fixed horizontal position and the size of its sprite. */
  const PlayerX: real := 80.0
  const PlayerWidth: real := 80.0
  const PlayerHeight: real := 60.0

  /** Width of every pipe and the configured vertical opening between its
      top and bottom segments. */
  const PipeWidth: real := 40.0
  const Gap: int := 150

  /** Horizontal pipe speed at the start of a game, and what each scored
      pipe adds to it. */
  const BaseSpeed: real := 1.5
  const SpeedStep: real := 0.1

  /** Per-tick vertical acceleration, and the velocity a jump sets. */
  const Gravity: real := 0.3
  const JumpStrength: real := -6.0

  /** Height of the ground strip at the bottom of the screen, which the
      player may not enter. */
  const GroundHeight: int := 100

  /** Smallest segment height a spawn produces, and the margin kept below
      the lowest possible opening. */
  const MinSegment: int := 50
  const FloorMargin: int := 150

  /** A new pipe is spawned once the newest one is this far from the right
      edge of the screen. */
  const SpawnDistance: int := 200

  /** The visible canvas, read by the game on every tick. */
  datatype Screen = Screen(width: nat, height: nat)

  /** A value of the host's uniform random source: a real in [0, 1). */
  type Roll = r: real | 0.0 <= r < 1.0
}
