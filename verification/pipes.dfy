/** Pipes (the obstacles) and how a new one is spawned at the right edge of
    the screen with a randomly placed opening. */
module Pipes {
  import opened Config

  /** One obstacle: a top segment from `topY` down `topHeight` pixels, and a
      bottom segment from `bottomY` down `bottomHeight` pixels, both
      `PipeWidth` wide at horizontal position `x`. `passed` records that the
      player has already scored this pipe. */
  datatype Pipe = Pipe(
    x: real,
    topY: int,
    topHeight: int,
    bottomY: int,
    bottomHeight: int,
    passed: bool)

  /** Largest top-segment height the spawn range is built from. */
  function MaxTopHeight(height: nat): int {
    height - Gap - FloorMargin
  }

  /** Number of distinct top heights the random draw ranges over. It is at
      least one exactly when the screen is at least 350 pixels high. */
  function DrawRange(height: nat): int {
    MaxTopHeight(height) - MinSegment + 1
  }

  /** The random draw scaled to `n` values and rounded down. For a positive
      `n` it picks one of 0 .. n-1; for a non-positive `n` (a screen too small
      for the range) it lands in n .. 0. */
  function ScaledDraw(roll: Roll, n: int): (k: int)
    ensures n >= 1 ==> 0 <= k < n
    ensures n < 1 ==> n <= k <= 0
  {
    var v := roll * (n as real);
    ScaledRollBounds(roll, n as real);
    v.Floor
  }

  /** Scaling a draw in [0, 1) by `n` stays in [0, n) for a positive `n`
      and in [n, 0] otherwise. */
  lemma ScaledRollBounds(roll: real, n: real)
    requires 0.0 <= roll < 1.0
    ensures n > 0.0 ==> 0.0 <= roll * n < n
    ensures n <= 0.0 ==> n <= roll * n <= 0.0
  {
    var rest := 1.0 - roll;
    assert roll * n + rest * n == n;
    if n > 0.0 {
      assert rest * n > 0.0;
      assert roll * n >= 0.0;
    } else {
      assert rest * n <= 0.0;
      assert roll * n <= 0.0;
    }
  }

  /** Height of the top segment of a pipe spawned with the given draw. */
  function TopHeight(height: nat, roll: Roll): (t: int)
    ensures DrawRange(height) >= 1 ==> MinSegment <= t <= MaxTopHeight(height)
    ensures DrawRange(height) < 1 ==> MaxTopHeight(height) + 1 <= t <= MinSegment
  {
    ScaledDraw(roll, DrawRange(height)) + MinSegment
  }

  /** Height of the bottom segment: what is left below the opening, clamped
      first from above to the ground line and then from below to the
      minimum segment height. */
  function BottomHeight(height: nat, top: int): (b: int)
    ensures b >= MinSegment
    ensures height >= GroundHeight + MinSegment ==> b <= height - GroundHeight
    ensures height < GroundHeight + MinSegment ==> b == MinSegment
    ensures MinSegment <= height - top - Gap <= height - GroundHeight ==> b == height - top - Gap
    ensures height - top - Gap < MinSegment ==> b == MinSegment
    ensures (height - top - Gap > height - GroundHeight && height >= GroundHeight + MinSegment) ==>
              b == height - GroundHeight
  {
    var raw := height - top - Gap;
    var capped := if raw > height - GroundHeight then height - GroundHeight else raw;
    if capped < MinSegment then MinSegment else capped
  }

  /** The shape every spawned pipe has on a screen of the given height:
      the top segment starts at the top edge, the bottom segment sits on the
      bottom edge and is clamped into [50, height - 100]; on a screen tall
      enough for the draw range the top height lies in its range and the
      opening is exactly `Gap`. */
  predicate WellShaped(p: Pipe, height: nat) {
    && p.topY == 0
    && p.bottomY == height - p.bottomHeight
    && p.bottomHeight >= MinSegment
    && (height >= GroundHeight + MinSegment ==> p.bottomHeight <= height - GroundHeight)
    && (DrawRange(height) >= 1 ==>
          && MinSegment <= p.topHeight <= MaxTopHeight(height)
          && p.bottomY - p.topHeight == Gap)
  }

  /** The pipe spawned at the right edge of the screen. */
  function NewPipe(screen: Screen, roll: Roll): (p: Pipe)
    ensures p.x == screen.width as real && !p.passed
    ensures WellShaped(p, screen.height)
  {
    var top := TopHeight(screen.height, roll);
    var bottom := BottomHeight(screen.height, top);
    Pipe(screen.width as real, 0, top, screen.height - bottom, bottom, false)
  }

  /** Appends one freshly spawned pipe and leaves the earlier ones as they
      were. */
  function SpawnPipe(pipes: seq<Pipe>, screen: Screen, roll: Roll): (r: seq<Pipe>)
    ensures |r| == |pipes| + 1
    ensures r[..|pipes|] == pipes
    ensures r[|pipes|].x == screen.width as real
    ensures r[|pipes|].topY == 0 && !r[|pipes|].passed
    ensures r[|pipes|].bottomY == screen.height - r[|pipes|].bottomHeight
    ensures WellShaped(r[|pipes|], screen.height)
  {
    pipes + [NewPipe(screen, roll)]
  }

  /** Every top height of the range can be drawn: the draw covers the whole
      range [50, height - 300], not only part of it. */
  lemma TopHeightReachable(height: nat, t: int)
    requires DrawRange(height) >= 1
    requires MinSegment <= t <= MaxTopHeight(height)
    ensures exists roll: Roll :: TopHeight(height, roll) == t
  {
    var n := DrawRange(height);
    var k := t - MinSegment;
    var roll: real := (k as real) / (n as real);
    assert 0.0 <= roll < 1.0;
    assert roll * (n as real) == k as real;
    assert (k as real).Floor == k;
    assert TopHeight(height, roll) == t;
  }

  /** On a screen at least 350 pixels high no clamping ever happens: the
      bottom segment is exactly what lies below the opening. */
  lemma SpawnNeverClampsOnTallScreen(screen: Screen, roll: Roll)
    requires DrawRange(screen.height) >= 1
    ensures NewPipe(screen, roll).bottomHeight
              == screen.height - NewPipe(screen, roll).topHeight - Gap
    ensures NewPipe(screen, roll).bottomY - NewPipe(screen, roll).topHeight == Gap
  {
  }
}
