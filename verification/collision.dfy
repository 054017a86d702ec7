/** The collision test: axis-aligned overlap of the player's rectangle with
    the ceiling, the ground line and every pipe. */
module Collision {
  import opened Config
  import opened Pipes

  /** The player's rectangle reaches into the ground strip or above the top
      edge of the screen. */
  predicate OutOfBounds(y: real, height: nat) {
    y + PlayerHeight > (height - GroundHeight) as real || y < 0.0
  }

  /** The player's horizontal span overlaps the pipe's. */
  predicate OverlapsHorizontally(p: Pipe) {
    PlayerX + PlayerWidth > p.x && PlayerX < p.x + PipeWidth
  }

  /** The player's top edge is above the end of the top segment, or its
      bottom edge is below the start of the bottom segment. */
  predicate OutsideOpening(y: real, p: Pipe) {
    y < p.topHeight as real || y + PlayerHeight > p.bottomY as real
  }

  predicate HitsPipe(y: real, p: Pipe) {
    OverlapsHorizontally(p) && OutsideOpening(y, p)
  }

  /** The player at height `y` collides with the screen bounds or with some
      pipe. */
  predicate Collides(y: real, pipes: seq<Pipe>, height: nat) {
    || OutOfBounds(y, height)
    || exists k :: 0 <= k < |pipes| && HitsPipe(y, pipes[k])
  }

  /** The game's collision check: bounds first, then the pipes in order,
      stopping at the first one hit. */
  method CheckCollision(y: real, pipes: seq<Pipe>, height: nat) returns (hit: bool)
    ensures hit <==> Collides(y, pipes, height)
    ensures OutOfBounds(y, height) ==> hit
    ensures !hit ==> forall k :: 0 <= k < |pipes| ==> !HitsPipe(y, pipes[k])
  {
    if y + PlayerHeight > (height - GroundHeight) as real || y < 0.0 {
      return true;
    }
    var i := 0;
    while i < |pipes|
      invariant 0 <= i <= |pipes|
      invariant forall k :: 0 <= k < i ==> !HitsPipe(y, pipes[k])
    {
      var pipe := pipes[i];
      if PlayerX + PlayerWidth > pipe.x && PlayerX < pipe.x + PipeWidth {
        if y < pipe.topHeight as real || y + PlayerHeight > pipe.bottomY as real {
          return true;
        }
      }
      i := i + 1;
    }
    return false;
  }

  /** A pipe whose span does not overlap the player's can be added anywhere
      without changing the outcome. */
  lemma DistantPipeIrrelevant(y: real, before: seq<Pipe>, p: Pipe, after: seq<Pipe>, height: nat)
    requires !OverlapsHorizontally(p)
    ensures Collides(y, before + [p] + after, height) == Collides(y, before + after, height)
  {
    var all := before + [p] + after;
    var rest := before + after;
    if exists k :: 0 <= k < |all| && HitsPipe(y, all[k]) {
      var k :| 0 <= k < |all| && HitsPipe(y, all[k]);
      if k < |before| {
        assert rest[k] == all[k];
      } else {
        assert k > |before|;
        assert rest[k - 1] == all[k];
      }
    }
    if exists k :: 0 <= k < |rest| && HitsPipe(y, rest[k]) {
      var k :| 0 <= k < |rest| && HitsPipe(y, rest[k]);
      if k < |before| {
        assert all[k] == rest[k];
      } else {
        assert all[k + 1] == rest[k];
      }
    }
  }
}
