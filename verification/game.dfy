/** The game's world and its three transitions: reset, jump and the
    per-frame update. Drawing, sound and overlays are left to the host. */
module Game {
  import opened Config
  import opened Pipes
  import opened Collision
  import opened Scroll

  /** Everything the game loop changes: the player's vertical position and
      velocity, the pipes in spawn order, the score, the pipe speed, and
      whether the game has started and whether it is over. */
  datatype World = World(
    y: real,
    vy: real,
    pipes: seq<Pipe>,
    score: nat,
    speed: real,
    started: bool,
    over: bool)

  /** A fresh game: the player centred vertically and at rest, no pipes, no
      score, base speed, neither started nor over. */
  function Reset(height: nat): (r: World)
    ensures r.y == (height as real) / 2.0 && r.vy == 0.0
    ensures r.pipes == [] && r.score == 0 && r.speed == BaseSpeed
    ensures !r.started && !r.over
    ensures WellFormed(r, height)
  {
    World((height as real) / 2.0, 0.0, [], 0, BaseSpeed, false, false)
  }

  /** A jump is ignored once the game is over; otherwise it starts the game
      if needed and sets the velocity to the jump strength. */
  function Jump(w: World): (r: World)
    ensures w.over ==> r == w
    ensures !w.over ==> r.started && r.vy == JumpStrength
    ensures w.started ==> r.started
    ensures && r.y == w.y && r.pipes == w.pipes && r.score == w.score
            && r.speed == w.speed && r.over == w.over
  {
    if w.over then w
    else w.(started := true, vy := JumpStrength)
  }

  /** A new pipe is due when there is none, or the newest one has moved more
      than the spawn distance away from the right edge. A pipe spawned when
      due therefore starts more than the spawn distance right of the newest
      one, and when none is due there is a pipe already. */
  function ShouldSpawn(pipes: seq<Pipe>, width: nat): (due: bool)
    ensures due && |pipes| > 0 ==>
              (width as real) - pipes[|pipes| - 1].x > SpawnDistance as real
    ensures !due ==> |pipes| > 0
    ensures |pipes| > 0 && (width as real) - pipes[|pipes| - 1].x > SpawnDistance as real ==> due
  {
    |pipes| == 0 || pipes[|pipes| - 1].x < (width - SpawnDistance) as real
  }

  /** The motion of a started game in one frame: gravity, the pipe sweep,
      and possibly one new pipe. */
  function Fly(w: World, screen: Screen, roll: Roll): (r: World)
    ensures |r.pipes| > 0
    ensures r.started == w.started && r.over == w.over
    ensures r.score >= w.score
    ensures r.speed == w.speed + SpeedStep * ((r.score - w.score) as real)
  {
    var vy := w.vy + Gravity;
    var swept := SweepPipes(w.pipes, w.speed, w.score);
    var pipes := if ShouldSpawn(swept.kept, screen.width)
                 then SpawnPipe(swept.kept, screen, roll)
                 else swept.kept;
    w.(y := w.y + vy, vy := vy, pipes := pipes, score := swept.score, speed := swept.speed)
  }

  /** One animation frame. A finished game is left alone. A started game
      moves; a game not yet started stays where it is. Either way the
      collision test then decides whether the game is over. */
  function Update(w: World, screen: Screen, roll: Roll): (r: World)
    ensures w.over ==> r == w
    ensures r.started == w.started
    ensures r.over <==> w.over || Collides(r.y, r.pipes, screen.height)
    ensures !w.over && !w.started ==>
              && r.y == w.y && r.vy == w.vy && r.pipes == w.pipes
              && r.score == w.score && r.speed == w.speed
    ensures !w.over && w.started ==>
              && |r.pipes| > 0
              && r.vy == w.vy + Gravity
              && r.y == w.y + r.vy
    ensures r.score >= w.score
    ensures r.speed == w.speed + SpeedStep * ((r.score - w.score) as real)
  {
    if w.over then w
    else
      var moved := if w.started then Fly(w, screen, roll) else w;
      moved.(over := Collides(moved.y, moved.pipes, screen.height))
  }

  /** What holds of every world reachable from a reset on a screen of the
      given height: the speed is the base speed plus one step per point
      scored, and every pipe has its spawned shape. */
  predicate WellFormed(w: World, height: nat) {
    && w.speed == BaseSpeed + SpeedStep * (w.score as real)
    && forall i :: 0 <= i < |w.pipes| ==> WellShaped(w.pipes[i], height)
  }

  /** A started frame in terms of the reference sweep: the score rises by
      the number of pipes that went from not passed to passed, the speed by
      one step for each, the pipes are the moved survivors in order,
      followed by one new pipe exactly when the spawn rule asks for it. */
  lemma StartedUpdateScoring(w: World, screen: Screen, roll: Roll)
    requires !w.over && w.started
    ensures var marked := MoveAndMark(w.pipes, w.speed);
            var n := NewlyPassed(w.pipes, marked);
            var survivors := Survivors(marked);
            var r := Update(w, screen, roll);
            && r.score == w.score + n
            && r.speed == w.speed + SpeedStep * (n as real)
            && |survivors| <= |r.pipes|
            && r.pipes[..|survivors|] == survivors
            && (ShouldSpawn(survivors, screen.width) ==>
                  r.pipes == survivors + [NewPipe(screen, roll)])
            && (!ShouldSpawn(survivors, screen.width) ==> r.pipes == survivors)
  {
    SweepIsMoveMarkFilter(w.pipes, w.speed, w.score);
  }

  /** Moving and removing pipes never changes their shape, so well-shaped
      pipes stay well shaped through a sweep. */
  lemma SweepKeepsShapes(ps: seq<Pipe>, speed: real, score: nat, height: nat)
    requires forall i :: 0 <= i < |ps| ==> WellShaped(ps[i], height)
    ensures forall i :: 0 <= i < |SweepPipes(ps, speed, score).kept| ==>
              WellShaped(SweepPipes(ps, speed, score).kept[i], height)
  {
    SweepIsMoveMarkFilter(ps, speed, score);
    var marked := MoveAndMark(ps, speed);
    var kept := SweepPipes(ps, speed, score).kept;
    forall i | 0 <= i < |kept|
      ensures WellShaped(kept[i], height)
    {
      SurvivorsMembers(marked, kept[i]);
      var k :| 0 <= k < |marked| && marked[k] == kept[i];
      MoveAndMarkPipe(ps, speed, k);
    }
  }

  /** On a screen at least 320 pixels high a frame before the first jump
      leaves the reset world exactly as it is. On a lower screen the
      player's rectangle already reaches the ground line, so the first frame
      ends the game before it has started. */
  lemma ResetStartsFreshGame(screen: Screen, roll: Roll)
    ensures screen.height >= 320 ==> Update(Reset(screen.height), screen, roll) == Reset(screen.height)
    ensures screen.height < 320 ==> Update(Reset(screen.height), screen, roll).over
  {
  }

  /** The jump overwrites the velocity rather than adding to it: the world
      after a jump does not depend on the velocity before it. */
  lemma JumpOverwritesVelocity(w: World, v: real)
    requires !w.over
    ensures Jump(w) == Jump(w.(vy := v))
    ensures Jump(w).vy == JumpStrength
  {
  }

  /** Every frame keeps a well-formed world well formed. */
  lemma UpdatePreservesWellFormed(w: World, screen: Screen, roll: Roll)
    requires WellFormed(w, screen.height)
    ensures WellFormed(Update(w, screen, roll), screen.height)
  {
    if !w.over && w.started {
      var swept := SweepPipes(w.pipes, w.speed, w.score);
      SweepKeepsShapes(w.pipes, w.speed, w.score, screen.height);
      var r := Update(w, screen, roll);
      assert r.score - w.score == swept.score - w.score;
      assert r.speed == BaseSpeed + SpeedStep * (w.score as real)
                        + SpeedStep * ((r.score - w.score) as real);
      assert r.speed == BaseSpeed + SpeedStep * (r.score as real);
      if ShouldSpawn(swept.kept, screen.width) {
        var spawned := SpawnPipe(swept.kept, screen, roll);
        assert r.pipes == spawned;
        forall i | 0 <= i < |spawned|
          ensures WellShaped(spawned[i], screen.height)
        {
          if i < |swept.kept| {
            assert spawned[i] == spawned[..|swept.kept|][i];
          }
        }
      } else {
        assert r.pipes == swept.kept;
        forall i | 0 <= i < |r.pipes|
          ensures WellShaped(r.pipes[i], screen.height)
        {
          assert r.pipes[i] == swept.kept[i];
        }
      }
    }
  }
}
