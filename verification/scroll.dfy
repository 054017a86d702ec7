/** One tick of pipe movement: every pipe moves left by the current speed,
    a pipe whose right edge has just gone past the player is scored once,
    each score raises the speed, and pipes that have left the screen are
    dropped while the rest keep their order.

    The speed is raised inside the sweep, so a pipe later in the sequence
    moves by the speed as raised by the pipes scored before it in the same
    tick. */
module Scroll {
  import opened Config
  import opened Pipes

  /** What a sweep leaves behind: the surviving pipes, the new speed and the
      new score. */
  datatype Sweep = Sweep(kept: seq<Pipe>, speed: real, score: nat)

  function Advance(p: Pipe, speed: real): Pipe {
    p.(x := p.x - speed)
  }

  /** A moved pipe not yet scored whose right edge is left of the player. */
  predicate CrossesPlayer(p: Pipe) {
    !p.passed && p.x + PipeWidth < PlayerX
  }

  /** A moved pipe whose right edge is left of the screen. */
  predicate OffScreen(p: Pipe) {
    p.x + PipeWidth < 0.0
  }

  /** The two pipes differ at most in position and passed flag. */
  predicate SameShape(p: Pipe, q: Pipe) {
    && p.topY == q.topY
    && p.topHeight == q.topHeight
    && p.bottomY == q.bottomY
    && p.bottomHeight == q.bottomHeight
  }

  /** 1 when the pipe went from not passed to passed, else 0. */
  function Transition(before: Pipe, after: Pipe): nat {
    if !before.passed && after.passed then 1 else 0
  }

  /** How many pipes went from not passed to passed, position by position. */
  function NewlyPassed(before: seq<Pipe>, after: seq<Pipe>): (n: nat)
    requires |before| == |after|
    ensures n <= |before|
    decreases |before|
  {
    if |before| == 0 then 0
    else Transition(before[0], after[0]) + NewlyPassed(before[1..], after[1..])
  }

  /** How many of the pipes have not been scored yet. */
  function Unpassed(ps: seq<Pipe>): (n: nat)
    ensures n <= |ps|
    decreases |ps|
  {
    if |ps| == 0 then 0
    else (if ps[0].passed then 0 else 1) + Unpassed(ps[1..])
  }

  /** Only a pipe not yet scored can be scored: the transitions never
      outnumber the unscored pipes, so a pipe already passed never counts
      again. */
  lemma {:induction false} NewlyPassedAtMostUnpassed(before: seq<Pipe>, after: seq<Pipe>)
    requires |before| == |after|
    ensures NewlyPassed(before, after) <= Unpassed(before)
    decreases |before|
  {
    if |before| > 0 {
      NewlyPassedAtMostUnpassed(before[1..], after[1..]);
    }
  }

  /** A sweep scores each pipe at most once: the score never rises by more
      than the number of pipes not yet passed when the frame began. */
  lemma SweepScoreAtMostUnpassed(ps: seq<Pipe>, speed: real, score: nat)
    ensures SweepPipes(ps, speed, score).score - score <= Unpassed(ps)
  {
    SweepIsMoveMarkFilter(ps, speed, score);
    NewlyPassedAtMostUnpassed(ps, MoveAndMark(ps, speed));
  }

  /** Reference for the movement half of a sweep: every pipe moved and
      marked, none removed. The speed each pipe moves by is the speed raised
      by the pipes marked before it. */
  function MoveAndMark(ps: seq<Pipe>, speed: real): (r: seq<Pipe>)
    ensures |r| == |ps|
    decreases |ps|
  {
    if |ps| == 0 then []
    else
      var m := Advance(ps[0], speed);
      var hit := CrossesPlayer(m);
      var q := if hit then m.(passed := true) else m;
      [q] + MoveAndMark(ps[1..], if hit then speed + SpeedStep else speed)
  }

  /** What happens to each pipe: it keeps its shape, its passed flag never
      goes back to false and is set exactly when its moved right edge is left
      of the player, and it moves left by at least the starting speed. */
  lemma {:induction false} MoveAndMarkPipe(ps: seq<Pipe>, speed: real, i: int)
    requires 0 <= i < |ps|
    ensures var r := MoveAndMark(ps, speed);
            && SameShape(ps[i], r[i])
            && (ps[i].passed ==> r[i].passed)
            && (r[i].passed <==> ps[i].passed || r[i].x + PipeWidth < PlayerX)
            && r[i].x <= ps[i].x - speed
    decreases i
  {
    if i > 0 {
      var m := Advance(ps[0], speed);
      var hit := CrossesPlayer(m);
      var speed' := if hit then speed + SpeedStep else speed;
      MoveAndMarkPipe(ps[1..], speed', i - 1);
      assert MoveAndMark(ps, speed)[i] == MoveAndMark(ps[1..], speed')[i - 1];
    }
  }

  /** Reference for the removal half: the pipes still on screen, in order. */
  function Survivors(qs: seq<Pipe>): (r: seq<Pipe>)
    ensures |r| <= |qs|
    decreases |qs|
  {
    if |qs| == 0 then []
    else (if OffScreen(qs[0]) then [] else [qs[0]]) + Survivors(qs[1..])
  }

  /** A pipe survives exactly when it was there and is still on screen. */
  lemma {:induction false} SurvivorsMembers(qs: seq<Pipe>, p: Pipe)
    ensures p in Survivors(qs) <==> p in qs && !OffScreen(p)
    decreases |qs|
  {
    if |qs| > 0 {
      SurvivorsMembers(qs[1..], p);
      assert qs == [qs[0]] + qs[1..];
    }
  }

  /** The sweep as the game performs it, one pipe at a time: move it by the
      current speed, score it if it has just crossed the player, drop it if
      it is off screen. */
  function SweepPipes(ps: seq<Pipe>, speed: real, score: nat): (r: Sweep)
    ensures score <= r.score <= score + |ps|
    ensures r.speed == speed + SpeedStep * ((r.score - score) as real)
    ensures |r.kept| <= |ps|
    ensures forall i :: 0 <= i < |r.kept| ==> !OffScreen(r.kept[i])
    decreases |ps|
  {
    if |ps| == 0 then Sweep([], speed, score)
    else
      var m := Advance(ps[0], speed);
      var hit := CrossesPlayer(m);
      var q := if hit then m.(passed := true) else m;
      var rest := SweepPipes(ps[1..],
                             if hit then speed + SpeedStep else speed,
                             if hit then score + 1 else score);
      Sweep(if OffScreen(q) then rest.kept else [q] + rest.kept, rest.speed, rest.score)
  }

  /** Removal distributes over concatenation, so it keeps the survivors in
      their original order. */
  lemma {:induction false} SurvivorsAppend(a: seq<Pipe>, b: seq<Pipe>)
    ensures Survivors(a + b) == Survivors(a) + Survivors(b)
    decreases |a|
  {
    if |a| > 0 {
      assert (a + b)[1..] == a[1..] + b;
      SurvivorsAppend(a[1..], b);
    } else {
      assert a + b == b;
    }
  }

  /** Reference for a whole sweep: move and mark every pipe, then drop those
      off screen; the score rises by the number of pipes that went from not
      passed to passed, and the speed by one step for each of them. */
  function MoveMarkFilter(ps: seq<Pipe>, speed: real, score: nat): Sweep {
    var marked := MoveAndMark(ps, speed);
    var n := NewlyPassed(ps, marked);
    Sweep(Survivors(marked), speed + SpeedStep * (n as real), score + n)
  }

  /** The sweep as the game performs it agrees with the reference. */
  lemma {:induction false} SweepIsMoveMarkFilter(ps: seq<Pipe>, speed: real, score: nat)
    ensures SweepPipes(ps, speed, score) == MoveMarkFilter(ps, speed, score)
    decreases |ps|
  {
    if |ps| > 0 {
      var m := Advance(ps[0], speed);
      var hit := CrossesPlayer(m);
      var q := if hit then m.(passed := true) else m;
      var speed' := if hit then speed + SpeedStep else speed;
      var score' := if hit then score + 1 else score;
      SweepIsMoveMarkFilter(ps[1..], speed', score');
      var marked := MoveAndMark(ps, speed);
      var rest := MoveAndMark(ps[1..], speed');
      assert marked == [q] + rest;
      assert marked[1..] == rest;
      assert Transition(ps[0], q) == (if hit then 1 else 0);
      assert NewlyPassed(ps, marked) == Transition(ps[0], q) + NewlyPassed(ps[1..], rest);
      assert Survivors(marked) == (if OffScreen(q) then [] else [q]) + Survivors(rest);
    }
  }

  /** Closed form of the movement: pipe i moves by the starting speed plus
      one step for every pipe before it that was scored in the same tick. */
  lemma {:induction false} MoveAndMarkDisplacement(ps: seq<Pipe>, speed: real, i: int)
    requires 0 <= i < |ps|
    ensures var r := MoveAndMark(ps, speed);
            r[i].x == ps[i].x - (speed + SpeedStep * (NewlyPassed(ps[..i], r[..i]) as real))
    decreases i
  {
    var r := MoveAndMark(ps, speed);
    if i > 0 {
      var m := Advance(ps[0], speed);
      var hit := CrossesPlayer(m);
      var t := if hit then 1 else 0;
      var speed' := speed + SpeedStep * (t as real);
      var rest := MoveAndMark(ps[1..], speed');
      assert r == [r[0]] + rest;
      assert r[i] == rest[i - 1];
      MoveAndMarkDisplacement(ps[1..], speed', i - 1);
      var k := NewlyPassed(ps[1..][..i - 1], rest[..i - 1]);
      assert ps[..i][1..] == ps[1..][..i - 1];
      assert r[..i][1..] == rest[..i - 1];
      assert Transition(ps[0], r[0]) == t;
      assert NewlyPassed(ps[..i], r[..i]) == t + k;
      assert speed' + SpeedStep * (k as real) == speed + SpeedStep * ((t + k) as real);
    }
  }

  /** The sweep with its output pipes put in front of earlier survivors. */
  function Prepend(prefix: seq<Pipe>, s: Sweep): Sweep {
    s.(kept := prefix + s.kept)
  }

  /** One step of the sweep viewed from outside: once the pipes in `done`
      have been dealt with, handling the first pipe of `todo` either drops it
      or appends it to `done`, and the overall result is unchanged. */
  lemma SweepStepKeepsResult(goal: Sweep, done: seq<Pipe>, todo: seq<Pipe>, speed: real, score: nat)
    requires |todo| > 0
    requires goal == Prepend(done, SweepPipes(todo, speed, score))
    ensures var m := Advance(todo[0], speed);
            var hit := CrossesPlayer(m);
            var q := if hit then m.(passed := true) else m;
            goal == Prepend(if OffScreen(q) then done else done + [q],
                            SweepPipes(todo[1..],
                                       if hit then speed + SpeedStep else speed,
                                       if hit then score + 1 else score))
  {
    var m := Advance(todo[0], speed);
    var hit := CrossesPlayer(m);
    var q := if hit then m.(passed := true) else m;
    var rest := SweepPipes(todo[1..],
                           if hit then speed + SpeedStep else speed,
                           if hit then score + 1 else score);
    if !OffScreen(q) {
      assert done + ([q] + rest.kept) == (done + [q]) + rest.kept;
    }
  }

  /** One pass of the game's loop body on the pipe at index `i`: it is moved,
      maybe scored, then either spliced out (the index stays put) or kept
      (the index moves on). The pipes before the index and those after it
      are left alone, one pipe fewer remains to be visited, and the result
      of sweeping the rest, put behind the pipes already kept, is the same
      as before the pass. */
  method ProcessPipe(ps: seq<Pipe>, i: nat, speed: real, score: nat)
    returns (ps': seq<Pipe>, i': nat, speed': real, score': nat)
    requires i < |ps|
    ensures i <= i' <= i + 1 && i' <= |ps'|
    ensures |ps'| - i' == |ps| - i - 1
    ensures ps'[..i] == ps[..i]
    ensures ps'[i'..] == ps[i + 1..]
    ensures Prepend(ps'[..i'], SweepPipes(ps'[i'..], speed', score'))
            == Prepend(ps[..i], SweepPipes(ps[i..], speed, score))
  {
    ghost var goal := Prepend(ps[..i], SweepPipes(ps[i..], speed, score));
    SweepStepKeepsResult(goal, ps[..i], ps[i..], speed, score);
    assert ps[i..][0] == ps[i] && ps[i..][1..] == ps[i + 1..];
    speed' := speed;
    score' := score;
    var p := ps[i].(x := ps[i].x - speed');
    if !p.passed && p.x + PipeWidth < PlayerX {
      p := p.(passed := true);
      score' := score' + 1;
      speed' := speed' + SpeedStep;
    }
    if p.x + PipeWidth < 0.0 {
      ps' := ps[..i] + ps[i + 1..];
      i' := i;
      assert ps'[..i'] == ps[..i] && ps'[i'..] == ps[i + 1..];
    } else {
      ps' := ps[i := p];
      i' := i + 1;
      assert ps'[..i'] == ps[..i] + [p] && ps'[i'..] == ps[i + 1..];
    }
  }

  /** The game's sweep as written: an index walks the pipe list, a pipe that
      leaves the screen is spliced out and the index stays put so the next
      pipe is not skipped. It agrees with the recursive sweep and so with
      "move, mark, then filter". */
  method SweepInPlace(pipes: seq<Pipe>, speed: real, score: nat)
    returns (kept: seq<Pipe>, speed': real, score': nat)
    ensures Sweep(kept, speed', score') == SweepPipes(pipes, speed, score)
    ensures Sweep(kept, speed', score') == MoveMarkFilter(pipes, speed, score)
  {
    var ps := pipes;
    var i: nat := 0;
    speed' := speed;
    score' := score;
    assert ps[..i] == [] && ps[i..] == pipes;
    while i < |ps|
      invariant i <= |ps|
      invariant SweepPipes(pipes, speed, score)
                == Prepend(ps[..i], SweepPipes(ps[i..], speed', score'))
      decreases |ps| - i
    {
      ps, i, speed', score' := ProcessPipe(ps, i, speed', score');
    }
    assert ps[..i] == ps && ps[i..] == [];
    kept := ps;
    SweepIsMoveMarkFilter(pipes, speed, score);
  }
}
