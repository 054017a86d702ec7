/** A game session as a sequence of host events, and the state machine
    NotStarted -> Playing -> Ended that the world goes through. */
module Session {
  import opened Config
  import opened Game

  /** What the host delivers: an animation frame (with the random draw a
      spawn in that frame would use), a jump from a key or a click, or one of
      the buttons that reset the game. */
  datatype Event = Frame(roll: Roll) | Press | Restart

  datatype Phase = NotStarted | Playing | Ended

  function PhaseOf(w: World): Phase {
    if w.over then Ended else if w.started then Playing else NotStarted
  }

  /** One event applied to the world. A restart always leads back to
      NotStarted; a jump leaves a finished game alone and otherwise leads to
      Playing; a frame either keeps the phase or ends the game; and nothing
      but a restart changes a finished game. */
  function Step(w: World, e: Event, screen: Screen): (r: World)
    ensures e.Restart? ==> PhaseOf(r) == NotStarted
    ensures e.Press? && PhaseOf(w) != Ended ==> PhaseOf(r) == Playing
    ensures e.Frame? ==> PhaseOf(r) == PhaseOf(w) || PhaseOf(r) == Ended
    ensures !e.Restart? && PhaseOf(w) == Ended ==> r == w
    ensures !e.Restart? ==> r.speed >= w.speed && r.score >= w.score
  {
    match e
    case Frame(roll) => Update(w, screen, roll)
    case Press => Jump(w)
    case Restart => Reset(screen.height)
  }

  function Run(w: World, events: seq<Event>, screen: Screen): World
    decreases |events|
  {
    if |events| == 0 then w
    else Run(Step(w, events[0], screen), events[1..], screen)
  }

  predicate NoRestart(events: seq<Event>) {
    forall i :: 0 <= i < |events| ==> !events[i].Restart?
  }

  /** A finished game stays exactly as it is until a restart. */
  lemma {:induction false} EndedUntilRestart(w: World, events: seq<Event>, screen: Screen)
    requires w.over
    requires NoRestart(events)
    ensures Run(w, events, screen) == w
    decreases |events|
  {
    if |events| > 0 {
      assert Step(w, events[0], screen) == w;
      EndedUntilRestart(w, events[1..], screen);
    }
  }

  /** Within one game (no restart) neither the pipe speed nor the score ever
      goes down. */
  lemma {:induction false} SpeedAndScoreNeverDecrease(w: World, events: seq<Event>, screen: Screen)
    requires NoRestart(events)
    ensures Run(w, events, screen).speed >= w.speed
    ensures Run(w, events, screen).score >= w.score
    decreases |events|
  {
    if |events| > 0 {
      assert !events[0].Restart?;
      SpeedAndScoreNeverDecrease(Step(w, events[0], screen), events[1..], screen);
    }
  }

  /** Every event keeps the world well formed, so in every world reachable
      from a reset the speed is the base speed plus one step per point and
      every pipe has its spawned shape. */
  lemma {:induction false} RunKeepsWellFormed(w: World, events: seq<Event>, screen: Screen)
    requires WellFormed(w, screen.height)
    ensures WellFormed(Run(w, events, screen), screen.height)
    decreases |events|
  {
    if |events| > 0 {
      match events[0] {
        case Frame(roll) => UpdatePreservesWellFormed(w, screen, roll);
        case Press =>
        case Restart =>
      }
      RunKeepsWellFormed(Step(w, events[0], screen), events[1..], screen);
    }
  }

  /** A game only gets going through a jump: from NotStarted, no sequence of
      frames alone reaches Playing. */
  lemma {:induction false} PlayingNeedsJump(w: World, events: seq<Event>, screen: Screen)
    requires PhaseOf(w) == NotStarted
    requires forall i :: 0 <= i < |events| ==> events[i].Frame?
    ensures PhaseOf(Run(w, events, screen)) != Playing
    decreases |events|
  {
    if |events| > 0 {
      var next := Step(w, events[0], screen);
      if PhaseOf(next) == Ended {
        EndedUntilRestart(next, events[1..], screen);
      } else {
        PlayingNeedsJump(next, events[1..], screen);
      }
    }
  }

  /** The collision test runs before the first jump too, so a game can go
      from NotStarted straight to Ended: on a 300-pixel screen the reset
      player already overlaps the ground strip. This is one instance of the
      general case `Game.ResetStartsFreshGame` proves for every screen lower
      than 320 pixels. */
  lemma EndsBeforeStartOnLowScreen()
    ensures var screen := Screen(400, 300);
            var w := Reset(screen.height);
            && PhaseOf(w) == NotStarted
            && PhaseOf(Step(w, Frame(0.0), screen)) == Ended
  {
  }
}
