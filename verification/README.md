# Flappy game core in Dafny

A model of the game logic of a single-screen "flappy" arcade game: a player
falls under gravity, jumps on key press or click, and must fly through the
openings of pipes that scroll in from the right. The model covers the world
state, `resetGame`, `jump`, `spawnPipe`, `checkCollision` and the logic of
the per-frame `update` in `game.js`, with drawing, sound and DOM handling
removed.

Modules, one per concern of `game.js`:

- `Config` (config.dfy): the constants of lines 26-36. It also holds the
  screen (canvas width and height, whole pixels) and `Roll`, the value of
  `Math.random()` as a real in [0, 1).
- `Pipes` (pipes.dfy): the pipe record and `spawnPipe`. The top height is
  computed exactly as written: the draw scaled to the range, rounded down,
  plus 50. The bottom height is clamped first against the ground line and
  then against the minimum of 50.
- `Collision` (collision.dfy): `checkCollision`, first as a declarative
  predicate and then as the source's loop with early return.
- `Scroll` (scroll.dfy): the pipe loop of `update`. It is modelled three
  ways: the recursive sweep, a reference "move and mark, then filter", and
  the in-place index-and-splice loop as a method.
- `Game` (game.dfy): the `World` record, `Reset`, `Jump`, `Update`, and the
  invariant every reachable world keeps.
- `Session` (session.dfy): host events (frame, jump, restart), runs of
  events, and the NotStarted / Playing / Ended state machine.

Positions, velocities and speeds are exact reals. The random draw is a
parameter of each frame. Screen width and height are parameters of each
frame, as the game reads them from the canvas on every tick.

Points about the code worth knowing when reading the model:

- The pipe speed is raised inside the sweep. A pipe later in the list is
  therefore moved by the speed as already raised by the pipes scored before
  it in the same frame. `MoveAndMarkDisplacement` states this in closed
  form.
- The collision test also runs before the first jump, so a game can end
  without having started: on a screen lower than 320 pixels the centred
  player already reaches the ground strip, and the first frame goes from
  NotStarted straight to Ended (`EndsBeforeStartOnLowScreen`,
  `ResetStartsFreshGame`).
- The top-height range is [50, H - 300], that is [50, H - gap - 150]. On a
  screen lower than 350 pixels the range is empty, and the formula then
  yields a top height in [H - 299, 50]; `Pipes.TopHeight` states both
  cases.
- Removal drops every off-screen pipe, wherever it sits in the list, not
  only pipes at the front.
- Every world reachable from a reset keeps the pipe speed at exactly
  1.5 + 0.1 × score (`Game.WellFormed`).

## Model

| member | source | states |
|---|---|---|
| Pipes.ScaledDraw | game.js:80-81 | rounding down the draw scaled by n gives a value in [0, n-1] when n ≥ 1, and in [n, 0] otherwise |
| Pipes.TopHeight | game.js:79-81 | the top height lies in [50, H - 300] when the screen is at least 350 high, and in [H - 299, 50] otherwise |
| Pipes.TopHeightReachable | game.js:80-81 | every top height in [50, H - 300] is produced by some draw, so the whole range is reachable |
| Pipes.BottomHeight | game.js:82-88 | the bottom height is at least 50 and at most H - 100 when H ≥ 150; it is the raw value H - top - gap when that is in range, H - 100 when the raw value is above that (and H ≥ 150), and 50 when the raw value is below 50 or H < 150 |
| Pipes.NewPipe | game.js:89-96 | the new pipe sits at the right edge, is not passed and is well shaped (top at 0, bottom on the bottom edge, heights in range, opening exactly the gap on a tall screen) |
| Pipes.SpawnPipe | game.js:78-97 | exactly one pipe is appended; the earlier pipes are unchanged; the new pipe has x = W, topY = 0, passed = false and bottomY = H - bottomHeight |
| Pipes.SpawnNeverClampsOnTallScreen | game.js:82-88 | on a screen at least 350 high neither clamp fires, so the opening is exactly the gap |
| Collision.CheckCollision | game.js:122-143 | the loop reports a hit exactly when the player is out of bounds or overlaps some pipe outside its opening; out of bounds is a hit whatever the pipes |
| Collision.DistantPipeIrrelevant | game.js:129-141 | a pipe that does not overlap the player horizontally never changes the outcome |
| Scroll.SweepScoreAtMostUnpassed | game.js:156-160 | a sweep raises the score by at most the number of pipes not yet passed at the start of the frame, so a passed pipe never scores again |
| Scroll.MoveAndMarkPipe | game.js:154-160 | each pipe keeps its shape; the passed flag never goes back to false; it is set exactly when the moved right edge is left of the player; each pipe moves left by at least the starting speed |
| Scroll.SurvivorsMembers | game.js:161-164 | a pipe survives removal exactly when it was present and is not off screen |
| Scroll.SurvivorsAppend | game.js:161-164 | removal distributes over concatenation, so the survivors keep their order |
| Scroll.SweepPipes | game.js:154-165 | the score rises by at most the number of pipes; the speed rises by 0.1 per point scored; no kept pipe is off screen |
| Scroll.SweepIsMoveMarkFilter | game.js:154-165 | the sweep equals "move and mark, then drop the off-screen pipes"; the score rises by exactly the number of false-to-true transitions and the speed by 0.1 for each |
| Scroll.MoveAndMarkDisplacement | game.js:154-160 | pipe i moves by the starting speed plus 0.1 for each pipe before it scored in the same frame |
| Scroll.ProcessPipe | game.js:155-164 | one pass of the loop body leaves the pipes before the index and after it alone, advances the index by at most one, leaves one pipe fewer to visit, and keeps the overall sweep result (kept pipes so far followed by the sweep of the rest) unchanged |
| Scroll.SweepInPlace | game.js:154-165 | the index-and-splice loop computes the same survivors, score and speed as the recursive sweep and as "move and mark, then filter" |
| Game.Reset | game.js:66-76 | reset centres the player at H/2, zeroes velocity and score, empties the pipes, restores speed 1.5, clears both flags, and yields a well-formed world |
| Game.ShouldSpawn | game.js:166-168 | a spawn is due exactly when the list is empty or the newest pipe is more than 200 left of the right edge; so a pipe spawned when due lands more than 200 right of the newest one, and when none is due there is already a pipe |
| Game.Jump | game.js:192-200 | a jump on a finished game changes nothing; otherwise it starts the game and sets the velocity to -6; nothing else changes |
| Game.JumpOverwritesVelocity | game.js:194-198 | the world after a jump does not depend on the velocity before it: an overwrite, not an added impulse |
| Game.Fly | game.js:151-168 | after a started frame there is at least one pipe; the speed rises by 0.1 per point scored |
| Game.Update | game.js:146-175 | a finished game is unchanged; the started flag never changes; the game is over exactly when it was or the moved player collides; before the start nothing but the over flag changes; a started frame applies gravity and leaves at least one pipe; speed rises 0.1 per point |
| Game.StartedUpdateScoring | game.js:151-168 | a started frame raises score and speed by the false-to-true transitions; its pipes are the moved survivors in order, plus one new pipe exactly when the spawn rule fires |
| Game.SweepKeepsShapes | game.js:154-165 | moving and removing pipes keeps every remaining pipe well shaped |
| Game.ResetStartsFreshGame | game.js:66-76 | a frame right after a reset changes nothing on a screen at least 320 high and ends the game, not yet started, on a lower one |
| Game.UpdatePreservesWellFormed | game.js:146-175 | a frame keeps speed = 1.5 + 0.1 × score and keeps every pipe well shaped |
| Session.Step | game.js:146-200 | restart leads to NotStarted; a jump outside Ended leads to Playing; a frame keeps the phase or ends the game; only a restart changes a finished game; otherwise speed and score never fall |
| Session.EndedUntilRestart | game.js:147-150 | a finished game stays exactly as it is through any events that contain no restart |
| Session.SpeedAndScoreNeverDecrease | game.js:154-160 | within one game, across any events, neither speed nor score ever goes down |
| Session.RunKeepsWellFormed | game.js:66-97 | every world reachable from a well-formed one, resets included, is well formed |
| Session.PlayingNeedsJump | game.js:192-197 | from NotStarted, frames alone never reach Playing |
| Session.EndsBeforeStartOnLowScreen | game.js:122-128 | one instance of the low-screen case of Game.ResetStartsFreshGame: on a 300-pixel screen the first frame after a reset ends a game that never started |

## Left out

- Drawing (`draw`, `drawPipes`, `drawCinnamoroll`), image loading (`checkImagesLoaded`) and `showStartScreen` are rendering and asset plumbing with no effect on the world.
- Sound playback for jumps and game over is a fire-and-forget side effect.
- Overlay visibility, writing the final score to the page, and the button and key listeners are UI glue. A listener is one of the `Session.Event` values; a restart button is `Restart`, followed by a `Frame` where the button also calls `update`.
- `resizeCanvas` is not modelled: the screen is a parameter of each frame. The invariant lemmas assume a fixed screen for the whole run.
- `requestAnimationFrame` and `cancelAnimationFrame` are not modelled: each frame is an explicit call of `Game.Update`, and a finished game is simply left unchanged.
- IEEE-754 rounding is not modelled: `1.5 + 0.1·n` and the gravity sums use exact reals.
- `Math.random` is not modelled: its value is the `Roll` parameter.
- The state at page load (line 26 and lines 30-36) is not modelled separately: it equals `Reset` applied to the window height.
- Pipe positions increasing along the list is not proved. It holds in every reachable state: a pipe is spawned more than 200 right of the newest one (`Game.ShouldSpawn`), and a pipe gains on its predecessor only in the one frame that predecessor scores, and then by 0.1, so on a fixed screen only the spacing shrinks. Proving it needs a spacing invariant over the whole list, which the model does not carry.
