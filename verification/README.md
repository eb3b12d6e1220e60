# Flappy-bird game engine in Dafny

This project models the game engine of a browser Flappy-Bird variant (`public/game.js`).
The engine runs one update per 20 ms timer tick. It is a three-state machine: get ready, play and
game over. Within a tick it applies bird physics (gravity, flap, tilt, a 20-point trail), scrolls a
queue of pipe pairs with a spawn every 100 ticks, and tests the bird against the front pair for a
collision or a point. It also adjusts the gap and scroll speed to the score, and reports the score of
a finished run to an external sink once.

All mutable state lives in one immutable `World` record. The engine is a set of pure functions over
that record:

- `Difficulty`: `Gap` and `Speed` as functions of the score.
- `BirdPhysics`: the `Bird` record, `Flap`, `SetRotation` and `UpdatePath`.
- `Pipes`: `SpawnOffset` and the stream step `Scroll`.
- `Game`: `World`, collision and scoring, each entity's update, `Tick` (the order of `gameLoop`), the
  report guard, `Reset`, the click and key handlers, and the invariant `Valid`, which every tick and
  input preserves.
- `Session`: runs of ticks and inputs, with counts of score reports, resets and front-pair departures.

Positions and speeds are Dafny `real`s, so the arithmetic is exact, not IEEE. Sprite sizes, the canvas
width and the ground line come from images that load asynchronously. They are a `Dims` parameter,
held fixed while the game runs. The random draw for a new pair's offset (`rand` in [0, 1)) and the
get-ready wobble (`bob` in [-1, 1]) are inputs to `Tick`.

Details of the code that the model keeps:

- The ground test comes first. The pipe test, which also awards points, runs only
  when the ground test fails, because of the short-circuit `||` at `public/game.js:247`.
- The ground test uses radius `birdW/2`. The pipe test uses `birdH/4 + birdW/4`.
- `gap` and `dx` are stored fields. `gap` is recomputed only by the pipe update during play. `dx` is
  recomputed at the end of every update, so the ground and pipes scroll at the previous tick's speed.
- `handleGameOver` runs after the frame counter is incremented, in the same tick as the transition to
  game over.
- The pipe test only looks at the front pair. It stays the front pair after it has been passed, until it
  scrolls off.

Behaviour of the code worth noting:

- The background scrolls in every state, not only in play (`public/game.js:162-164`).
- The gap is one global value. A change of gap applies at once to every pair on screen, including
  pairs spawned earlier (`public/game.js:169`, `public/game.js:180`, `public/game.js:292`).
- `resetGame` does not reset `pipe.moved`. Suppose a run ends after its front pair was credited but
  before that pair scrolled off, for example by landing. Then the next run starts without credit, so
  the first pair of the next run earns no point although the bird flies past it.
  `Session.StaleCreditAfterReset` proves this behaviour.

## Model

| member | source | states |
|---|---|---|
| Difficulty.Gap | public/game.js:204-208 | the gap is 200 less the score rounded down to a multiple of 5, never below 65 and never above 200; it equals 65 exactly when the score is at least 135 |
| Difficulty.GapMonotone | public/game.js:204-208 | a higher score never gives a wider gap |
| Difficulty.Speed | public/game.js:471-474 | the scroll speed lies in [2, 5] and reaches the cap 5 exactly when the score is at least 60 |
| Difficulty.SpeedInHalfUnits | public/game.js:471-474 | the speed is exactly min(4 + floor(score/10), 10) half-pixels per tick |
| Difficulty.SpeedMonotone | public/game.js:471-474 | a higher score never gives a slower scroll |
| Difficulty.DifficultyAt47 | public/game.js:204-474 | at score 47 the gap is 155 and the speed is 4 |
| BirdPhysics.Flap | public/game.js:272-277 | a flap sets the speed to -3.6 when the bird is below the top edge (y > 0), and otherwise changes nothing; no other field changes |
| BirdPhysics.SetRotation | public/game.js:278-284 | the tilt stays in [-25, 90]; it is non-positive exactly for non-positive speeds; it is -25 exactly when speed <= -3.6 and 90 exactly when speed >= 7.2 |
| BirdPhysics.SetRotationMonotone | public/game.js:278-284 | a faster fall never gives a smaller tilt |
| BirdPhysics.UpdatePath | public/game.js:307-315 | the new position becomes element 0 and older points shift back by one; the trail grows by one below 20 points and otherwise keeps its length, dropping the oldest |
| BirdPhysics.TrailIsRecentPositions | public/game.js:307-315 | from an empty trail, after any number of positions the trail holds the last min(n, 20) of them, newest first |
| Pipes.SpawnOffset | public/game.js:186-190 | the offset of a new pair lies in [-378, -210]; it is -378 exactly when the draw is at least 0.8, and -210 exactly when the draw is 0 |
| Pipes.Scroll | public/game.js:186-199 | every pair, including one just spawned, moves left by dx and keeps its offset; the front pair is dropped exactly when its new x is left of -topW |
| Pipes.ScrollKeepsOrder | public/game.js:186-199 | with a positive speed, the step keeps pairs strictly ordered left to right, left of the spawn column and inside the offset band |
| Pipes.ScrollSpawnsAtEdge | public/game.js:186-194 | a pair spawned in this step is the rear pair afterwards, at the screen edge less dx, unless it leaves at once |
| Game.Collisioned | public/game.js:285-306 | a hit happens exactly when the stream is non-empty, x_b + r is in [x, x + w), and y - r <= roof or y + r >= roof + gap, both inclusive; a creditable pair whose trailing edge the bird has passed gives exactly one point and clears the credit; otherwise nothing changes |
| Game.BirdReady | public/game.js:237-241 | on the get-ready screen: trail updated, tilt 0, speed unchanged, frame in [0, 4), y moves by at most one (the wobble) and only on every tenth tick; nothing outside the bird changes |
| Game.BirdPlay | public/game.js:242-251 | in play: y += speed, tilt from the speed before gravity, speed += 0.125; game over exactly when the bird reaches the ground line or hits the front pair; a point (and spent credit) exactly when the ground test fails and the bird passes a creditable pair |
| Game.BirdFall | public/game.js:252-268 | in game over: frame 1; above the ground line the bird falls at double gravity; otherwise it rests with its edge on the ground line, speed 0, tilt 90, and the landing sound flag set |
| Game.BirdUpdate | public/game.js:233-271 | in every state the trail gets the position before the move, the frame stays in [0, 4) and the tilt in [-25, 90]; get ready and game over are kept; play goes to game over exactly on landing or a hit; the score changes only by a point in play; the landing sound flag is only set in game over |
| Game.GroundUpdate | public/game.js:120-123 | the ground scrolls by dx during play and not at all in other states |
| Game.PipeUpdate | public/game.js:184-208 | nothing changes outside play; in play every pair, including one spawned on every 100th tick, moves left by dx and the front pair is dropped once off-screen (as `Pipes.Scroll` states pair by pair), the gap is recomputed from the score, the credit is re-armed exactly when the front pair leaves, and the stream grows only on every 100th tick |
| Game.PipeUpdateSpawnsAtEdge | public/game.js:186-191 | on every 100th tick of play a pair is spawned at the screen edge with the drawn offset and ends the tick as the rear pair |
| Game.PipeUpdateKeepsOrder | public/game.js:184-199 | with a positive speed the pipe update keeps the stream ordered |
| Game.UIUpdate | public/game.js:418-422 | the tap hint frame stays in [0, 2) outside play and is frozen during play |
| Game.HandleGameOver | public/game.js:477-490 | a report with the current score is emitted exactly when the state is game over and it has not been reported yet; the guard flag is then set; nothing else changes |
| Game.HandleGameOverIdempotent | public/game.js:479-490 | a second pass through the guard emits no report and changes nothing |
| Game.Tick | public/game.js:442-457 | get ready and game over are never left by a tick; play can move only to game over; the pipes, ground, score and credit move only in play; the background always scrolls by 0.5; dx follows the new score; the score grows by at most one, and only from play with credit; a report happens exactly on the tick that first ends in game over, and carries the final score; credit is re-armed only when the front pair leaves |
| Game.Reset | public/game.js:78-86 | the state becomes get ready, speed 0, y 100, no pipes, score 0, both one-shot flags cleared; every other field, including the credit, is unchanged |
| Game.ResetIdempotent | public/game.js:78-86 | resetting twice is the same as resetting once |
| Game.OnPrimaryAction | public/game.js:45-86 | get ready moves to play and nothing else changes; in play only the bird's speed may change, by a flap; game over performs exactly `Reset`: get ready, bird at y 100 with speed 0, score 0, no pipes, cleared flags, every other field kept |
| Game.KeyDown | public/game.js:60-76 | space, W and arrow-up act exactly like a click; every other key changes nothing |
| Game.InitialValid | public/game.js:88-342 | the start-up world satisfies the invariant |
| Game.TickPreservesValid | public/game.js:442-457 | a tick preserves the invariant: frame in [0, 4), tap frame in [0, 2), trail length at most 20, tilt in [-25, 90], speed in [2, 5], gap in [65, 200], the report flag set exactly in game over, the landing sound flag only in game over, no pipes in get ready, pipes strictly ordered left to right, left of the spawn column and inside the offset band |
| Game.ActionPreservesValid | public/game.js:45-86 | a click preserves the same invariant |
| Session.RunPreservesValid | public/game.js:442-492 | every world reached by ticks, clicks and keys from a valid world is valid |
| Session.ReportsBoundedByResets | public/game.js:477-490 | across any run of events, the number of reports is at most the number of resets, plus one if the run did not start in game over |
| Session.ReportAtMostOncePerRun | public/game.js:477-490 | without a reset the score is reported at most once, and never again once reported, however many ticks pass in game over |
| Session.ScoreMonotoneWithinRun | public/game.js:300-304 | without a reset the score never decreases |
| Session.PointsBoundedByDepartures | public/game.js:196-199 | without a reset, points gained plus credit left never exceed the credit at the start plus the number of front pairs that scrolled off: at most one point per pair |
| Session.StaleCreditAfterReset | public/game.js:78-86 | a reset from game over with the credit spent leaves the credit spent, so the next run scores nothing until a pair has scrolled off |
| Session.ClickStartsRun | public/game.js:45-50 | a click on the start-up screen enters play and changes nothing else |
| Session.LandingReportsOnce | public/game.js:247-249 | a play tick that reaches the ground line ends the run and reports the score in the same tick |

`bg.update`, `updateSpeed` and the composed `update()` are the functions `BgUpdate`, `UpdateSpeed` and
`Update`. Their effects are stated in `Game.Tick`'s contract.

## Left out

- Drawing: `draw`, `drawTail`, `drawScore`, the HUD text, the coin image and `resizeCanvas`. These are canvas and DOM output with float division and do not affect game state.
- Wrap-around of the ground and background offsets. It happens in `gnd.draw` and `bg.draw`, so the model's `groundX` and `bgX` decrease without bound. `gnd.draw` also sets the ground line, which is why the ground line is the `groundY` parameter.
- Canvas resizes while the game runs. The screen width and ground line are fixed across a run, and the pipe-order invariant depends on this.
- Sound playback (`SFX.*.play()`). The only sound state modelled is the `SFX.played` flag (`sfxPlayed`).
- The timer (`setInterval`). A tick is one call of `Tick`, and a run is a sequence of events.
- The asynchronous `window.upsertPlayer` call. It is a foreign function. The model emits a `Report` value. Its success or failure is not an input, because the source only logs a failure, so the world cannot depend on it.
- The `highScoreUpdated`/`statsUpdated` listeners and the read of `window.totalScore` (`public/game.js:456`). They deliver external statistics for display only.
- The `Math.sin` wobble in get ready. It is the bounded input `bob` in [-1, 1].
- `Math.random`. It is the input `rand` in [0, 1), from which `SpawnOffset` computes the offset exactly.
- IEEE floating point. Positions use exact reals. The tick counter is an unbounded natural number.
- Game.BirdPlay: does not state how the animation frame advances during play beyond its range [0, 4), because the frame only selects a sprite.
- `app/upgrade/page.tsx`, `app/referral/page.tsx`, `app/page.tsx`, `app/layout.tsx` and `app/api/playerStats/routes.ts`. These are page shells, a cost display and a thin database query, outside the engine.
