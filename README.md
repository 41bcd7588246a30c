# Flappy-dragon game state machine, modelled in Dafny

This project models the core of a small terminal arcade game (`src/main.rs`): a
dragon falls under gravity while waves of enemies and gifts drift towards it, and
a trivia quiz decides whether a death ends the run. The model covers the
integer-valued state machine under the drawing calls:

- the four modes (Menu, Playing, Question, End) and the `tick` dispatch;
- the two entity pools (`enemy_vec` and `gifts`), each with its active counter.
  On a simulation step every active entity drifts left and is deactivated at
  `x <= 0`. An empty pool is refilled with a random wave;
- the distance tests of `dist`, `Enemy::hit`, `Gift::hit` and `hit_enemy`;
- the death transition of `play`, gift scoring, and the quiz gate of `question`.
  The gate indexes four fixed questions by `nb_die - 1`;
- the resets `restart` and `playing_continue`, and the key handling of `main_menu` and `dead`.

Layout:

- `input.dfy` (module `Input`): keys and `Option`.
- `entities.dfy` (module `Entities`): the constants, the entity, the player and the hit tests.
  Both thresholds are shown to mean "adjacent cell".
- `pools.dfy` (module `Pools`): the pool loops as methods, with the functions that specify them and counting lemmas.
- `quiz.dfy` (module `Quiz`): the answer labels.
- `game.dfy` (module `Game`): the state as a value, with one function per handler.
  It also holds the invariant `Inv` and the lemmas that every tick keeps it and never underflows.
- `machine.dfy` (module `Machine`): class `State`. Its fields are updated in place by methods proved equal to the `Game` functions.

Each `Game` handler function (`Initial`, `PlayingContinue`, `Restart`, `MenuKeys`, `Simulate`, `RefillPools`, `Play`, `Resolve`, `QuestionGate`, `Tick`) models the same source lines as the `Machine.State` method of the same name, or of the step it specifies (`Initial` for the constructor, `MenuKeys` for `MainMenu` and `Dead`, `Simulate` for `Advance`, `RefillPools` for `RefillEmptyPools`, `Resolve` for `Conclude`). Their rows in the table below are those of the methods and of the lemmas about them.

The two unsigned subtractions of the game are explicit in the model:

- `self.life - 1` (u32) at `src/main.rs:273`: on 0 it panics in a debug build and wraps in a release build;
- `self.nb_die - 1` (usize) at `src/main.rs:322`: on 0 it aborts in both builds, since in a release build the wrapped index fails at `question[index_question]` (`src/main.rs:334`).

`Game.Play` and `Game.QuestionGate` return `Panic(...)` when the operand is 0.
`Game.TickPreservesInv` proves that this never happens from a state satisfying `Inv`, and every tick keeps `Inv`.
In the class, the same subtractions are on `nat` fields, so the verifier checks them directly.

Inputs that the game takes from the terminal library, the clock, the floating-point physics or the random generator are parameters, bundled per frame in `Game.Frame`:

- the key pressed;
- the elapsed milliseconds;
- a `Motion`: the truncated row of the player after a gravity step, and whether the player is now below the bottom;
- the random waves, each a sequence of spawn positions.

Their ranges are stated by `Entities.MotionOk` and `Pools.WaveOk`.
A random wave count in `[ENEMY_NO/2, ENEMY_NO)` or `[GIFT_NO/2, GIFT_NO)` is the length of the spawn sequence.
Positions are in `[80,100) x [1,49)`.

In four places the code behaves in a way a reader may not expect; the model follows the code:

- `playing_continue` clears only the enemy pool. The gift pool and its counter survive a resume.
- A picked-up gift stays active, so it scores again on every frame in which it touches the player.
- `nb_die` is never reset, not even by `restart`.
- `ENEMY_NO = 1` makes the enemy count range `[0, 1)`, so no enemy is ever spawned: a tick never spawns one (`Game.EnemiesNeverAppear`), and neither does any session of frames (`Game.EnemiesNeverAppearInRun`).
  Every death is therefore a fall (`Game.OnlyFallsKill`).
  For that reason the end-to-end run of three deaths (`Game.ThreeDeathsEndTheRun`) uses falls rather than enemy hits.

## Model

| member | source | states |
|---|---|---|
| `Entities.GravityAndMove` | src/main.rs:116-132 | a gravity step keeps the player's lane and advances the animation frame cyclically through the six entries of DRAGON_FRAMES, so indexing it is always safe |
| `Entities.NoTwoSquaresMakeThree` | src/main.rs:11-17 | no squared grid distance equals 3 |
| `Entities.HitsIffAdjacent` | src/main.rs:64-69 | both the enemy test (sqrt(d2) < 2.0) and the gift test (sqrt(d2) < 1.5) hold exactly when d2 <= 2, that is when the player's lane and truncated row are each within 1 of the entity |
| `Entities.CollisionExamples` | src/main.rs:84-89 | a player at (5, 25.0) hits an entity at (5, 25) and misses one at (5, 28) |
| `Pools.StepPool` | src/main.rs:193-210 | on a step every active entity moves left by exactly 1 and becomes inactive exactly when its new x <= 0; inactive entities are untouched; the counter drops by exactly the number of deactivations |
| `Pools.StepAllActiveCount` | src/main.rs:196-199 | the active count of a stepped pool is the old active count minus the deactivations, so a counter equal to the active count stays equal |
| `Pools.StepAllPlaced` | src/main.rs:60-62 | drifting keeps every active entity inside the band 0 < x < 100, 1 <= y < 49 |
| `Pools.Refill` | src/main.rs:234-255 | refilling clears the pool, pushes one new active entity per spawn position in order, and raises the counter by one per push |
| `Pools.SpawnedActiveCount` | src/main.rs:237-240 | after a refill the pool holds exactly as many active entities as were pushed |
| `Pools.SpawnedPlaced` | src/main.rs:19-24 | each entity of a wave starts active with x in [80,100) and y in [1,49), so the refilled pool lies inside the band |
| `Pools.EnemyWaveEmpty` | src/main.rs:236 | with ENEMY_NO = 1 the enemy count is drawn from [0, 1), so an enemy wave is always empty |
| `Pools.CountGiftHits` | src/main.rs:278-282 | the scoring loop counts exactly the active gifts that touch the player |
| `Pools.HitCountBounds` | src/main.rs:173-181 | the number of touching entities is at most the active count, and it is positive exactly when some active entity touches the player |
| `Quiz.CorrectKey` | src/main.rs:339-360 | exactly one key answers each question: B for the first and third, D for the second and fourth; any other key (labelled "null") is wrong |
| `Game.ResetsChangeNothingElse` | src/main.rs:377-394 | playing_continue resets the player to (5, 25) with frame 0, the accumulator to 0, the enemy pool and its counter, and the mode to Playing, and keeps score, life, level, deaths, rank and the gifts; restart also sets score 0, life 3 and level 1, and keeps deaths, rank and the gifts |
| `Game.MenuOnlyPlayOrQuit` | src/main.rs:402-408 | in Menu and End only P (restart) and Q (quit request) have an effect |
| `Game.PlayGatedByAccumulator` | src/main.rs:189-192 | while the accumulated time does not pass 75 ms the player does not move and the time keeps accumulating |
| `Game.SimulateKeepsPools` | src/main.rs:189-211 | a simulation step keeps each counter equal to its pool's active count and active entities on the band |
| `Game.RefillKeepsPools` | src/main.rs:234-255 | the refill of empty pools keeps each counter equal to its pool's active count and active entities on the band |
| `Game.PlayDeath` | src/main.rs:270-276 | in play the mode becomes Question exactly when the player fell below the bottom or an active enemy touches it; a death costs exactly one life and counts exactly one death, and otherwise life and deaths are unchanged; the life subtraction never underflows |
| `Game.PlayScoring` | src/main.rs:278-282 | the score grows by exactly the number of active gifts touching the player, at most the number of active gifts; scoring does not deactivate gifts or change their counter |
| `Game.PlayPreservesInv` | src/main.rs:187-283 | play keeps the invariant and never aborts |
| `Game.QuestionOutcome` | src/main.rs:322-370 | the quiz ends the run exactly when life is 0 and the question list is exhausted or the answer is wrong; with no key and a question left the state is unchanged; otherwise play resumes after playing_continue, with one more life exactly for a correct answer; the index subtraction never underflows |
| `Game.FirstQuestionAnsweredRight` | src/main.rs:339-362 | after the first death, the key B restores one life and resumes play with no enemies and the player at its start position |
| `Game.TickPreservesInv` | src/main.rs:435-442 | every tick keeps the invariant and never underflows: counters equal active counts, Playing implies life >= 1, Question implies nb_die >= 1, frame < 6, End implies life 0, life <= 3, rank stays 1 |
| `Game.RunPreservesInv` | src/main.rs:435-454 | every session of frames from a state satisfying the invariant keeps it and never aborts |
| `Game.EnemiesNeverAppear` | src/main.rs:7 | an empty enemy pool stays empty through every tick |
| `Game.EnemiesNeverAppearInRun` | src/main.rs:234-241 | an empty enemy pool stays empty through every session of well-formed frames |
| `Game.OnlyFallsKill` | src/main.rs:270 | while the enemy pool is empty, play kills exactly when the player is below the bottom |
| `Game.FallCostsALife` | src/main.rs:270-276 | with no enemies, a frame in which the player falls costs one life, counts one death and enters Question |
| `Game.AnsweringAIsWrong` | src/main.rs:341-369 | the key A answers no question: play resumes with life unchanged, or the run ends when life is 0 |
| `Game.RunConcat` | src/main.rs:435-442 | a session split in two continues from where its first part left off |
| `Game.FallThenWrongAnswer` | src/main.rs:270-369 | a fall followed by a wrong answer costs one life and ends the run exactly when it was the last life |
| `Game.WrongAnswersEndTheRun` | src/main.rs:324-368 | from play with L lives and a question left for each, L deaths each followed by a wrong answer take life to 0, add L deaths and end the run |
| `Game.ThreeDeathsEndTheRun` | src/main.rs:404 | from a fresh game, P and then three falls each answered wrongly take life from 3 to 0 and end the run with three deaths |
| `Machine.State.constructor` | src/main.rs:156-171 | a new state is in Menu with three lives, level 1, rank 1, empty pools and zero counters, and satisfies the invariant |
| `Machine.State.HitEnemy` | src/main.rs:173-181 | the result is true exactly when some active enemy touches the player |
| `Machine.State.PlayingContinue` | src/main.rs:388-394 | the new state is Game.PlayingContinue of the old one |
| `Machine.State.Restart` | src/main.rs:377-386 | the new state is Game.Restart of the old one |
| `Machine.State.MainMenu` | src/main.rs:396-409 | the new state and quit request are those of the menu keys, and the invariant is kept |
| `Machine.State.Dead` | src/main.rs:410-431 | the reward is 1 exactly when rank is 1, which the invariant makes always; keys as in the menu |
| `Machine.State.Advance` | src/main.rs:189-211 | the accumulator and the step update the fields as Game.Simulate says |
| `Machine.State.RefillEmptyPools` | src/main.rs:234-255 | each pool whose counter is 0 is refilled, as Game.RefillPools says |
| `Machine.State.Conclude` | src/main.rs:270-282 | the death test and gift scoring update the fields as Game.Resolve says |
| `Machine.State.Play` | src/main.rs:187-283 | play updates the fields as Game.Play says and keeps the invariant |
| `Machine.State.QuestionGate` | src/main.rs:285-376 | question updates the fields as Game.QuestionGate says and keeps the invariant |
| `Machine.State.Tick` | src/main.rs:435-442 | tick dispatches on the mode, updates the fields as Game.Tick says and keeps the invariant |

## Left out

- Rendering (`ctx.set`, `set_fancy`, `cls`, `print*`, the `render` methods and the ground strip of `play`) is left out: it holds no game state.
- `main`, `BTermBuilder` and `main_loop` are left out: they are library start-up. A quit request is the boolean `quit` that `Tick` returns.
- The two-second `thread::sleep` on death is left out. The death transition is instantaneous.
- The floating-point player physics is left out: `velocity`, the gravity increment and cap, `flap`, and the clamp of `y` at 0. The player's height appears only as its truncated row and the "below the bottom" test, both supplied by `Motion`.
  The Space key therefore has no modelled effect.
- The frame-time accumulator is a `real`, not an `f32`. Rounding of the sum and of the comparison with 75.0 is not modelled.
- The `sqrt` of `dist` is modelled as the exact comparison `d2 < t * t`. For the integer distances involved, the f32 result is on the same side of 2.0 and 1.5.
- Random numbers are inputs (spawn positions and wave lengths) constrained to the ranges that `gen_range` draws from.
- The question and option texts are left out. Only the expected labels and the count of four matter.
- Integers are unbounded: after 2^31 gift hits, `score += 1` (i32) panics in a debug build and wraps in a release build, and that is not modelled. `life` cannot overflow, because the invariant bounds it by 3.
- Machine.State.Conclude: requires `life >= 1` instead of reaching the u32 underflow. `Game.Resolve` models that underflow as `Panic`, and `Game.PlayDeath` proves that play never reaches it.
