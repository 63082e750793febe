# Road Rage Royal — a verified model of the game's core

Road Rage Royal is a turtle-graphics arcade game. The player steers a small car up a field while batches of 40×20 blocks drive in from the right. Reaching the goal line above the top boundary wins a level and makes the blocks faster and denser. Touching a block ends the run, and the player is asked whether to play on.

This project models the rules behind the graphics:
- the block manager: spawning, moving, wrecking, reset and difficulty escalation;
- the two generations of spawn and collision helpers;
- the current and the older player;
- the game's tick loop and restart logic;
- the older car manager;
- the screen's boundary arithmetic.

Randomness is an input. Each `randint(lo, hi)` takes an arbitrary integer draw `v` and yields `lo + (v - lo) mod (hi - lo + 1)` (`Random.RandInt`). This is the identity on `[lo, hi]`, so every outcome the program can produce is reachable. `sample` takes one index draw per pick from the shrinking pool.

The older `create_block_batch` keeps drawing until it has accepted enough spaced values. It is modelled over a finite sequence of draws:
- `LegacyHelpers.Accept` returns `None` when the draws run out first.
- The block manager requires enough draws (`Blocks.CanSpawn`) when a batch is due.
- `Main.Game.Run` stops with `Stalled` at a frame whose draws are not enough.

The game between two frames is also a value, `Main.State`. `Main.RunOf` defines a run on it frame by frame and `Main.PlayOf` a sequence of runs with the restart prompt. The `Main.Game` methods are proved to follow them.

Coordinates are integers, as in the program and its tests. `speed`, `x_gap` and `y_gap` are exact reals, so the ×0.95 steps are exact. `int()` on a float is `Screen.Trunc`, truncation toward zero.

Modules, one per source file:

| module | source |
|---|---|
| `Screen` | `src/screen.py` (boundaries) and the root `screen.py` constants |
| `Shapes` | block size, the collision boxes and the overlap predicate shared by both helper files |
| `Helpers` | `src/helpers.py` |
| `LegacyHelpers` | `helpers.py` |
| `Blocks` | `block_manager.py` |
| `Cars` | `car_manager.py` |
| `Players` | `src/player.py` |
| `LegacyPlayer` | `player.py` |
| `Main` | `src/main.py` |
| `Wrappers`, `Seqs`, `Random` | `Option`, sequence predicates, the draw oracle |

Where the code and its tests, comments or documentation differ, the model follows the code:
- `reset` restores batch bounds and speed but leaves `x_gap` and `y_gap` at their escalated values (block_manager.py:111-119). The test at test_block_manager.py:188-193 checks values that hold only if they are restored.
- The current helper's candidate y-values stop strictly below `top - 12`, because `range` excludes its stop (src/helpers.py:47). The band is `[bottom + 12, top - 12)`, not a closed interval.
- `player.py:2` says the up key moves 20 px, but `MOVE_DISTANCE` is 10 (player.py:3). The model uses 10.

## Model

| member | source | states |
|---|---|---|
| Random.RandInt | helpers.py:44 | a draw for `randint(lo, hi)` lies in `[lo, hi]`, and every value of `[lo, hi]` is the outcome of the draw equal to it |
| Screen.Trunc | src/screen.py:36-39 | `int()` of a float truncates toward zero: below a non-negative value by less than 1, above a negative one by less than 1 |
| Screen.NewGameScreen | src/screen.py:27-39 | width, height and title are kept; top = trunc(h/2 − 50), bottom = trunc(−h/2 + 60), left = trunc(−w/2) + 2, right = trunc(w/2) − 4; for even sizes these are h/2 − 50, 60 − h/2, 2 − w/2, w/2 − 4 |
| Screen.DefaultBoundaries | src/screen.py:29-39 | the default 600×600 field has top 250, bottom −240, left −298, right 296 |
| Screen.VerticalOrder | src/screen.py:36-37 | the bottom boundary is below the top one exactly when the height is at least 111 |
| Screen.HorizontalOrder | src/screen.py:38-39 | the left boundary is left of the right one exactly when the width is at least 8 |
| Shapes.Hits | src/helpers.py:65-82 | a block hits the player iff the centres are strictly closer than w/2 − 2 + 20 in x and h/2 − 2 + 10 in y: the four strict edge comparisons of the 2-px-shrunk player box against the 40×20 block box |
| Shapes.OverlapSymmetric | src/helpers.py:76-81 | the strict box-overlap test does not depend on which box is the player's |
| Shapes.Column | src/helpers.py:51 | one pair per y-value, all at the given x, in the order of the y-values |
| Shapes.DocumentedCollisionCases | src/helpers.py:54-83 | an empty container never collides; a 15×30 player at (0, −265) hits a block at (0, −265) but not blocks at (0, 0) or (50, 100); a player at (0, 0) hits a block at (5, 5) |
| Helpers.RandomColor | src/helpers.py:10-19 | a returned colour has components in [0, 255] and is not near-white (all three ≥ 220); it is the first acceptable draw; a colour is returned iff some draw is acceptable |
| Helpers.Range | src/helpers.py:47 | Python's `range(start, stop, step)`: starts at start, successive elements differ by step, all lie strictly before stop, empty iff start is already at or past stop, the element after the last would reach stop |
| Helpers.RangeSpaced | src/helpers.py:47 | with a positive step, any two candidates are at least one step apart |
| Helpers.RangeDistinct | src/helpers.py:47 | a range has no duplicate values |
| Helpers.RangeDescending | src/helpers.py:47 | with a negative step, later elements are strictly smaller |
| Helpers.Candidates | src/helpers.py:47 | the candidate y-values `range(bottom + 12, top − 12, int(y_gap))` are pairwise distinct |
| Helpers.Sample | src/helpers.py:49 | `sample(pool, k)` yields exactly k values taken from the pool, each at most as often as it occurs there |
| Helpers.SampleFromPool | src/helpers.py:49 | a sample from a duplicate-free pool is duplicate-free and consists of pool members |
| Helpers.CreateBlockBatch | src/helpers.py:22-51 | at most `batch_max` pairs and at least `batch_min` unless all candidates were taken (the count is clamped to the candidates); every pair has x = x_genesis and a candidate y; no two share a y |
| Helpers.RangeMembersSpaced | src/helpers.py:47 | two different elements of an ascending range differ by at least the step |
| Helpers.CandidatesSpacedAndBounded | src/helpers.py:47 | candidates lie in [bottom + 12, top − 12) and two different ones are at least int(y_gap) apart |
| Helpers.BatchSpacedAndBounded | src/helpers.py:45-51 | a batch's y-values lie in [bottom + 12, top − 12) and are pairwise at least int(y_gap) apart |
| Helpers.CheckCollision | src/helpers.py:54-83 | the scan with early return answers true iff some block of the container hits the player |
| LegacyHelpers.RandomColor | helpers.py:14-20 | every component lies in [0, 255] |
| LegacyHelpers.RandomColorCoversAll | helpers.py:20 | every colour, white included, can be returned: there is no rejection |
| LegacyHelpers.AcceptSound | helpers.py:45-53 | a finished rejection loop extends the accepted values to exactly the target count, keeps them in the band [−228, 238] and pairwise strictly more than the gap apart, and adds them in the order drawn |
| LegacyHelpers.AcceptExtends | helpers.py:45-53 | a finished rejection loop keeps the values accepted so far as a prefix and ends with exactly the target count of values, or with the values it had when there were already enough |
| LegacyHelpers.AcceptKeepsSpaced | helpers.py:48-53 | a value is kept only when it is strictly more than the gap away from every kept value, so the kept values stay pairwise spaced and inside the band |
| LegacyHelpers.AcceptKeepsOrder | helpers.py:48-53 | the values the loop adds are drawn values, in the order they were drawn |
| LegacyHelpers.EmptyBatchNeedsNoDraws | helpers.py:44-47 | a drawn count of zero or less ends the loop at once with an empty batch |
| LegacyHelpers.BatchOfSound | helpers.py:23-55 | a finished batch has at most `batch_max` and at least `batch_min` pairs, all at x_genesis, with y-values in the band and pairwise strictly more than the gap apart |
| LegacyHelpers.CreateBlockBatch | helpers.py:23-55 | the while loop yields the batch the rejection-loop function defines, with the size, x, band and spacing guarantees |
| LegacyHelpers.CheckCollision | helpers.py:58-85 | the for-loop scan answers true iff some block hits the player |
| Blocks.FieldEdges | block_manager.py:37-39 | the genesis x is 320 and the wrecking x is −320 |
| Blocks.EscalationKeepsInvariants | block_manager.py:121-130 | escalation keeps 0 ≤ batch_min ≤ batch_max, shortens the tick interval, never widens a gap, and widens the batch range only for levels 3 to 6 |
| Blocks.EscalationFromDefaults | block_manager.py:121-130 | from the defaults, levels 2, 4, 5 and 7 give speed 0.19 with batch_max 3/4/4/4, batch_min 0/0/0/1 and gaps 80/80/76/76 and 25/25/23.75/23.75; two level-5 escalations give x_gap 72.2 |
| Blocks.ResetKeepsGaps | block_manager.py:111-119 | after a level-7 escalation, a reset restores 0.2, 3 and 0 but keeps the gaps at 76 and 23.75 |
| Blocks.Placed | block_manager.py:78-86 | one block per coordinate pair, at that pair, in order |
| Blocks.Moved | block_manager.py:93-95 | every block's x is lowered by the distance; y, count and order are unchanged |
| Blocks.Wrecked | block_manager.py:109 | every kept block is at or right of the wrecking x |
| Blocks.WreckedKeepsExactlyInOrder | block_manager.py:109 | the kept blocks are exactly those with x ≥ the wrecking x, each as often as before, in their original order |
| Blocks.WreckedKeepsAllIffOnField | block_manager.py:103-109 | wrecking drops nothing iff every block is at or right of the wrecking x |
| Blocks.WreckBoundary | block_manager.py:105-109 | a block at x = −320 stays and one at −321 is removed |
| Blocks.WreckedSnoc | block_manager.py:109 | wrecking a field with one more block at the end decides that block after all the others |
| Blocks.RightmostX | block_manager.py:62 | the maximum x of a non-empty field: some block has it and none exceeds it |
| Blocks.MovedRightmost | block_manager.py:93-95 | moving the field moves its rightmost x by the same distance |
| Blocks.BatchThreshold | block_manager.py:52-64 | with the default gap of 80, a rightmost block at x = 240 holds the next batch back, one at 239 lets it through, and an empty field always gets one |
| Blocks.AddOnlyAppends | block_manager.py:43-70 | `add_blocks` only appends: old blocks keep place and order, a due batch adds between `batch_min` and `batch_max` blocks, and the field is unchanged when no batch is due |
| Blocks.AddedBlocksSpaced | block_manager.py:52-70 | the blocks of a new batch sit at the genesis x, in the band, and pairwise strictly more than the y-gap apart |
| Blocks.UpdateOfEmptyField | block_manager.py:132-136 | an update of an empty field leaves only the fresh batch, all of it at x = 320 |
| Blocks.UpdateKeepsMovedHead | block_manager.py:132-136 | a first block still on the field after its move stays first in the updated field, moved |
| Blocks.BlockManager.constructor | block_manager.py:22-41 | speed 0.2, move distance 5, batch bounds 3 and 0, gaps 80 and 25, genesis 320, wrecking −320, then the first batch on the empty field |
| Blocks.BlockManager.AddBlocks | block_manager.py:43-70 | the new field is the old one plus a drawn batch exactly when the field is empty or its rightmost x is strictly below genesis − x_gap |
| Blocks.BlockManager.RenderBlocks | block_manager.py:72-86 | appends one block per coordinate, at that coordinate, in order, after the existing ones |
| Blocks.BlockManager.MoveBlocks | block_manager.py:88-95 | the loop moves every block left by the move distance |
| Blocks.BlockManager.WreckBlocks | block_manager.py:97-109 | the rebuilt field keeps exactly the blocks at or right of the wrecking x, in order |
| Blocks.BlockManager.Reset | block_manager.py:111-119 | the field is empty; speed and batch bounds are back at 0.2, 3, 0; the gaps stay |
| Blocks.BlockManager.IncreaseDifficulty | block_manager.py:121-130 | speed × 0.95 always; batch_max + 1 from level 3; both gaps × 0.95 from level 5; batch_min + 1 from level 7 |
| Blocks.BlockManager.UpdateBlocks | block_manager.py:132-136 | move, then add, then wreck; afterwards no block is left of the wrecking x |
| Blocks.EscalateThenReset | block_manager.py:111-130 | a fresh manager escalated at level 7 has 0.19, 4, 1, 76, 23.75; a reset then gives 0.2, 3, 0, 76, 23.75 |
| Cars.AddCarsOnlyAppends | car_manager.py:28-38 | `add_cars` only appends one car per generated y at x = 320, and only when the field is empty or its rightmost x is strictly below 240 |
| Cars.AddCarsThreshold | car_manager.py:34-38 | a rightmost car at x = 240 holds the next batch back; one at 239 lets it through |
| Cars.CarManager.constructor | car_manager.py:12-26 | speed 0.2, move distance 5, batch max 3, gap 80, genesis 320, deletion −320, then the first batch on the empty field |
| Cars.CarManager.AddCars | car_manager.py:28-38 | the new field is the old one plus the generated batch exactly when a batch is due |
| Cars.CarManager.GenCarPositions | car_manager.py:40-48 | one position per generated y, at the genesis x, in order |
| Cars.CarManager.RenderCars | car_manager.py:50-59 | appends one car per position, at that position, after the existing cars |
| Cars.CarManager.MoveCars | car_manager.py:61-65 | every car moves 5 px left; y, count and order are unchanged |
| Cars.CarManager.WreckCars | car_manager.py:67-72 | as written, the field is unchanged |
| Cars.CarOutlivesWreck | car_manager.py:61-72 | a car spawned at y = 0 and moved 129 times sits at x = −325, past the deletion x, and survives `wreck_cars`, although the block manager's wreck step drops it |
| Players.StepDown | src/player.py:50-58 | a down move either lowers y by the step or, when that would pass bottom + height/2, changes nothing; it goes through whenever the target is on or above that floor |
| Players.StepRight | src/player.py:60-68 | a right move either adds the step or, past right − width/2, changes nothing; it goes through whenever the target is within |
| Players.StepLeft | src/player.py:70-78 | a left move either subtracts the step or, past left + width/2, changes nothing; it goes through whenever the target is within |
| Players.HorizontalMovesStayInside | src/player.py:60-78 | a player between the side limits stays between them after a left or right move |
| Players.DownMoveStaysAboveFloor | src/player.py:50-58 | a player on or above the floor stays there after a down move |
| Players.DefaultFieldGuards | src/player.py:55-78 | on the default field, down from y = −265, right from x = 296 and left from x = −298 are refused; ordinary moves go through |
| Players.Player.constructor | src/player.py:15-40 | the player starts at its start position as a car, and keeps size, step, heading and the screen's four boundaries |
| Players.Player.MoveUp | src/player.py:42-48 | y grows by the step with no bound; x is unchanged |
| Players.Player.MoveDown | src/player.py:50-58 | y follows the guarded down step; x is unchanged |
| Players.Player.MoveRight | src/player.py:60-68 | x follows the guarded right step; y is unchanged |
| Players.Player.MoveLeft | src/player.py:70-78 | x follows the guarded left step; y is unchanged |
| Players.Player.ResetPosition | src/player.py:80-82 | back at the start position from anywhere |
| Players.Player.Reset | src/player.py:84-87 | back at the start position and back to the car sprite |
| Players.Player.UpdateShape | src/player.py:105-107 | the sprite becomes the given one |
| Players.DownFromStartIsRefused | src/player.py:50-58 | a default player asked to move down from its start stays at (0, −265) |
| LegacyPlayer.Player.constructor | player.py:8-14 | the older player starts at (0, −270) facing 90° |
| LegacyPlayer.Player.MoveUp | player.py:16-18 | y grows by 10 with no bound |
| LegacyPlayer.Player.LevelUp | player.py:20-21 | back at (0, −270) from anywhere |
| LegacyPlayer.Climb | player.py:16-21 | n up moves from the start give y = −270 + 10n at x = 0, and a level-up returns to (0, −270) |
| Main.GoalFromStart | src/main.py:85-87 | the goal test `y > top + 10` on the default field is passed after 53 up moves from the start, not after 52 |
| Main.KeysKeepPlayerOnField | src/main.py:65-74 | no key press takes a player that is between the side limits and above the floor out of that area, each key moves along one axis, and none lowers y by more than one step |
| Main.Lower | src/main.py:103 | lower-casing keeps the length and lower-cases each ASCII capital |
| Main.AskRestart | src/main.py:97-103 | play on exactly when the answer is `y` or `Y`; a missing or empty answer means no |
| Main.Game.constructor | src/main.py:13-23 | default screen, player at the start as a car, the block manager with its first batch, level 1, the stored highscore, running |
| Main.Game.Press | src/main.py:65-74 | each key runs the bound move of the player |
| Main.Game.PressAll | src/main.py:65-74 | the key presses between two frames take effect one after the other, in order, and change only the player's position |
| Main.Game.LevelUp | src/main.py:89-95 | level + 1, highscore = max(old, new level), player at the start, difficulty escalated for the new level |
| Main.Game.HandleCollisions | src/main.py:80-83 | the explosion sprite is shown and the game stops running |
| Main.JudgedOutcomes | src/main.py:49-54 | the end-state tests have exactly three outcomes: a crash on a collision that only shows the explosion and stops the run; without one, a level-up by one past the goal that puts the player at the start and the new level in the highscore; or no change |
| Main.RunFromPromises | src/main.py:35-54 | over any frames, levels and the highscore never go down, a level gained is in the highscore, only a crash stops a running game and it shows the explosion, a stopped game plays no frame, and a run ends at one of its own frames |
| Main.PlayFrom | src/main.py:25-33 | play runs at least one session when one remains and never more runs than there are sessions |
| Main.PlayFromAnswers | src/main.py:27-33 | every run of play before the last was followed by a yes |
| Main.PlayFromDeclined | src/main.py:30-31 | a declined play ended on a no to its last run |
| Main.PlayFromStops | src/main.py:25-63 | play on a running game never lowers the highscore, and ends declined exactly when it leaves the game stopped |
| Main.Game.CheckEndStates | src/main.py:49-54 | a crash iff some block hits the player; the new game state is the end-state tests' result on the old one |
| Main.Game.Step | src/main.py:43-54 | the blocks are updated before the collision test, which sees the updated field; the new game state is the frame's result on the old one |
| Main.Game.Run | src/main.py:35-54 | the outcome and the game afterwards are those of `RunOf` on the game before: per frame the key presses, the block update, the collision test and only then the goal test, until the first crash |
| Main.Game.Reset | src/main.py:56-63 | empty field with restored batch settings, the player at the start as a car, level 1, running; the highscore stays |
| Main.Game.PlayRound | src/main.py:27-33 | one pass of play's loop either ends play as `PlayFrom` does at this session or leaves a running game from which `PlayFrom` goes on at the next session |
| Main.Game.Play | src/main.py:25-33 | the number of runs, how play ended and the game afterwards are those of `PlayOf` on the game before |
| Main.ClimbToGoal | src/main.py:56-74 | after a restart and 53 up presses the player is at (0, 265) on an empty field with the default settings, at level 1 and running |
| Main.DashToGoal | src/main.py:43-54 | after a restart, 53 up presses and one frame give level 2, the player back at the start, highscore max(stored, 2), and speed 0.19 |
| Main.CollisionBeatsGoal | src/main.py:49-54 | a player past the goal line with a block on its position crashes and stays at level 1 |

## Left out

- Rendering, colours on screen, sprites, `hideturtle`/`clear`, screen updates, `time.sleep`, key binding and the text prompt. The model keeps only coordinates and state. The prompt's answer and every random draw are inputs.
- `collision_animation` is modelled only by its effect on the player's sprite (`Main.Game.HandleCollisions`). The one-second pause is left out.
- The colour a block or car is drawn in is not part of the model's state. Both `random_color` functions are modelled on their own.
- Highscore persistence (`highscore_db.py`: sqlite, the singleton, the lock) is left out. The highscore is an integer that a level-up raises to max(old, new level), and its initial value is a parameter.
- The scoreboard's text rendering is left out. Its level is an integer that starts at 1 and is reset to 1.
- `src/block_manager.py`, `src/scoreboard.py` and the `Block` class are not part of this model. The game is modelled with `block_manager.py` and the 40×20 block size it renders.
- `gen_ran_y`, which `car_manager.py` imports, is not part of this model. Its result is the `ys` parameter of the car manager's methods.
- Concurrency between key callbacks and the tick loop is left out. Key presses take effect atomically between frames.
- Float rounding is left out. Reals are exact, so 0.2 × 0.95 is exactly 0.19. `int()` is truncation toward zero (`Screen.Trunc`), applied to the exact values; the rounding of the ×0.95 products is not modelled.
- Python's `str.lower` on non-ASCII text is left out. No character other than `Y` lowercases to `y`, so the restart decision is unaffected.
- The getters `get_xcor`, `get_ycor`, `get_width` and `get_height` are plain field reads (`Players.Player.GetX` and the others) and carry no contract.
- Helpers.RandomColor: the rejection loop is unbounded in the program. The model draws from a finite sequence and returns `None` when every draw is near-white.
- Helpers.CreateBlockBatch: requires `0 <= batch_min`, and enough index draws for `batch_max` picks. With a negative minimum, `sample` can be asked for a negative count and raise. That error path is not modelled.
- LegacyHelpers.CreateBlockBatch: the program's loop has no bound and ends only when enough spaced values were accepted. The model returns `None` when its finite draws run out first, and callers require draws that suffice.
- Blocks.BlockManager.AddBlocks: requires that the draws suffice when a batch is due (see above).
- Blocks.BlockManager.UpdateBlocks: requires that the draws suffice when a batch is due (see above).
- Main.Game.Run: stops with `Stalled` at a frame whose draws do not suffice, where the program would go on drawing. It also stops with `OutOfTicks` when the frames run out.
- Main.Game.Play: stops when a run ends without a crash, because the input ran out. It requires a running game, as the program's game is when `play` starts.

## Findings

| source | as written | input that shows it | evidently intended | confidence | as-written member | corrected member |
|---|---|---|---|---|---|---|
| car_manager.py:67-72 | `del car` only unbinds the loop variable, so `wreck_cars` never removes a car | one car spawned at y = 0 and moved 129 times, now at x = −325, is still in the container after `wreck_cars` | cars left of x = −320 are dropped, as the later `wreck_blocks` does by rebuilding the list | high; not executed | Cars.CarOutlivesWreck | Blocks.BlockManager.WreckBlocks |
