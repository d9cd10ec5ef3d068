# Lane racer: a verified model of the game rules

`script.js` is a browser game. A car drives down a three-lane road and
dodges obstacles: cars, trucks, cones and oil patches. The player steps
the car between lanes with the arrow keys or A/D. Space pauses the run.
Enter or the start button starts a run once a car skin has been chosen.

Under the DOM, audio and timer code sits a small state machine over a
dozen module-level variables. This project models that state machine in
Dafny and proves what its handlers promise.

Two places where the code does less than one might
expect are modelled as written:

- The start button handler (`script.js:367-377`) checks only that a skin
  is chosen, not that no run is on. Clicking it during a run restarts the
  run.
- The lane keys (`script.js:335-340`) move the car whether or not a run is
  on or paused.

The model has three modules:

- `Rules` (`rules.dfy`) holds the pure rules:
  - the lane clamp;
  - the speed level reached from play time and score;
  - the spawn-timer period;
  - the obstacle table and the threshold chain that picks an entry from a
    random roll.
- `Enemies` (`enemies.dfy`) holds the obstacles and the two sweeps made
  over them each frame:
  - the exit sweep, which drops obstacles past the bottom of the road and
    credits their points;
  - the collision sweep, which removes the oil patches the car touches and
    stops with a crash at the first other obstacle it touches.
  
  Both sweeps are specified as recursive functions. The collision loop
  (`ScanCollisions`) is proved equal to its function. The module also
  proves what the sweeps keep, drop and credit.
- `Game` (`game.dfy`) holds the variables at `script.js:46-59` as the
  fields of the class `GameState`, with the handlers as methods.
  - `Valid()` is the invariant every handler keeps:
    - the lane is on the road;
    - the speed lies between 1 and the level the rules allow;
    - only a running game is paused;
    - a running game has a spawn timer whose period matches the speed.
    - every obstacle's points tag is its type's points, so the credit for
      an obstacle that leaves is always its table entry.
  - `View()` is a value snapshot of all the fields. It lets each
    postcondition say what changed and that nothing else did.

Time is integer milliseconds, so a speed level is gained per 6000 ms of
play. The caller supplies everything the browser provides:

- the random rolls;
- the clock value;
- each obstacle's new top;
- the boxes of the car and the obstacles;
- the road height.

## Model

| member | source | states |
|---|---|---|
| Rules.ClampLane | script.js:112-115 | the stored lane is always 0..2; an index already in range is kept; anything below goes to 0 and anything above to 2 |
| Rules.ClampLaneIdempotentMonotone | script.js:113 | clamping twice equals clamping once, and clamping preserves the order of indices |
| Rules.LaneStep | script.js:335-340 | a left step from lane 0 and a right step from lane 2 leave the car in place; any other step moves it exactly one lane |
| Rules.SpeedLevel | script.js:244-254 | the speed level is always in 1..10, never above 1 plus the whole 6-second periods plus the whole 120-point blocks, and equal to that sum whenever it is below 10, so it is the smaller of 10 and the sum |
| Rules.SpeedLevelMonotone | script.js:245-249 | the level never drops while play time and score do not drop |
| Rules.SpeedLevelSaturates | script.js:245-249 | from 54 s of play or 1080 points on, the level is 10 |
| Rules.SpawnInterval | script.js:285 | the spawn period is at least 360 ms, and for speeds 1..10 it lies in 370..775 ms |
| Rules.SpawnIntervalOnLevels | script.js:285 | on levels 1..10 the 360 ms floor never applies, and each level up shortens the period by exactly 45 ms |
| Rules.PickObstacleType | script.js:166-178 | the pick is always one of the four table entries |
| Rules.TypeOf | script.js:19-44 | each kind maps to a table entry of that kind |
| Rules.TypeOfUnique | script.js:19-44 | no other entry of the table has that kind, so the entry of a kind is the only one |
| Rules.BandsTileUnitInterval | script.js:166-178 | the threshold bands tile [0, 1) without gaps: 55% cars, 20% trucks, 15% cones, 10% oil |
| Rules.PickObstacleTypeBands | script.js:166-178 | for a roll in [0, 1), a kind is picked iff the roll lies in that kind's band (both directions) |
| Rules.PickObstacleTypeMonotone | script.js:166-178 | a larger roll never picks an earlier entry of the table |
| Rules.SpawnLane | script.js:184 | the spawn lane is in 0..2 and is the roll scaled by three, rounded down |
| Enemies.SpawnedEnemy | script.js:180-193 | a new obstacle has the picked kind, lies in a lane on the road, starts at top -140, and its points tag is its type's points |
| Enemies.HasExited | script.js:209 | an obstacle has left the road once its top is more than 140 px below the road height |
| Enemies.Survivors | script.js:203-216 | the list the exit sweep keeps: the obstacles still on the road, in their order; never longer than the list swept |
| Enemies.ExitPoints | script.js:209-212 | the points the exit sweep credits: for each obstacle that left, its points tag, or 10 when it carries none |
| Enemies.MoveTo | script.js:204-206 | every obstacle gets its new top, and nothing else about it changes |
| Enemies.ExitSweepPartition | script.js:202-217 | the obstacles that stay and those that left together make up the list exactly (as a multiset, so lengths add up), and the points credited are exactly those of the obstacles that left |
| Enemies.ExitSweepSides | script.js:209 | every survivor is still on the road, and every obstacle that left is past road height + 140 |
| Enemies.SurvivorsKeepStaying | script.js:209-214 | no obstacle still on the road is ever removed |
| Enemies.SurvivorsAppend | script.js:202-217 | the sweep acts on each part of the list on its own, so survivors keep their relative order and the credited points add up |
| Enemies.ExitSweepNothingGone | script.js:209 | with nothing past the exit line, the list is unchanged and nothing is credited |
| Enemies.SurvivorsTagged | script.js:202-217 | moving obstacles and dropping those that left keeps every points tag equal to its type's points, and the credit of the sweep is then the table points of exactly the obstacles that left |
| Enemies.ExitPointsFromTable | script.js:209-212 | on obstacles tagged with their type's points the 10-point default never applies: the credit is the sum of the table points of the obstacles that left |
| Enemies.Overlaps | script.js:223-227 | the hit test: each edge of the obstacle's box lies more than 10 px inside the opposite edge of the car's box, on all four sides at once, so the obstacle meets the car's box shrunk by 10 px on every side |
| Enemies.CollisionSweep | script.js:220-241 | the sweep from the front: a touched oil patch is removed and reported and the sweep goes on; the first other touched obstacle stops it with a crash; the list kept is never longer than the list swept |
| Enemies.OverlapsIsShrunkIntersection | script.js:223-227 | the overlap test is box intersection against the car's box shrunk by 10 px; an obstacle whose bottom is at or above the car's top + 10, or whose top is at or below the car's bottom - 10, never overlaps |
| Enemies.FirstBlockIsFirst | script.js:229-238 | the crash position is the first touched obstacle other than oil, and no obstacle before it blocks |
| Enemies.CollisionSweepClosedForm | script.js:219-242 | with k the first blocking obstacle: a crash iff one exists; the list keeps everything from k on and everything before k except touched oil; oil is reported iff touched oil lies before k |
| Enemies.CollisionSweepCrashIff | script.js:229-241 | the check reports a crash iff some touched obstacle is not oil; otherwise it returns false |
| Enemies.CollisionSweepNoCrash | script.js:229-241 | without a blocking obstacle the scan runs to the end, removes every touched oil patch, and reports oil iff one was touched |
| Enemies.CollisionSweepRemovesOnlyHitOil | script.js:229-236 | no obstacle other than oil is ever removed, and the others stay in order; what is removed is a sub-multiset of the list made only of touched oil patches |
| Enemies.CollisionSweepTagged | script.js:229-236 | removing oil patches keeps every remaining obstacle's points tag equal to its type's points |
| Enemies.CollisionScanMatchesSweep | script.js:223-241 | continuing the scan from any position finishes exactly what the sweep of the remaining obstacles does |
| Enemies.ScanCollisions | script.js:219-242 | the loop, walking the list as it stood when the scan began and splicing touched oil out of the working list, returns exactly the crash flag, list and oil flag of the sweep |
| Game.Started | script.js:293-303 | a start gives a valid state that is running and not paused, with the best score and skin kept and the spawn timer reinstalled once |
| Game.TogglePause | script.js:305-309 | the pause key keeps the invariant, never changes `running`, and changes nothing when no run is on |
| Game.TogglePauseTwice | script.js:305-309 | pausing twice restores the state |
| Game.Ended | script.js:321-332 | ending a run stops and unpauses it and clears the timer; best becomes max(best, score), so it never decreases; score and obstacles are kept |
| Game.EndedIdempotent | script.js:321-332 | ending an ended run changes nothing |
| Game.SpeedUpdated | script.js:244-254 | the variables after the speed update: elapsed advanced by the step, the speed at the rule's level, and the spawn timer reinstalled only when the level changed; nothing else differs |
| Game.EnemiesMoved | script.js:202-217 | the variables after the exit sweep: the survivors of the moved list stored and the exit points added to the score; nothing else differs |
| Game.EnemiesMovedValid | script.js:202-217 | the exit sweep keeps the invariant (the score only grows and the remaining obstacles keep their tags), and it credits the table points of the obstacles that left |
| Game.CollisionChecked | script.js:219-242 | the variables after the collision check: the list the sweep leaves stored, and the slow-down deadline set to now + 1800 when oil was hit; nothing else differs |
| Game.Advanced | script.js:268-276 | a frame of a run that is on and not paused applies the speed update, the exit sweep and the collision check in that order |
| Game.GameState.constructor | script.js:46-59 | the page-load state: lane 1, not running, score 0, speed 1, best from storage, no obstacles, no skin, no timer; it satisfies the invariant |
| Game.GameState.SetCarLane | script.js:112-115 | the stored lane is the clamped index |
| Game.GameState.ChooseSkin | script.js:132-138 | clicking a skin records it and changes nothing else |
| Game.GameState.ResetGame | script.js:144-154 | obstacles cleared; score, elapsed and slowUntil 0; speed 1; lane 1; all else untouched |
| Game.GameState.StartSpawning | script.js:281-291 | the timer is (re)installed with the period of the current speed, counted once |
| Game.GameState.StartGame | script.js:293-303 | the new state is `Started` of the old one, so score 0, speed 1, elapsed 0, slowUntil 0, lane 1, no obstacles, running and not paused |
| Game.GameState.PauseGame | script.js:305-319 | the new state is `TogglePause` of the old one |
| Game.GameState.EndGame | script.js:321-332 | the new state is `Ended` of the old one |
| Game.GameState.HandleKeydown | script.js:334-358 | the lane keys step the clamped lane (running or not); Space toggles the pause; Enter starts a run only when none is on and a skin is chosen; other keys change nothing |
| Game.GameState.StartButtonClick | script.js:367-377 | the button starts a run iff a skin is chosen, and otherwise changes nothing |
| Game.GameState.SpawnTick | script.js:287-290 | a timer tick appends one spawned obstacle iff a run is on and not paused, and changes nothing else |
| Game.GameState.UpdateSpeed | script.js:244-254 | elapsed grows by the step; the speed is the rule's level, never drops, and restarts the timer exactly when it changes; nothing else changes |
| Game.GameState.UpdateEnemies | script.js:202-217 | walking from the back and splicing in place leaves exactly the survivors of the moved list and adds exactly the exit points, which are the table points of the obstacles that left, to the score; nothing else changes and the invariant is kept |
| Game.GameState.CheckCollision | script.js:219-242 | the result, the remaining obstacles and the slow-down deadline (now + 1800 iff oil was touched, else unchanged) are those of the collision sweep; nothing else changes |
| Game.GameState.Frame | script.js:256-279 | a frame changes nothing unless a run is on and not paused; otherwise the new state is `Advanced` of the old one (elapsed time advanced, speed at the rule's level with the timer restarted when it changes, exit points added, the collision sweep's list stored, the slow-down deadline set on oil), the result is the sweep's crash flag, and on a crash that state is ended with the best score raised; lane, skin and pause are untouched |

## Left out

- DOM access, overlay text, skin rendering and `applySkin`: these are user interface only. A skin is kept as a value of `Skin`.
- The Web Audio helpers and the `audioEnabled`/`audioCtx` variables: these are a foreign API with no effect on the rules.
- `localStorage`: the stored best score is a constructor parameter. Writing it back is not modelled.
- `requestAnimationFrame`, `setInterval` and `clearInterval`, `frameId` and `gameLoop.lastTime`: scheduling belongs to the host. The spawn timer is its period plus a count of reinstalls. A timer tick is `SpawnTick` and a frame body is `Frame`.
- `getObstacleSpeed`, the 0.05 s clamp on the frame step and parsing the px value of `style.top`: this is floating-point motion. The caller supplies each obstacle's new integer top, and the frame step as a non-negative number of milliseconds.
- `Math.random` and `Date.now()`: the rolls and the current clock value are parameters.
- Rules.SpawnLane: the roll times three is taken as an exact real before rounding down. JavaScript rounds that product to a double first, so the model does not capture that the rolls 0.3333333333333333 and 0.6666666666666666 land one lane further right in the browser.
- `getBoundingClientRect`: the caller supplies boxes as integer rectangles through `boxOf`.
- The obstacle types' `speedMul` only feeds the motion left out above. It is kept in the table but not used.
- Game.GameState.CheckCollision: the source reassigns `enemies` and writes `slowUntil` in the middle of its loop. The model builds both in locals and stores them when the scan ends. Nothing reads them in between, so the outcome is the same. All oil hits of one check share one clock value.
- Game.GameState.UpdateSpeed: the frame step is whole milliseconds (`nat`), not fractional seconds.
