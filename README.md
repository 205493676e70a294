# slide-plane: the game loop, in Dafny

slide-plane is a Phaser side-scroller. The player steers an airplane up and down with the
cursor while crates, pursuing cat planes and power-up pickups scroll in from the sides. A
pickup arms an automatic weapon (bullets, rockets or a laser) for five seconds. Crashing
costs a life; three crashes end the run. Passing a crate is worth 50 points, shooting one
down 100, and surviving 10 points per second.

This project models the simulation core of that game and proves properties of it:

- the score and lives tracker, with its high score that only rises and is written to storage;
- the power-up fire gate: an active type, its remaining time, and a fire timer compared with
  a per-type rate, both as the stand-alone controller and as the copy inside the power-up
  manager;
- the four spawners (crates, cat planes, pickups, mountains), with their timers, difficulty
  ramp and list filtering;
- the entity life cycles: the airplane, crates, cat planes, pickups, projectiles and mountains;
- the event bus, a map from event name to an ordered list of callbacks, with a trace that
  records every emit and the callbacks it ran;
- the collision geometry: centred body boxes and the engine's axis-aligned intersection test;
- the game scene's frame: the early-return guard, the fixed update order, the five collision
  sweeps, passed crates, auto-fire, game over, restart and pointer input.

Every class whose fields the game changes in place is a Dafny `class`. Each method states the
new state in its `ensures`, and `Valid()` predicates carry the managers' invariants. The
pure parts are functions with lemmas about them:

- the follow and chase step;
- the bounce;
- the spawn interval after n levels;
- the sequences of emits that lost lives, collected pickups and awards produce;
- the score after n kills.

Every random draw (`Math.random`, `Phaser.Math.Between`, `FloatBetween`) is a parameter
`u` with `0 <= u < 1`. `Between(min, max)` is `floor(u * (max - min + 1) + min)` and
`FloatBetween(min, max)` is `u * (max - min) + min`. The physics engine moves every body by
its velocity between frames; the model leaves that integration out, so `x` and `y` change only
where the game's own code sets them (the airplane's follow step and a cat plane's chase set
`y`) and are otherwise the positions the frame starts from. Lengths and times are exact `real`s; score and lives are `int`s and use `.Floor`
where the game calls `Math.floor`.

The JavaScript array semantics the game relies on live in `JsArray`:

- `indexOf` + `splice` removes the first occurrence of an element (`RemoveFirst`);
- `filter` keeps the elements of a set, in order (`Filter`);
- a `forEach` whose callback removes the current element from the array being iterated
  skips the element after each removed one (`SpliceSweep`, with the removed elements in
  `SpliceHits`).

The scene's sweeps are proved equal to `SpliceSweep` over the set of entities whose boxes
overlap, so the skipping is part of the model.

Files: `types.dfy` (enums and payloads), `constants.dfy`, `phaser_math.dfy`, `chase.dfy`,
`collision.dfy`, `js_array.dfy`, `event_bus.dfy`, one file per entity and manager, and
`game_scene.dfy`.

## Model

| member | source | states |
|---|---|---|
| Constants.FireRateOf | src/game/managers/PowerUpManager.ts:91-98 | The rate of a power-up type is positive and is one of the three configured rates. |
| Constants.FireRatesOrdered | src/game/config/Constants.ts:30-32 | 0 < laser 100 < bullet 200 < rocket 500, and the per-type rates follow that order. |
| Constants.PassBonusBelowDestroyBonus | src/game/config/Constants.ts:39-40 | 0 < points for passing a crate (50) < points for destroying one (100). |
| Constants.SpawnIntervalBounds | src/game/config/Constants.ts:14-19 | The interval floor 800 is positive and at most the start interval 2000. The decrement is positive, the crate sizes form a range, and a run starts with three lives. |
| Constants.AirplaneStartInsideClamp | src/game/config/Constants.ts:8-10 | The start height 384 lies inside the airplane's clamp band [25, 743]. |
| PhaserMath.Between | src/game/managers/ObstacleManager.ts:47 | `Phaser.Math.Between(min, max)` on a draw in [0, 1) is at least floor(min) and below max + 1. |
| PhaserMath.FloatBetween | src/game/entities/Obstacle.ts:96 | `FloatBetween(min, max)` lies in [min, max], strictly below max when min < max. |
| PhaserMath.Clamp | src/game/entities/Airplane.ts:36-39 | The clamped value lies in [min, max]. A value inside the range is kept; one below or above becomes the nearer bound. |
| PhaserMath.BetweenWhole | src/game/managers/ObstacleManager.ts:71 | With whole-number bounds, `Between` returns an integer in [min, max]. |
| Chase.Step | src/game/entities/Airplane.ts:27-34 | Within the dead zone the position is kept. Otherwise it moves toward the target by exactly min(distance, max step), without passing it. |
| Chase.StepApproaches | src/game/entities/EnemyPlane.ts:144-151 | A step never increases the distance to the target. It lands on the target when the target is within one step; otherwise it closes the distance by exactly one step. |
| Collision.GetBodyBounds | src/utils/collision.ts:3-11 | The box has the body's width and height and is centred on the object's position. |
| Collision.RectanglesIntersect | src/utils/collision.ts:13-15 | `rectanglesIntersect`, which hands over to the engine's `RectangleToRectangle`: both boxes have positive width and height, and their closed spans overlap on both axes, so boxes that share an edge intersect. |
| Collision.StrictOverlap | src/tests/collision.test.ts:50-56 | The test file's own overlap check: the open spans overlap on both axes. |
| Collision.IntersectSymmetric | src/utils/collision.ts:13-15 | Both tests give the same answer with their arguments swapped. |
| Collision.EngineAndStrictAgree | src/utils/collision.ts:13-15 | For boxes with area, a strict overlap is always an engine hit, and the engine reports a hit the strict test does not exactly when the boxes only touch along an edge. |
| Collision.TouchingEdgesExample | src/utils/collision.ts:13-15 | Two 10x10 boxes sharing the edge x = 10 intersect for the engine but not under the strict test; a box of zero width intersects nothing. |
| Collision.CentredBoxesIntersect | src/utils/collision.ts:3-15 | Two centred boxes intersect iff all four sizes are positive and their centres are at most half the summed widths apart horizontally and half the summed heights vertically. |
| Collision.BodyBoundsExample | src/tests/collision.test.ts:4-43 | Centre (100, 100) with a 50x50 body gives (75, 75, 50, 50); centre (200, 150) with 60x30 gives (170, 135, 60, 30). |
| Collision.IntersectExample | src/tests/collision.test.ts:45-60 | (100,100,50,50) overlaps (120,120,50,50) and does not overlap (200,200,50,50), under the test file's strict check and under the engine's test alike. |
| JsArray.IndexOf | src/game/managers/ObstacleManager.ts:124 | `indexOf` returns -1 iff the element is absent; otherwise the first index holding it. |
| JsArray.RemoveFirst | src/game/managers/ObstacleManager.ts:123-128 | Removing an absent element changes nothing. Removing a present one drops exactly one occurrence: the length falls by one and the multiset loses that element once. |
| JsArray.RemoveFirstDistinct | src/game/managers/ObstacleManager.ts:123-128 | In a duplicate-free list, removing the k-th element is splicing out index k; the result is still duplicate-free and no longer holds it. |
| JsArray.RemoveFirstGone | src/game/managers/ObstacleManager.ts:123-128 | In a duplicate-free list, the removed element is gone afterwards. |
| JsArray.RemoveFirstSubset | src/game/managers/ObstacleManager.ts:123-128 | In a duplicate-free list, the result holds exactly the other elements and stays duplicate-free. |
| JsArray.FilterMembers | src/game/managers/ObstacleManager.ts:66 | `filter` keeps exactly the elements that satisfy the test, and never lengthens the list. |
| JsArray.FilterAppend | src/game/managers/ObstacleManager.ts:66 | Filtering a concatenation is concatenating the filtered parts. |
| JsArray.FilterDistinct | src/game/managers/ObstacleManager.ts:66 | Filtering a duplicate-free list gives a duplicate-free list of the kept elements. |
| JsArray.FilterKeepsAll | src/game/managers/ObstacleManager.ts:66 | When every element passes the test, `filter` returns the list unchanged. |
| JsArray.SpliceSweepPartition | src/game/scenes/GameScene.ts:177-194 | A `forEach` that splices out hits splits the list: survivors and removed elements together are the original multiset. |
| JsArray.SpliceHitsAreHits | src/game/scenes/GameScene.ts:177-194 | Only elements that satisfy the hit test are removed. |
| JsArray.SpliceSweepKeepsPrefix | src/game/scenes/GameScene.ts:177-194 | The part of the list before the iteration's start index is untouched. |
| JsArray.SpliceSweepKeepsMisses | src/game/scenes/GameScene.ts:177-194 | Every element that does not satisfy the hit test survives the sweep. |
| JsArray.SpliceSweepSkipsNext | src/game/scenes/GameScene.ts:177-194 | When two neighbouring elements both satisfy the test, removing the first makes the iteration skip the second, which survives. |
| JsArray.SpliceSweepPairExample | src/game/scenes/GameScene.ts:177-194 | Sweeping [a, b] with both hit removes only a and leaves [b]. |
| JsArray.SpliceSweepMembers | src/game/scenes/GameScene.ts:177-194 | Every element of the list is either a survivor or removed, and the two counts add up to the list's length. |
| EventBus.RunsOfAppend | src/utils/EventBus.ts:29-34 | The runs of each callback add up over consecutive parts of the trace. |
| EventBus.EmitAddsRuns | src/utils/EventBus.ts:29-34 | One emit runs each callback exactly as many times as it is registered for that event, and none for an event with no list. |
| EventBus.Bus.constructor | src/utils/EventBus.ts:8-10 | The bus starts with no registrations and an empty trace. |
| EventBus.Bus.On | src/utils/EventBus.ts:12-17 | The callback is appended to the end of the event's list, which is created if missing; duplicates are kept. The trace is unchanged. |
| EventBus.Bus.Off | src/utils/EventBus.ts:19-27 | Only the first occurrence of the callback is removed from the event's list. An unknown event or a missing callback changes nothing. The trace is unchanged. |
| EventBus.Bus.Emit | src/utils/EventBus.ts:29-34 | Registrations are unchanged. The trace grows by exactly one record: the event, its data and the callbacks the loop ran, which are the event's registrations in order (none for an unknown event). |
| EventBus.Bus.RemoveAll | src/utils/EventBus.ts:36-38 | No registrations remain. The trace is unchanged. |
| EventBus.OnEmitOffScenario | src/tests/eventBus.test.ts:5-15 | After on, emit, emit, off, emit, the handler has run exactly twice and is no longer registered. |
| EventBus.RemoveAllScenario | src/utils/EventBus.ts:36-38 | After `removeAll`, the next emit runs no callback. |
| Score.TimeScore | src/game/managers/ScoreManager.ts:23-28 | A frame of delta ms earns floor(delta * 10 / 1000) points: never negative, and nothing for a frame under 100 ms. |
| Score.ScoreDispatches | src/game/managers/ScoreManager.ts:29-35 | An award emits score-update with the new score, followed by high-score-update with the same value iff the score beats the old high score. Each runs the callbacks registered for it. |
| Score.ScoreManager.constructor | src/game/managers/ScoreManager.ts:11-18 | Score 0, three lives, no time survived; the high score is the stored one. |
| Score.ScoreManager.AddScore | src/game/managers/ScoreManager.ts:27-36 | The score rises by exactly floor(points). The high score becomes the score, is persisted and is announced iff the score exceeds it; otherwise nothing else changes. The bus trace grows by exactly `ScoreDispatches` and registrations are kept. |
| Score.ScoreManager.Update | src/game/managers/ScoreManager.ts:20-25 | Time survived grows by delta and the score by the floored time score, with the same high-score rule and the same announcements; lives are kept. |
| Score.ScoreManager.ObstaclePass | src/game/managers/ScoreManager.ts:38-40 | The score rises by 50 under the high-score rule, with its announcements and nothing else on the bus. |
| Score.ScoreManager.ObstacleDestroyed | src/game/managers/ScoreManager.ts:42-45 | The score rises by 100 under the high-score rule; the trace grows by its announcements, then obstacle-destroyed. |
| Score.ScoreManager.LoseLife | src/game/managers/ScoreManager.ts:47-50 | Lives fall by exactly one, even below zero, and lives-update is emitted with the new count, the only record added to the trace. Score and high score are kept. |
| Score.ScoreManager.IsGameOver | src/game/managers/ScoreManager.ts:68-70 | The run is over once lives are at or below zero. |
| Score.ScoreManager.GetTimeSurvived | src/game/managers/ScoreManager.ts:64-66 | The whole seconds survived: seconds * 1000 <= time survived < (seconds + 1) * 1000. |
| Score.ScoreManager.Reset | src/game/managers/ScoreManager.ts:72-78 | Score 0, three lives, time 0, not game over; the high score and the storage log are kept. The trace grows by exactly score-update(0) then lives-update(3). |
| Score.ThreeLivesEndTheGame | src/tests/scoreManager.test.ts:15-20 | A fresh tracker is not over, is still not over after two lost lives, and is over after the third. |
| Score.AddScoreRaisesHighScore | src/tests/scoreManager.test.ts:5-13 | Adding 5000 to a fresh tracker gives score 5000. The high score becomes 5000 and is stored iff the stored one was lower. |
| Score.ShortFramesEarnNothing | src/game/managers/ScoreManager.ts:20-28 | Any number of 16 ms frames adds time but no points, because each frame's award is floored separately. |
| Score.ScoreListenersScenario | src/game/managers/ScoreManager.ts:27-36 | With one listener on score-update and one on high-score-update, adding 5000 runs the first with 5000, and the second with 5000 iff the stored high score was lower. |
| FireControl.PowerUpFireController.constructor | src/game/managers/PowerUpFireController.ts:5-7 | Nothing active, no time remaining, fire timer 0. |
| FireControl.PowerUpFireController.Activate | src/game/managers/PowerUpFireController.ts:9-13 | The type becomes active with 5000 ms remaining and the fire timer at 0. |
| FireControl.PowerUpFireController.Update | src/game/managers/PowerUpFireController.ts:15-24 | With nothing active nothing changes. Otherwise the fire timer grows by delta and the remaining time shrinks by delta; at or below zero the power-up clears and the remaining time is 0. |
| FireControl.PowerUpFireController.GetFireRate | src/game/managers/PowerUpFireController.ts:35-41 | The active type's rate, or a rate above all three when nothing is active. |
| FireControl.PowerUpFireController.CanFire | src/game/managers/PowerUpFireController.ts:26-28 | True iff a power-up is active and the fire timer has reached its rate. |
| FireControl.PowerUpFireController.ConsumeShot | src/game/managers/PowerUpFireController.ts:30 | Only the fire timer changes, to 0. |
| FireControl.BulletFireRateScenario | src/tests/powerUpManager.logic.test.ts:6-14 | After activating bullets the gate is closed; with the timer at 250 it is open; after a shot it is closed again. |
| FireControl.ExpiryScenario | src/tests/powerUpManager.logic.test.ts:16-21 | An update of at least the full duration clears the power-up and closes the gate. |
| FireControl.IdleScenario | src/game/managers/PowerUpFireController.ts:15-28 | With nothing active, updates leave the timer at 0 and the gate closed. |
| AirplaneEntity.FollowDistance | src/game/entities/Airplane.ts:31 | The largest move of one frame is 300 px/s over delta ms, non-negative for delta >= 0. |
| AirplaneEntity.Airplane.constructor | src/game/entities/Airplane.ts:10-21 | The airplane starts alive at the given position, with its target at its own height. |
| AirplaneEntity.Airplane.Update | src/game/entities/Airplane.ts:23-40 | A dead airplane does not change. A live one moves by one follow step toward its target, then is clamped into [25, 743]. |
| AirplaneEntity.Airplane.SetTargetY | src/game/entities/Airplane.ts:42-44 | Only the target changes. |
| AirplaneEntity.Airplane.Die | src/game/entities/Airplane.ts:54-57 | The airplane is dead; its position and target are kept. |
| AirplaneEntity.FollowApproaches | src/game/entities/Airplane.ts:26-39 | Inside the band, an update never moves the airplane away from its target. It stays put within the 1 px dead zone and reaches a target that is within one step. |
| AirplaneEntity.ClampPullsInside | src/game/entities/Airplane.ts:36-39 | Within the dead zone only the clamp acts: above or below the band the airplane snaps to the nearer edge; inside it stays. |
| ObstacleEntity.BounceVelocity | src/game/entities/Obstacle.ts:91-100 | Moving up at or above the top band turns the crate downward at 80-120% of its speed. Moving down at or below the bottom band turns it upward likewise. Otherwise vy is kept. |
| ObstacleEntity.ScaleSpeed | src/game/entities/Obstacle.ts:96-98 | A speed times a bounce factor stays within 80% and 120% of the speed. |
| ObstacleEntity.BounceFactor | src/game/entities/Obstacle.ts:96 | The bounce factor `FloatBetween(0.8, 1.2)` lies in [0.8, 1.2). |
| ObstacleEntity.BounceTurnsBack | src/game/entities/Obstacle.ts:94-99 | After the bounce check, a moving crate at either band heads back into the playfield. |
| ObstacleEntity.Obstacle.constructor | src/game/entities/Obstacle.ts:16-47 | The crate is alive with bands minY = size/2 and maxY = 768 - size/2. A moving crate takes its launch velocity; any other gets vx = -speed and vy in [-20, 20]. |
| ObstacleEntity.Obstacle.Update | src/game/entities/Obstacle.ts:83-106 | A dead crate does not change. A moving one bounces as `BounceVelocity` says, and a crate past x < -size is destroyed. |
| ObstacleEntity.Obstacle.Destroy | src/game/entities/Obstacle.ts:116-121 | The crate is dead afterwards, whether or not it was before; its position and velocity are kept. |
| ObstacleEntity.Obstacle.Explode | src/game/entities/Obstacle.ts:123-150 | The crate is dead afterwards, whether or not it was before; its position and velocity are kept. |
| ObstacleEntity.Obstacle.IsOffScreen | src/game/entities/Obstacle.ts:108-110 | A crate is off the screen when its x is left of -size. |
| ObstacleEntity.Obstacle.HasPassed | src/game/entities/Obstacle.ts:152-154 | A crate has passed the airplane when its right edge, x + size/2, is left of the airplane's x. |
| ObstacleEntity.PassedBeforeOffScreen | src/game/entities/Obstacle.ts:152-154 | A crate off the screen (x < -size) has already passed any airplane at x >= 0. |
| ObstacleManagement.SpawnIntervalAfter | src/game/managers/ObstacleManager.ts:106-113 | After any number of difficulty steps the spawn interval stays within [800, 2000]. |
| ObstacleManagement.SpawnIntervalLinear | src/game/managers/ObstacleManager.ts:110-113 | For up to 24 steps the interval is exactly 2000 - 50 per step. |
| ObstacleManagement.MaxLevelInterval | src/game/managers/ObstacleManager.ts:106-113 | At the top level 10 the interval is 1500, so the 800 floor is never reached. |
| ObstacleManagement.SpeedAt | src/game/managers/ObstacleManager.ts:116 | The crate speed at a level is at least the start speed 200, and exactly 200 at level 0. |
| ObstacleManagement.SpeedAtStep | src/game/managers/ObstacleManager.ts:116 | Each level adds exactly 10 to the crate speed. |
| ObstacleManagement.CrateSize | src/game/managers/ObstacleManager.ts:71 | A crate's size lies in [30, 80]. |
| ObstacleManagement.RegularY | src/game/managers/ObstacleManager.ts:73-80 | With the 30% centre draw the crate's y is in [230, 538]; otherwise it is in [size, 768 - size]. |
| ObstacleManagement.RegularKind | src/game/managers/ObstacleManager.ts:82-89 | A regular crate moves vertically iff the level is at least 2 and the draw is below 0.4; it is never horizontal. |
| ObstacleManagement.AimedY | src/game/managers/ObstacleManager.ts:100 | An aimed crate takes the stored player y, or 384 when that is 0. |
| ObstacleManagement.UpdateAll | src/game/managers/ObstacleManager.ts:61-63 | Each crate is updated once, with its own bounce draw: the off-screen ones die and the moving ones bounce. |
| ObstacleManagement.DestroyAll | src/game/managers/ObstacleManager.ts:144 | Every crate in the list is dead. |
| ObstacleManagement.ObstacleManager.constructor | src/game/managers/ObstacleManager.ts:18-30 | The manager starts in its initial state: no crates, timers 0, interval 2000, speed 200, level 0, nothing marked, player y 0. |
| ObstacleManagement.ObstacleManager.Update | src/game/managers/ObstacleManager.ts:32-67 | The stored player y changes only when one is given. When its timer reaches the interval, exactly one regular crate spawns and the timer resets; otherwise the timer grows by delta. The same holds for an aimed crate against a fresh draw in [500, 2000]. A regular crate has size `CrateSize` and height `RegularY` of its draws; an aimed one has size `CrateSize`. Every aimed crate, and every regular crate that is not a moving one, moves left at the speed before the update. The level rises by one only when its timer reaches 10000 below level 10. Then every crate is updated: an old crate keeps x, y and vx, dies iff it was dead or is off the screen, and a live moving one takes `BounceVelocity` with its own bounce draw while every other keeps vy. The list keeps exactly the live ones, old and new, in order. |
| ObstacleManagement.ObstacleManager.RefreshObstacles | src/game/managers/ObstacleManager.ts:61-66 | Crate k runs its update with bounce draw k: x, y and vx are kept, it dies iff it was dead or is off the screen, and a live moving crate's vy is `BounceVelocity` while every other vy is kept. The list then keeps exactly the live crates in order; timers, level and marks are kept. |
| ObstacleManagement.ObstacleManager.RunSpawnTimers | src/game/managers/ObstacleManager.ts:38-51 | The two spawn timers: each spawns one crate and resets when it reaches its threshold, and the list grows by exactly the spawned crates. Their kind, size, height and position follow the draws, and every aimed crate and every regular one that is not moving gets vx = -speed. |
| ObstacleManagement.ObstacleManager.RunTimers | src/game/managers/ObstacleManager.ts:38-58 | The spawn timers as above, then the difficulty timer: the level rises by one only when its timer reaches 10000 below level 10. Spawned crates use the speed and level from before. |
| ObstacleManagement.ObstacleManager.RunDifficultyTimer | src/game/managers/ObstacleManager.ts:53-58 | The level rises by one and its timer resets iff the timer reaches 10000 below level 10; otherwise the timer grows by delta. |
| ObstacleManagement.ObstacleManager.SpawnObstacle | src/game/managers/ObstacleManager.ts:69-93 | Appends one new live crate at x = 1074, with size in [30, 80], y from `RegularY` and its kind from `RegularKind`; the timers are kept. |
| ObstacleManagement.ObstacleManager.SpawnAimedObstacle | src/game/managers/ObstacleManager.ts:95-104 | Appends one new live static crate at x = 1074, y = `AimedY(playerY)`, moving at the current speed. |
| ObstacleManagement.ObstacleManager.IncreaseDifficulty | src/game/managers/ObstacleManager.ts:106-117 | Called only below level 10: the level rises by one, the interval becomes max(800, interval - 50) and so strictly shrinks, and the speed rises by 10. |
| ObstacleManagement.ObstacleManager.RemoveObstacle | src/game/managers/ObstacleManager.ts:123-128 | Only the first occurrence is removed (no change when absent), and the crate is no longer listed. |
| ObstacleManagement.ObstacleManager.CheckPassedObstacles | src/game/managers/ObstacleManager.ts:130-141 | Returns exactly the unmarked crates that have passed the airplane, in list order, and marks them. A crate is returned only once across calls. |
| ObstacleManagement.ObstacleManager.Reset | src/game/managers/ObstacleManager.ts:143-154 | Every old crate is destroyed and the manager is back in its initial state. |
| EnemyPlaneEntity.ChaseDistance | src/game/entities/EnemyPlane.ts:148 | The largest chase move of a frame is 30% of the speed over delta ms. |
| EnemyPlaneEntity.EnemyPlane.constructor | src/game/entities/EnemyPlane.ts:22-34 | The cat plane is alive at the given position and speed. |
| EnemyPlaneEntity.EnemyPlane.Update | src/game/entities/EnemyPlane.ts:140-162 | A dead plane does not change. A live one takes one chase step toward the player (dead zone 5 px), is clamped into [size/2, 768 - size/2], and dies iff x < -size. |
| EnemyPlaneEntity.EnemyPlane.Destroy | src/game/entities/EnemyPlane.ts:172-177 | The plane is dead afterwards, whether or not it was before. |
| EnemyPlaneEntity.EnemyPlane.Explode | src/game/entities/EnemyPlane.ts:179-206 | The plane is dead afterwards, whether or not it was before. |
| EnemyPlaneEntity.EnemyPlane.IsOffScreen | src/game/entities/EnemyPlane.ts:164-166 | A cat plane is off the screen when its x is left of -size. |
| EnemyPlaneEntity.ChaseNeverOvershoots | src/game/entities/EnemyPlane.ts:144-151 | A chase step never increases the distance to the player, and outside the dead zone it closes exactly one step when the player is farther than that. |
| EnemyPlaneEntity.SpawnedBehindDiesAtOnce | src/game/entities/EnemyPlane.ts:159-166 | A plane spawned at x = -100 with a size under 100 is dead after its first update. |
| EnemyPlaneManagement.UpdateAll | src/game/managers/EnemyPlaneManager.ts:37-39 | Each plane is updated once, chasing the given player y; the off-screen ones die. |
| EnemyPlaneManagement.DestroyAll | src/game/managers/EnemyPlaneManager.ts:66 | Every plane in the list is dead. |
| EnemyPlaneManagement.EnemyPlaneManager.constructor | src/game/managers/EnemyPlaneManager.ts:11-17 | No planes, spawn timer 0, difficulty 0. |
| EnemyPlaneManagement.EnemyPlaneManager.SpawnSpeed | src/game/managers/EnemyPlaneManager.ts:50 | A plane's speed is the base speed plus 10 per difficulty level, never below the base. |
| EnemyPlaneManagement.EnemyPlaneManager.Update | src/game/managers/EnemyPlaneManager.ts:19-43 | The difficulty becomes the given level. Below the threshold nothing spawns and the timer stays. At or above it, one plane spawns when the timer reaches the interval, and the timer resets. A spawned plane is already dead iff its size is under 100. Every old plane keeps its x; a live one takes one chase step toward the player's y, clamped into [size/2, 768 - size/2], and dies iff it is off the screen, while a dead one keeps its y. The list keeps exactly the live planes. |
| EnemyPlaneManagement.EnemyPlaneManager.SpawnEnemyPlane | src/game/managers/EnemyPlaneManager.ts:45-52 | Appends one new live plane at x = -100, y in [50, 718], with the speed for the current difficulty. |
| EnemyPlaneManagement.EnemyPlaneManager.RemoveEnemy | src/game/managers/EnemyPlaneManager.ts:58-63 | Only the first occurrence is removed (no change when absent). |
| EnemyPlaneManagement.EnemyPlaneManager.Reset | src/game/managers/EnemyPlaneManager.ts:65-69 | Every old plane is destroyed, the list is empty and the timer is 0; the difficulty is kept. |
| PowerUpEntities.PowerUp.constructor | src/game/entities/PowerUp.ts:18-37 | A pickup starts uncollected, drifting left at the given speed. |
| PowerUpEntities.PowerUp.Update | src/game/entities/PowerUp.ts:93-97 | A pickup left of x = -30 is retired (marked collected); otherwise its flag is kept. |
| PowerUpEntities.PowerUp.Collect | src/game/entities/PowerUp.ts:107-123 | The pickup is collected afterwards, whether or not it was before. |
| PowerUpEntities.PowerUp.Destroy | src/game/entities/PowerUp.ts:125-130 | The pickup is collected afterwards, whether or not it was before. |
| PowerUpEntities.ProjectileSize | src/game/entities/PowerUp.ts:145-177 | A laser beam is 200x4. A rocket is 24x12 and a bullet 12x6, each twice as wide as tall. |
| PowerUpEntities.OutsideMargin | src/game/entities/PowerUp.ts:207-208 | A projectile is gone once it is more than 100 px beyond any edge of the 1024x768 screen. |
| PowerUpEntities.Projectile.Homes | src/game/entities/PowerUp.ts:186 | Only a rocket with a target that is still alive steers. |
| PowerUpEntities.Projectile.constructor | src/game/entities/PowerUp.ts:140-178 | The projectile is alive with its type's size. A laser stands still; a bullet or rocket flies right at 600. |
| PowerUpEntities.Projectile.Update | src/game/entities/PowerUp.ts:180-211 | A dead projectile does not change. Only a rocket with a live target steers. It dies iff it is more than 100 px outside the screen. |
| PowerUpEntities.Projectile.Destroy | src/game/entities/PowerUp.ts:221-226 | The projectile is dead afterwards, whether or not it was before. |
| PowerUpEntities.UntargetedRocketFliesStraight | src/game/entities/PowerUp.ts:186 | A rocket fired without a target keeps its straight velocity (600, 0) through an update. |
| PowerUpEntities.MarginBoundary | src/game/entities/PowerUp.ts:207-210 | A projectile on the screen survives its off-screen check; one beyond the right margin does not. |
| PowerUpManagement.KindOf | src/game/managers/PowerUpManager.ts:58-59 | The pickup type is bullet, rocket or laser, each for a third of the draws. |
| PowerUpManagement.UpdatePickups | src/game/managers/PowerUpManager.ts:38 | Each pickup is updated once: those left of x = -30 are retired. |
| PowerUpManagement.UpdateProjectiles | src/game/managers/PowerUpManager.ts:42 | Each projectile is updated once: those beyond the margin die. |
| PowerUpManagement.DestroyPickups | src/game/managers/PowerUpManager.ts:125 | Every pickup in the list is collected. |
| PowerUpManagement.DestroyProjectiles | src/game/managers/PowerUpManager.ts:126 | Every projectile in the list is dead. |
| PowerUpManagement.PowerUpManager.constructor | src/game/managers/PowerUpManager.ts:16-25 | Empty lists, timers 0, nothing active. |
| PowerUpManagement.PowerUpManager.Active | src/game/managers/PowerUpManager.ts:19-21 | The active type, its remaining time and the fire timer, as one value. |
| PowerUpManagement.PowerUpManager.GetFireRate | src/game/managers/PowerUpManager.ts:91-98 | The active type's rate, or 1000 when nothing is active. |
| PowerUpManagement.PowerUpManager.CanFire | src/game/managers/PowerUpManager.ts:74-79 | True iff a power-up is active and the fire timer has reached its rate. |
| PowerUpManagement.PowerUpManager.Update | src/game/managers/PowerUpManager.ts:27-55 | When the spawn timer reaches 15000 it resets, and one pickup of type `KindOf` spawns iff the draw is below 0.15. Afterwards no collected pickup and no dead projectile is listed, and the survivors keep their order. The active timer follows the controller's rule. |
| PowerUpManagement.PowerUpManager.RunSpawnTimer | src/game/managers/PowerUpManager.ts:28-35 | The spawn check alone: at 15000 the timer resets and at most one pickup is appended, only for a draw below 0.15. |
| PowerUpManagement.PowerUpManager.RefreshPickups | src/game/managers/PowerUpManager.ts:37-39 | Pickups are updated, and the list keeps exactly the uncollected ones in order. |
| PowerUpManagement.PowerUpManager.RefreshProjectiles | src/game/managers/PowerUpManager.ts:41-43 | Projectiles are updated, and the list keeps exactly the live ones in order. |
| PowerUpManagement.PowerUpManager.RunPowerUpTimer | src/game/managers/PowerUpManager.ts:45-54 | With nothing active nothing changes. Otherwise time runs down and the fire timer runs up by delta, and at or below zero the power-up clears with 0 remaining. |
| PowerUpManagement.PowerUpManager.SpawnPowerUp | src/game/managers/PowerUpManager.ts:57-66 | Appends one new uncollected pickup of type `KindOf` at x = 1054, y in [50, 718], drifting left at 200. |
| PowerUpManagement.PowerUpManager.ActivatePowerUp | src/game/managers/PowerUpManager.ts:68-72 | The type becomes active with 5000 ms remaining and the fire timer at 0. |
| PowerUpManagement.PowerUpManager.FireProjectile | src/game/managers/PowerUpManager.ts:81-89 | Returns null and changes nothing unless `CanFire`. Otherwise appends exactly one new projectile of the active type at (x, y), without a target, and resets the fire timer. |
| PowerUpManagement.PowerUpManager.RemoveProjectile | src/game/managers/PowerUpManager.ts:116-122 | Only the first occurrence is removed, and a listed projectile is destroyed. An absent one changes nothing. |
| PowerUpManagement.PowerUpManager.Reset | src/game/managers/PowerUpManager.ts:124-133 | Every pickup and projectile is destroyed, both lists are empty, the timers are 0 and nothing is active. |
| PowerUpManagement.NoShotWithoutFireTime | src/game/managers/PowerUpManager.ts:81-82 | Nothing is fired while no power-up is active, nor right after one is activated. |
| MountainEntity.Mountain.constructor | src/game/entities/Mountain.ts:9-20 | Width in [150, 300] and height in [80, 150], with the centre at 768 - height/2 so the base sits on the bottom edge. It drifts left at the given speed. |
| MountainEntity.Mountain.Update | src/game/entities/Mountain.ts:58-65 | A mountain dies iff it was dead or x < -width. |
| MountainEntity.Mountain.Destroy | src/game/entities/Mountain.ts:79-84 | The mountain is dead afterwards, whether or not it was before. |
| MountainManagement.UpdateAll | src/game/managers/MountainManager.ts:29-31 | Each mountain is updated once; those past x < -width die. |
| MountainManagement.DestroyAll | src/game/managers/MountainManager.ts:55 | Every mountain in the list is dead. |
| MountainManagement.MountainManager.constructor | src/game/managers/MountainManager.ts:9-15 | No mountains, timer 0, speed 200. |
| MountainManagement.MountainManager.Update | src/game/managers/MountainManager.ts:17-35 | The speed becomes 0.7 times the given one. When the timer reaches 8000, exactly one mountain spawns and the timer resets; otherwise the timer grows by delta. No dead mountain remains. |
| MountainManagement.MountainManager.SpawnMountain | src/game/managers/MountainManager.ts:37-41 | Appends one new live mountain at x = 1174, moving left at the current speed. |
| MountainManagement.MountainManager.RemoveMountain | src/game/managers/MountainManager.ts:47-52 | Only the first occurrence is removed (no change when absent). |
| MountainManagement.MountainManager.Reset | src/game/managers/MountainManager.ts:54-59 | Every old mountain is destroyed, the list is empty, the timer is 0 and the speed is 200. |
| Scene.AirplaneBounds | src/game/scenes/GameScene.ts:167-174 | The airplane's 50x30 body box, centred on its position. |
| Scene.ShotBounds | src/game/scenes/GameScene.ts:234-235 | A projectile's box has its size and is centred on its position. |
| Scene.LifeLossDispatches | src/game/managers/ScoreManager.ts:47-50 | n crashes emit n lives-update events. |
| Scene.LifeLossDispatchesCountDown | src/game/managers/ScoreManager.ts:47-50 | The i-th of them carries lives - 1 - i, counting down from the lives before the first crash, and runs the lives-update callbacks. |
| Scene.PickupDispatches | src/game/scenes/GameScene.ts:206 | One powerup-collected event per collected pickup. |
| Scene.AfterPickups | src/game/scenes/GameScene.ts:203-206 | With no pickup collected the power-up state is unchanged. Otherwise the last one collected is active, with 5000 ms remaining and the fire timer at 0. |
| Scene.HighAfter | src/game/managers/ScoreManager.ts:31-35 | The high score after an award is the larger of the old high score and the new score. |
| Scene.HighAfterPasses | src/game/managers/ScoreManager.ts:31-40 | After k > 0 passes the high score is at least the old one and at least the score reached; after none it is the old one. |
| Scene.PassDispatches | src/game/managers/ScoreManager.ts:29-40 | n passes emit between n and 2n records: one score-update each, plus a high-score-update for each pass that beats the high score. |
| Scene.AfterKillsFacts | src/game/managers/ScoreManager.ts:42-45 | After n projectile kills the score has risen by 100 n, lives, time and power-up are kept, and the high score has not fallen. Any change makes it equal the score. The registrations are kept, and between 2n and 3n records are appended to the trace. |
| Scene.ShotAfterKills | src/game/managers/PowerUpManager.ts:116-122 | After one or more hits the projectile is dead and delisted once; later hits remove nothing more. With no hit nothing changes. |
| Scene.GameScene.constructor | src/game/scenes/GameScene.ts:32-57 | The scene starts playing: managers initial, the airplane alive at (150, 384), score 0 with three lives and the stored high score. The trace grows by exactly game-start, then current-scene-ready. |
| Scene.GameScene.PointerInput | src/game/scenes/GameScene.ts:90-101 | While playing with a live airplane the cursor's y becomes its target; otherwise the airplane is untouched. |
| Scene.GameScene.Update | src/game/scenes/GameScene.ts:120-164 | When not playing or the airplane is dead nothing changes. Otherwise distance grows by delta * 30 / 1000 and time by delta. Lives fall by the crashes. The score rises by the time score plus 100 per kill plus 50 per passed crate, and the high score is at least the score. Play continues iff lives remain. Ending play makes game-over with the final standing the last record of the trace. |
| Scene.GameScene.UpdateEntities | src/game/scenes/GameScene.ts:135-143 | The airplane takes its follow step. The enemies get the difficulty read before the crate update. Time and score advance by the frame, lives are kept, and the lists hold only old or new entities. |
| Scene.GameScene.UpdateObstacles | src/game/scenes/GameScene.ts:140 | The crate manager's update, called without a player height: the stored height is kept and the list holds only old or new crates. |
| Scene.GameScene.UpdatePowerUps | src/game/scenes/GameScene.ts:141 | The power-up manager's update: the pickup list holds only old or new pickups, and the projectile list only old projectiles. |
| Scene.GameScene.UpdateEnemies | src/game/scenes/GameScene.ts:143 | The enemy manager's update with the level read before the crate update and the airplane's y: the manager takes that level and the list holds only old or new planes. |
| Scene.GameScene.UpdateManagers | src/game/scenes/GameScene.ts:139-143 | Crates, pickups, score and planes are updated in that order: time and score advance by the frame and the planes receive the given level. The trace grows by exactly the time award's announcements. |
| Scene.GameScene.CheckCollisions | src/game/scenes/GameScene.ts:166-279 | Lives fall by one per crash, and the airplane dies iff a crash left no lives. The score rises by 100 per kill under the high-score rule. The collected pickups are exactly the overlapping ones, in order, and the last one is active. |
| Scene.GameScene.SweepAirplane | src/game/scenes/GameScene.ts:176-228 | The three airplane sweeps: lives fall by the crashes with the death rule, the score is kept, and the collected pickups are exactly the overlapping ones, in order. The trace grows by the crate crashes' lives-updates, the pickups' powerup-collected records and the plane crashes' lives-updates, in that order. |
| Scene.GameScene.SweepPickupsThenEnemies | src/game/scenes/GameScene.ts:197-228 | The pickup sweep and then the plane sweep: the pickups' records, then one lives-update per plane crash, counting down. |
| Scene.GameScene.SweepAirplaneObstacles | src/game/scenes/GameScene.ts:176-194 | The crate list becomes the splice sweep over the overlapping crates, and each removed crate is exploded. Lives fall by one per crash, and the trace grows by exactly one lives-update per crash, counting down. The airplane dies iff a crash left no lives. |
| Scene.GameScene.CrashIntoObstacle | src/game/scenes/GameScene.ts:189-193 | One life is lost (and the airplane dies when none remain), the crate is exploded and spliced out of the list. |
| Scene.GameScene.HandleAirplaneCollision | src/game/scenes/GameScene.ts:281-296 | Exactly one life is lost and lives-update with the new count is the only record added to the trace; the airplane dies iff lives are now <= 0. Score and high score are kept. |
| Scene.GameScene.SweepPickups | src/game/scenes/GameScene.ts:197-208 | Exactly the overlapping pickups are collected, in list order. Each activates its type and emits powerup-collected, so the last one is active; the trace grows by exactly those records. The list itself is unchanged. |
| Scene.GameScene.SweepPickupsOver | src/game/scenes/GameScene.ts:197-208 | The loop over the pickup list: pickup i is collected iff it overlaps, and the state and trace are those of the collected prefix. |
| Scene.GameScene.SweepAirplaneEnemies | src/game/scenes/GameScene.ts:210-228 | The plane list becomes the splice sweep over the overlapping planes, and each removed plane is exploded. Lives fall by one per crash, with the death rule, and the trace grows by exactly one lives-update per crash. |
| Scene.GameScene.CrashIntoEnemy | src/game/scenes/GameScene.ts:223-227 | One life is lost (and the airplane dies when none remain), the plane is exploded and spliced out of the list. |
| Scene.GameScene.SweepProjectiles | src/game/scenes/GameScene.ts:230-278 | The projectile list becomes the splice sweep over the projectiles that hit something; each of them was alive and is now dead. The kills are exactly the crates and planes removed. The standing is the old one after that many kills. |
| Scene.GameScene.ShootLive | src/game/scenes/GameScene.ts:231-278 | One live projectile's turn: it checks crates then planes and joins the shooters iff it destroyed something. |
| Scene.GameScene.ShootProjectile | src/game/scenes/GameScene.ts:237-277 | Both inner sweeps of one projectile. Every crate or plane removed is one kill worth 100 points, and the projectile is delisted at its first kill. |
| Scene.GameScene.ShotSweepObstacles | src/game/scenes/GameScene.ts:238-256 | The crate list becomes the splice sweep over the crates the projectile overlaps. Each removed crate is exploded and scores 100, and the projectile is removed at the first of them. |
| Scene.GameScene.ShootObstacle | src/game/scenes/GameScene.ts:250-255 | The crate is exploded and spliced out, the projectile is removed (if still listed), and 100 points are awarded. |
| Scene.GameScene.ShotSweepEnemies | src/game/scenes/GameScene.ts:259-277 | The plane list becomes the splice sweep over the planes the projectile overlaps, even after the projectile was removed. Each removed plane scores 100. |
| Scene.GameScene.ShootEnemy | src/game/scenes/GameScene.ts:271-276 | The plane is exploded and spliced out, the projectile is removed (if still listed), and 100 points are awarded. |
| Scene.GameScene.CreditKill | src/game/scenes/GameScene.ts:253-254 | Removing the projectile and crediting 100 points moves the shot and the standing one kill further. |
| Scene.GameScene.ScorePassedObstacles | src/game/scenes/GameScene.ts:148-152 | The newly passed crates are returned and marked, and each adds 50 points; lives and time are kept. The trace grows by exactly each pass's announcements (`PassDispatches`). |
| Scene.GameScene.AwardPasses | src/game/scenes/GameScene.ts:150-152 | n calls of obstaclePass: the score rises by 50 n, the high score is `HighAfterPasses`, and the trace grows by `PassDispatches`. |
| Scene.GameScene.AutoFire | src/game/scenes/GameScene.ts:154-158 | Fires iff the gate is open: one new projectile of the active type at (airplane x + 30, airplane y). Otherwise nothing changes. |
| Scene.GameScene.GameOver | src/game/scenes/GameScene.ts:298-311 | Play stops, and game-over with the score, the high score and the whole seconds survived is the only record added to the trace. |
| Scene.GameScene.RestartGame | src/game/scenes/GameScene.ts:323-342 | All four managers and the distance are reset and a new live airplane stands at (150, 384). Play resumes with the high score kept. The trace grows by exactly score-update(0), lives-update(3), game-start. |
| Scene.GameScene.ResetManagers | src/game/scenes/GameScene.ts:328-331 | The four managers are reset in source order; the planes' difficulty and the high score are kept. The trace grows by exactly score-update(0), lives-update(3). |

## Left out

- Drawing: sprites, backgrounds, clouds, particles, damage flashes, crate rotation and the tweens that only fade or move graphics.
- The pickup's pulsing tween (`src/game/entities/PowerUp.ts:29-36`) scales the pickup between 1.0 and 1.2, and the pickup sweep tests its display bounds. The model gives each pickup a fixed bounds size, so a pickup that the engine would catch only at its pulsed size is missed.
- Arcade physics integration, the movement of every body by its velocity between frames. The model keeps x and y where the frame found them, except where the game's own update code sets them (the airplane's and the cat planes' y).
- Phaser itself is not part of this model. `Phaser.Geom.Intersects.RectangleToRectangle` is modelled as `Collision.RectanglesIntersect`: boxes that only touch along an edge intersect and a box without area never does.
- Trigonometry:
  - the diagonal launch of a moving crate, whose velocity is a constructor parameter;
  - a rocket's homing velocity, which is a parameter of `Projectile.Update`;
  - the random rotation speed.
- IEEE rounding of JavaScript numbers. Reals and integers are exact.
- The random number generator. Every draw is a parameter in [0, 1).
- The laser beam's lifetime, which a tween callback ends.
- What the bus callbacks do. A callback is a number; the trace records that it ran, with which event and data.
- localStorage: `src/utils/StorageManager.ts` is not part of this model. The stored high score is a constructor argument, and writes are appended to a `persisted` log.
- The payload of `current-scene-ready`, which is the scene object itself (`src/game/scenes/GameScene.ts:56`). The model emits it with no data.
- The React UI, `togglePause` (scene pause and resume with its events), the `console.log` calls and the `delayedCall` in `gameOver`.
- `getTimeUntilNextPowerUp`: the scene calls it, but the power-up manager defines no such method.
- The airplane sprite's `destroy` at restart. The model replaces the airplane object instead.
- The interfaces in `src/types/GameTypes.ts:18-52`. Only its enums are modelled.
- The test files that check only local values (`bugfixes`, `integration`, `debug`, and the type-safety block of `collision.test.ts`).
- Scene.GameScene.Update: states the frame's score, lives, time, distance and game-over outcome. It does not restate the entity lists or the whole trace; those are stated by the phase methods it calls.
- Scene.GameScene.CheckCollisions: does not state the resulting entity lists or the trace. `SweepAirplaneObstacles`, `SweepPickups`, `SweepAirplaneEnemies` and `SweepProjectiles` state them.
- Scene.GameScene.ShootProjectile: states its crate and plane lists only as shrinking by the kills. The exact lists are stated by `ShotSweepObstacles` and `ShotSweepEnemies`.
- Scene.GameScene.SweepProjectiles: characterises the shooters as old live projectiles that end dead. It does not say which boxes each overlapped, because the lists change between projectiles.
- Scene.GameScene.UpdateEntities: states list membership (old or new) rather than the filtered lists. `ObstacleManager.Update`, `PowerUpManager.Update` and `EnemyPlaneManager.Update` state those.

## Behaviour kept as written

- Aimed crates never use the player's height. The scene calls the crate update without a player y, so the stored y stays 0, and aimed crates appear at 384.
- The aimed-spawn threshold is drawn afresh on every update, not once per spawn.
- Rockets never home. The scene passes the enemy list to `fireProjectile`, but the method takes only a position, so every projectile is built without a target.
- Nothing emits `powerup-expired`.
- Cat planes spawn at x = -100 and die when x < -size. With any size under 100 they die on their first update, in the same frame they spawn.
- The enemy-plane constants are imported but not defined in the constants file. They are a record of positive values that the model leaves open.
- The sweeps remove entities from the array they iterate. JavaScript `forEach` then skips the element after each removed one, so of two overlapping neighbours only the first is hit in that frame.
- One projectile can destroy several crates and planes in one frame. Each destroyed one scores 100, and the enemy loop still runs after the projectile has been removed.
- The time score is floored per frame, so frames shorter than 100 ms never score.
- The planes receive the difficulty level read before the crate manager's update.
- The mountain manager is not used by the scene; it is modelled on its own.
