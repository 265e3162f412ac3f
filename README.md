# Super Mario Land (Game Boy remake): verified model of the game core

This project models the simulation and game-state logic of the single-file
pygame game `client-mario-landv1gb.py` and proves properties of it. It covers:

- the player's input handling, gravity, axis-separated collision sweeps and walk animation;
- the side-scrolling camera;
- the hard-coded level 1-1;
- the game-state object;
- the main loop's key events and its per-frame PLAYING tick: clock, player, fall and lives, camera, coin pickup, goal.

Layout, one module per file:

| file | module | contents |
|---|---|---|
| `wrappers.dfy` | `Wrappers` | `Option` |
| `geometry.dfy` | `Geometry` | `Box`, the strict AABB test `Overlaps`, screen size |
| `physics.dfy` | `Physics` | physics constants, `PlayerState`, the pure steps `Steer`, `InputStep`, `PhysicsStep`, `AnimationStep`, `UpdateStep`, and the `Player` class |
| `camera.dfy` | `Scrolling` | `Follow` and the `Camera` class |
| `level.dfy` | `Level` | `Level11` and what the game needs of a level (`WellFormed`) |
| `game.dfy` | `GameLoop` | modes, counters, world, events, tick, frame and main loop, the invariant, and the `GameState` and `Game` classes |

Each entity the program updates in place is a class: `Player`, `Camera`,
`GameState`, and `Game`, which holds the main loop's locals. Every method is
proved to change the object's abstract state (`State()` / `Snapshot()`) exactly
as a pure function of the old state says. The game's properties are then
proved of those functions:

- bounds;
- what a collision does;
- the key transitions;
- the tick rules;
- the invariant `Inv`, kept by every world the main loop can reach from program start.

Positions and velocities are `real`. The constants are the source's exact
decimals: gravity 1/4, acceleration 1/10, deceleration 3/20, top speed 8/5,
jump impulse 9/2. The scroll edge is 80 and the screen height 144.

Two behaviours of the code that are easy to misread:

- **Collision sweeps.** Once a platform has stopped the player on an axis, that axis's velocity is 0. Later overlapping platforms then only zero it again. So the FIRST overlapping platform in list order, tested at the position before the sweep, decides the snap; a reader might expect the last platform to win. `FirstHit`, `SweepXFirstHit` and `SweepYFirstHit` state this.
- **Lives.** `reset_level` does not restore the lives, and neither does Enter on the game-over screen. A retry after losing the last life starts with 0 lives (`RetryWithoutLives`).

## Model

| member | source | states |
|---|---|---|
| Geometry.OverlapsSymmetric | client-mario-landv1gb.py:307-309 | the AABB overlap test is symmetric |
| Geometry.TouchingDoesNotOverlap | client-mario-landv1gb.py:307-309 | the test is strict: boxes that only share an edge do not overlap |
| Physics.Steer | client-mario-landv1gb.py:289-297 | a speed within ±8/5 stays within it; left accelerates towards −8/5 and right towards +8/5, clamped; with no key the speed moves towards 0 by 3/20 and stops at 0 rather than crossing it, and 0 stays 0 |
| Physics.LeftOverridesRight | client-mario-landv1gb.py:289-292 | holding left and right together acts as left alone |
| Physics.InputStep | client-mario-landv1gb.py:286-302 | a dead player is unchanged; otherwise velX is steered; a jump sets velY to −9/2 and clears grounded only when grounded, and changes nothing in the air; position and animation are untouched |
| Physics.FirstHit | client-mario-landv1gb.py:307-314 | the result is the first index whose platform overlaps the box; None exactly when no platform overlaps |
| Physics.SweepXFirstHit | client-mario-landv1gb.py:307-314 | the horizontal pass leaves x and velX alone when nothing overlaps; otherwise it snaps against the first overlapping platform and leaves velX 0 |
| Physics.SweepYFirstHit | client-mario-landv1gb.py:316-326 | the vertical pass: with no overlap nothing changes; falling onto the first overlapping platform lands on its top with velY 0 and grounded; rising into it stops at its underside with velY 0; zero velocity changes nothing |
| Physics.PhysicsStep | client-mario-landv1gb.py:304-326 | physics changes only position, velocity and grounded |
| Physics.PhysicsFree | client-mario-landv1gb.py:305-316 | with no platform in the way: x' = x + velX, y' = y + velY + 1/4, velY' = velY + 1/4, grounded' = false |
| Physics.PhysicsHorizontal | client-mario-landv1gb.py:307-314 | any horizontal overlap leaves velX 0; moving right puts the right edge on the first overlapping platform's left edge, moving left puts the left edge on its right edge |
| Physics.PhysicsGrounded | client-mario-landv1gb.py:316-324 | grounded afterwards exactly when falling into some platform, and then velY is 0 and the player's bottom is some platform's top |
| Physics.PhysicsRising | client-mario-landv1gb.py:325-326 | a rising collision leaves grounded false, velY 0 and the head at the platform's underside |
| Physics.SweepXStops | client-mario-landv1gb.py:307-314 | any overlap during the horizontal pass stops horizontal motion; no overlap leaves position and velocity as they were |
| Physics.SweepYLands | client-mario-landv1gb.py:316-326 | a vertical pass from ungrounded ends grounded exactly when falling into an overlapping platform, then at rest on a platform top; rising stops at the first platform's underside |
| Physics.FlipLowBit | client-mario-landv1gb.py:336 | `frame ^= 1` flips the lowest bit and keeps the others |
| Physics.AnimationStep | client-mario-landv1gb.py:332-338 | a living player's timer advances by 1; walking on the ground flips the frame exactly on multiples of 8; otherwise the frame is 0; frames stay in {0, 1}; a dead player is unchanged |
| Physics.SpeedStaysBounded | client-mario-landv1gb.py:286-338 | a whole player update, collisions included, keeps the horizontal speed within ±8/5 |
| Physics.NoJumpInTheAir | client-mario-landv1gb.py:299-302 | an airborne player's jump key changes neither velY nor grounded |
| Physics.JumpFromSpawn | client-mario-landv1gb.py:328-338 | a clean jump from the ground at the spawn point leaves the player rising at −9/2 + 1/4 and airborne |
| Physics.Player.constructor | client-mario-landv1gb.py:279-284 | a new player is at rest, airborne, alive, frame 0 and timer 0 at the given point |
| Physics.Player.ApplyInput | client-mario-landv1gb.py:286-302 | apply_input changes the fields as InputStep says |
| Physics.Player.Physics | client-mario-landv1gb.py:304-326 | physics changes the fields as PhysicsStep says |
| Physics.Player.ResolveHorizontal | client-mario-landv1gb.py:307-314 | the horizontal loop over the platforms computes SweepX |
| Physics.Player.ResolveVertical | client-mario-landv1gb.py:317-326 | the vertical loop over the platforms computes SweepY |
| Physics.Player.Update | client-mario-landv1gb.py:328-338 | update changes the fields as UpdateStep (input, physics, animation) says |
| Scrolling.Follow | client-mario-landv1gb.py:134-138 | the new scroll is the largest of 0, the old scroll and target − 80; it is never negative, never below a non-negative old scroll, and leaves the target at most 80 ahead |
| Scrolling.FollowIdempotent | client-mario-landv1gb.py:134-138 | following the same target twice is following it once |
| Scrolling.Camera.constructor | client-mario-landv1gb.py:132-133 | the camera starts at 0 |
| Scrolling.Camera.Update | client-mario-landv1gb.py:134-138 | update sets scroll_x as Follow says |
| Level.Level11 | client-mario-landv1gb.py:419-445 | level 1-1 has 8 platforms and 6 coins |
| Level.Level11Layout | client-mario-landv1gb.py:419-445 | level 1-1 is well formed: the spawn box touches no platform, coin or goal, and the goal ends above the screen bottom; its six coins are distinct |
| GameLoop.Reset | client-mario-landv1gb.py:413-417 | reset_level zeroes score, coins and timer and sets time to 400, leaving lives and mode unchanged |
| GameLoop.PickupSides | client-mario-landv1gb.py:509-517 | a pickup pass keeps exactly the coins the player does not overlap and collects exactly those it does |
| GameLoop.CoinsPartitioned | client-mario-landv1gb.py:509-517 | every coin is either kept or collected, exactly once (multisets and counts add up) |
| GameLoop.PickupPrefix | client-mario-landv1gb.py:509-514 | one more coin in the pass is kept or collected according to the overlap test |
| GameLoop.NothingToCollect | client-mario-landv1gb.py:509-517 | with no coin overlapping the player the pass keeps all coins and collects none |
| GameLoop.CollectedOnce | client-mario-landv1gb.py:509-517 | a second pass at the same position collects nothing: each coin is removed at most once |
| GameLoop.InitialInv | client-mario-landv1gb.py:447-455 | program start satisfies the invariant |
| GameLoop.EventInv | client-mario-landv1gb.py:457-472 | every key or quit event keeps the invariant |
| GameLoop.EventsInv | client-mario-landv1gb.py:457-472 | a frame's whole event queue keeps the invariant |
| GameLoop.SecondsStep | client-mario-landv1gb.py:484-486 | the seconds counted by timer // 60 go up by one exactly when timer reaches a multiple of 60 |
| GameLoop.ClockStepInv | client-mario-landv1gb.py:484-488 | the clock step keeps time = 400 − timer // 60, and a clock that reaches 0 while playing ends the game |
| GameLoop.UpdateKeepsPlayer | client-mario-landv1gb.py:328-338 | the player update keeps the player alive with a non-negative timer, a frame in {0, 1} and a horizontal speed within ±8/5 |
| GameLoop.TickShape | client-mario-landv1gb.py:483-523 | a tick takes timer and time from the clock step; the mode is the clock's, GAME_OVER or VICTORY; lives never grow; the player is the updated one or a respawned one; coins, count and score are one pickup pass at the final position |
| GameLoop.TickLevelInv | client-mario-landv1gb.py:483-523 | a playing tick keeps the invariant of the level being played: score = 200·coins, collected + remaining = the level's coins, remaining ⊆ level coins, the clock relation, lives ≤ 3, scroll ≥ 0, a well-behaved player whose horizontal speed is within ±8/5 |
| GameLoop.TickInv | client-mario-landv1gb.py:483-523 | a playing tick keeps the invariant |
| GameLoop.FrameInv | client-mario-landv1gb.py:456-523 | one main-loop iteration keeps the invariant |
| GameLoop.RunInv | client-mario-landv1gb.py:455-523 | any number of main-loop iterations keep the invariant |
| GameLoop.ReachableInv | client-mario-landv1gb.py:447-523 | every world reached from program start satisfies the invariant |
| GameLoop.EnterStarts | client-mario-landv1gb.py:466-472 | Enter on the menu or game-over screen starts playing with counters reset, lives carried over, a fresh level 1-1, the player at (32, 100) and scroll 0 |
| GameLoop.EnterIgnored | client-mario-landv1gb.py:466-467 | Enter while playing or on the victory screen changes nothing |
| GameLoop.EscapeToMenu | client-mario-landv1gb.py:461-463 | Escape while playing goes to the menu and resets nothing |
| GameLoop.EscapeQuits | client-mario-landv1gb.py:458-465 | Escape on the menu, game-over or victory screen, and closing the window, stop the loop and change nothing else |
| GameLoop.StoppedStaysStopped | client-mario-landv1gb.py:455-456 | once running is false no further frame runs |
| GameLoop.TickClock | client-mario-landv1gb.py:484-486 | each tick increases timer by 1 and decreases time by 1 exactly when timer becomes a multiple of 60 |
| GameLoop.PlayingTimerBound | client-mario-landv1gb.py:484-488 | while playing, timer stays below 400·60 |
| GameLoop.TimeUp | client-mario-landv1gb.py:484-488 | the 24000th tick of an attempt empties the clock and ends in GAME_OVER, or VICTORY if the goal is reached on it |
| GameLoop.GoalWins | client-mario-landv1gb.py:519-523 | overlapping the goal at the end of a tick wins, overriding a GAME_OVER set earlier in the same tick |
| GameLoop.FallOnLastLife | client-mario-landv1gb.py:494-499 | falling below the screen with one life or fewer costs a life, ends in GAME_OVER, and does not respawn the player |
| GameLoop.AfterRespawn | client-mario-landv1gb.py:500-523 | right after a respawn the camera, pickup and goal steps change nothing |
| GameLoop.FallRespawns | client-mario-landv1gb.py:494-503 | falling with lives to spare costs one life, respawns the player at (32, 100) with scroll 0, collects nothing and does not win |
| GameLoop.RetryWithoutLives | client-mario-landv1gb.py:466-471 | after the last life is lost, Enter starts a new attempt with the lives left after the fall, 0 or fewer |
| GameLoop.GameState.constructor | client-mario-landv1gb.py:405-411 | a new game state is the menu with 3 lives, no score or coins, time 400 and timer 0 |
| GameLoop.GameState.ResetLevel | client-mario-landv1gb.py:413-417 | reset_level changes the fields as Reset says |
| GameLoop.Game.constructor | client-mario-landv1gb.py:447-455 | the main loop starts with the initial world: menu, level 1-1, player at the spawn point, camera at 0, running |
| GameLoop.Game.HandleEvent | client-mario-landv1gb.py:457-472 | one event changes the world as EventStep says |
| GameLoop.Game.CollectCoins | client-mario-landv1gb.py:509-517 | the pickup loop changes the world as PickupStep says |
| GameLoop.Game.CollectAt | client-mario-landv1gb.py:509-517 | iterating over a copy and removing from the live list leaves the uncollected coins in order, and counts and scores the collected ones |
| GameLoop.Game.RemoveCoin | client-mario-landv1gb.py:514-516 | removing one coin drops it from the list, adds one coin and 200 points |
| GameLoop.Game.CountTick | client-mario-landv1gb.py:483-489 | the clock code changes the game state as ClockStep says |
| GameLoop.Game.CheckFall | client-mario-landv1gb.py:494-503 | the fall check changes the world as FallStep says |
| GameLoop.Game.CheckGoal | client-mario-landv1gb.py:519-523 | the goal check changes the world as GoalStep says |
| GameLoop.Game.Tick | client-mario-landv1gb.py:482-523 | the PLAYING branch changes the world as TickStep says |
| GameLoop.Game.Frame | client-mario-landv1gb.py:456-523 | one main-loop iteration changes the world as FrameStep says |
| GameLoop.Game.Run | client-mario-landv1gb.py:455-523 | the main loop over a script of frames changes the world as RunSteps says |

## Left out

- Sound synthesis and playback (the square-wave generator, the sound-effect table and every `.play()` call). They do not affect game state.
- pygame initialisation, the window, the frame clock, scaling and `sys.exit`. They are I/O.
- Keyboard polling (`pygame.key.get_pressed()`) and the event pump. The held keys are an `Input` record (left, right, jump) given to each tick. The events are a list of `Event` values given to each frame. The main loop runs over a finite script of frames, not forever.
- All drawing, the sprite arrays, the HUD and the screen texts. They are presentation only.
- `Coin.update`: an animation phase that nothing reads.
- `SpriteBase.active`: never read. `alive` is modelled, although nothing in the source ever sets it to false.
- IEEE-754 rounding of the position and velocity arithmetic. The model computes with exact reals and does not claim bit-exact agreement with Python floats.
- Object identity of coins. `coins.remove(coin)` removes that coin object. The model removes the coin at its position in the live list, which is the same one.
- Object identity. The model does not compare object identities. A respawn or a restart allocates a new `Player`, and only its state is modelled.
