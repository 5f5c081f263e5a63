# netpong gameplay rules in Dafny

A model of the gameplay core of netpong, a two-paddle pong game built on the Bevy engine. The
model covers the per-tick simulation as a state machine over exact reals:

- the fixed-tick systems of `FixedUpdatePlugin`: `handle_velocity` moves the ball, `handle_input`
  serves and moves the paddles, and `check_for_collisions` queues a `Scored` event when the ball
  leaves the court, bounces it off the walls and reflects it off the paddles with spin. They run
  chained in that order;
- the round reset `handle_scored` of `UpdatePlugin`: it pauses the game, puts the ball and
  paddles back, credits the first queued point and clears the queue;
- the earlier single-file version in `src/main.rs`, with its start-up state, its copies of the
  four systems, its unguarded wall flip and its unordered fixed-tick schedule.

The game world is the class `Game.World`: the `Paused` flag, the `Score` pair, the ball's
translation and velocity, the paddles in query order, and the queue of unread `Scored` events.
Each system is a method that changes the world in place. Its postcondition says the new state is
a function of the old one (`FixedUpdate.Input`, `FixedUpdate.Collide`, `Update.Scored`, ...).
Those functions carry the rules as contracts, and lemmas relate them to each other. Examples:
the game configuration is preserved, a tick at rest only serves, a paddle cannot re-trigger,
and a rally ends with exactly one point.

Modules: `Math` (vectors, `clamp`), `Bounding` (circle-versus-box test), `Constants`
(src/game/constants.rs), `Components` (entities, resources and events as values), `Utils` (the
assumption on the bounce normalisation), `Game` (the world, the start-up state, the running-game
invariant `Standard`), `FixedUpdate`, `Update`, `MainVariant` and `Play` (properties of whole
rounds).

The collision system runs on every fixed tick, paused or not
(src/game/systems/fixed_update.rs:90-156); only integration and paddle movement check the pause
flag. A paused tick therefore keeps the ball's velocity whenever the ball is away from the walls
and the paddles. The game pauses only at start-up and after a round reset, and both put the ball
at the centre, where it does not move while paused (`Game.InitialState`, `Update.Scored`). There
a paused tick changes nothing but the flag (`Play.PausedTickAtRest`).

## Model

| member | source | states |
|---|---|---|
| Math.Clamp | src/game/systems/fixed_update.rs:69-72 | the result is the value nearest to the input inside `[lo, hi]`: the input itself when inside, the violated bound otherwise |
| Math.NormalizeHorizontal | src/game/systems/update.rs:31 | `normalize` of a vector on the x axis is the unit vector pointing the same way |
| Constants.ServeVelocityIsNormalizedDirection | src/game/systems/update.rs:31 | `INITIAL_BALL_DIRECTION.normalize() * BALL_SPEED` is (700, 0), of length `BALL_SPEED` |
| Bounding.IntersectsWithinReach | src/game/systems/fixed_update.rs:117-123 | an intersecting ball's centre lies within the box grown by the ball radius |
| Game.World.constructor | src/main.rs:63-116 | start-up: `Score(0,0)`, `Paused(true)`, no events, the two spawned paddles and the spawned ball |
| Game.InitialState | src/main.rs:63-116 | the start-up state has score 0-0, is paused, has the ball at the origin with velocity (700, 0), and paddles at x = LEFT_EDGE+PADDLE_MARGIN and RIGHT_EDGE-PADDLE_MARGIN with y = 0, which is a running-game configuration |
| FixedUpdate.Integrate | src/game/systems/fixed_update.rs:77-88 | only the ball position can change; nothing changes while paused; otherwise the ball moves by exactly velocity times dt |
| FixedUpdate.HandleVelocity | src/game/systems/fixed_update.rs:77-88 | the world after the system is `Integrate` of the world before |
| FixedUpdate.IntegrateSplits | src/game/systems/fixed_update.rs:82-87 | frame-rate independence: integrating over dt1 then dt2 equals integrating over dt1+dt2 |
| FixedUpdate.Direction | src/game/systems/fixed_update.rs:46-65 | direction is +1, 0 or -1; it is 0 exactly when both or neither of the paddle's keys are held, +1 exactly when only its up key is held |
| FixedUpdate.MovePaddle | src/game/systems/fixed_update.rs:67-73 | side and x never change; a zero direction leaves the paddle untouched; a moving paddle ends in `[BOTTOM_WALL+60, TOP_WALL-60]`; a paddle in that range stays in it; a moving paddle ends at its target clamped into that range, so a target past either end stops it exactly at that end and an unclamped target is reached exactly; up never lowers and down never raises a paddle |
| FixedUpdate.MovePaddles | src/game/systems/fixed_update.rs:45-74 | the paddle loop moves every paddle, in query order, as `MovePaddle` says |
| FixedUpdate.Input | src/game/systems/fixed_update.rs:32-75 | ball, score and events untouched; while paused no paddle moves and the flag becomes false iff Space was just pressed; while running the flag stays false and every paddle moves; x kept and clamp range kept |
| FixedUpdate.HandleInput | src/game/systems/fixed_update.rs:32-75 | the world after the system is `Input` of the world before |
| FixedUpdate.WallBounce | src/game/systems/fixed_update.rs:109-114 | vx kept; vy negated iff (y > TOP_WALL and vy > 0) or (y < BOTTOM_WALL and vy < 0); afterwards the ball never moves further out past a wall |
| FixedUpdate.HitOffset | src/game/systems/fixed_update.rs:133-135 | the offset is in [-1, 1], has the sign of the ball's height above the paddle centre, is that height over 60 when the ball is within the paddle's half-height, and is exactly +1 (-1) once the ball is 60 or more above (below) the centre |
| FixedUpdate.Deflected | src/game/systems/fixed_update.rs:133-142 | x mirrored; the added spin is the ball's height above the paddle centre times BALL_SPEED*SPIN_FACTOR/60 within the paddle's half-height and exactly ±BALL_SPEED*SPIN_FACTOR beyond it, so at most that either way, upwards iff the ball struck above the centre |
| FixedUpdate.HitPaddle | src/game/systems/fixed_update.rs:123-153 | velocity changes only if the ball intersects the paddle and moves toward it (left paddle, x<0, needs vx<0; right needs vx>0); then it becomes the launched reflection; afterwards the ball never moves toward a paddle it touches |
| FixedUpdate.PaddlePass | src/game/systems/fixed_update.rs:116-155 | with no intersected paddle the velocity is unchanged; the ball has vx = 0 afterwards iff it had before |
| FixedUpdate.Collide | src/game/systems/fixed_update.rs:90-156 | x < LEFT_EDGE queues exactly one `Scored{Right}`, x > RIGHT_EDGE exactly one `Scored{Left}`, both with velocity unchanged and no further checks; otherwise no event and the velocity is the wall bounce followed by the paddle pass; pause, score, positions untouched |
| FixedUpdate.CheckForCollisions | src/game/systems/fixed_update.rs:90-156 | the world after the system is `Collide` of the world before |
| FixedUpdate.CentreHit | src/game/systems/fixed_update.rs:131-152 | a centre hit on the left paddle at (-700, 0) hands (700, 0) to the normalisation, and the ball leaves to the right |
| FixedUpdate.OffCentreHit | src/game/systems/fixed_update.rs:133-142 | a hit 50 above centre has offset 5/6 and adds 875/3 of upward spin |
| FixedUpdate.Tick | src/game/systems/fixed_update.rs:19-27 | a chained tick never sets the pause flag, never touches the score, keeps paddle sides and x, and appends at most one event |
| FixedUpdate.RunFixedUpdate | src/game/systems/fixed_update.rs:17-29 | the schedule runs velocity, then input, then collisions: the world afterwards is `Tick` of the world before |
| Update.Credit | src/game/systems/update.rs:37-45 | `Left` adds one to `score.0` only, `Right` one to `score.1` only; the total rises by exactly 1 |
| Update.Recentred | src/game/systems/update.rs:33-35 | every paddle's y becomes 0, its side and x unchanged |
| Update.Scored | src/game/systems/update.rs:19-48 | an empty queue changes nothing; otherwise paused, ball at the origin with velocity (700, 0), paddles re-centred, first event's player credited, queue emptied; scores never decrease |
| Update.HandleScored | src/game/systems/update.rs:19-48 | the world after the system is `Scored` of the world before |
| Update.OnlyFirstEventCounts | src/game/systems/update.rs:37-46 | events queued behind the first make no difference to the reset |
| Update.ScoredIsIdempotent | src/game/systems/update.rs:26-46 | a second reset with no new event changes nothing |
| Update.ScoredKeepsStandard | src/game/systems/update.rs:33-35 | a reset keeps the running-game configuration |
| MainVariant.HandleInput | src/main.rs:153-196 | this copy of `handle_input` has the plugin's serve, key pairs and clamp: its result is `FixedUpdate.Input` |
| MainVariant.HandleVelocity | src/main.rs:198-209 | this copy of `handle_velocity` computes `FixedUpdate.Integrate` |
| MainVariant.HandleScored | src/main.rs:300-329 | this copy of `handle_scored` computes `Update.Scored`: reset, first event credited, queue cleared |
| MainVariant.UnguardedWallBounce | src/main.rs:230-235 | vy is negated whenever y is past a wall, whatever its sign; inside the walls nothing changes |
| MainVariant.VariantCollide | src/main.rs:211-278 | exit check queues one event for the opposite side and returns before any bounce; otherwise unguarded flip, then the same paddle pass (spin 0.50) as the plugin |
| MainVariant.CheckForCollisions | src/main.rs:211-278 | the world after this copy is `VariantCollide` of the world before; its inline spin factor gives the plugin's `Deflected` |
| MainVariant.UnguardedFlipIsInvolution | src/main.rs:230-235 | two consecutive flips at the same position restore the original vy |
| MainVariant.VariantCollideAgreement | src/main.rs:230-235 | the two collision systems agree except on a ball past a wall that already heads back in |
| MainVariant.UnguardedFlipTurnsBallOutwards | src/main.rs:230-235 | a ball at y = 351 with vy = -10 is turned outwards by the unguarded flip and left alone by the guarded one |
| MainVariant.RunSchedule | src/main.rs:66-69 | in any order the three systems never set the pause flag, never touch the score, keep paddle sides and x, and append at most as many events as the order runs the collision check |
| MainVariant.ScheduleCollidesOnce | src/main.rs:66-69 | every order the scheduler may pick runs `check_for_collisions` exactly once |
| MainVariant.RunFixedUpdate | src/main.rs:66-69 | the world afterwards is `RunSchedule` of the order the scheduler picked, any of the three systems' orders, and the tick queues at most one event |
| MainVariant.ScheduleOrderMatters | src/main.rs:66-69 | on the serving tick, input-then-velocity moves the ball by velocity times dt while velocity-then-input leaves it in place |
| Play.TickKeepsStandard | src/game/systems/fixed_update.rs:67-72 | a chained tick keeps both paddles pinned at their spawn x and inside the clamp range |
| Play.TouchedPaddleIsOnBallSide | src/game/systems/fixed_update.rs:123-125 | in a running game a ball touching a paddle is on that paddle's side of x = 0 |
| Play.CentredBallTouchesNothing | src/game/systems/fixed_update.rs:116-123 | a ball at the centre intersects no paddle of a running game |
| Play.PausedTickAtRest | src/game/systems/fixed_update.rs:38-43 | paused with the ball at the centre, a tick changes nothing but the flag, which Space clears |
| Play.ResetRestsUntilServe | src/game/systems/update.rs:27-35 | after a reset the game is paused and the next tick changes nothing but the flag, which Space clears |
| Play.PassIgnoresRetreatingBall | src/game/systems/fixed_update.rs:127-131 | paddles of one side leave a ball moving away from that side untouched |
| Play.PassLeavesNoApproach | src/game/systems/fixed_update.rs:116-155 | when all touched paddles are on one side, after the collider loop the ball moves away from each of them |
| Play.NoRetrigger | src/game/systems/fixed_update.rs:127-129 | in a running game, after the collision check, the ball moves away from every paddle it overlaps: at most one reflection per approach |
| Play.ExitedBallKeepsScoring | src/game/systems/fixed_update.rs:97-107 | once out and running, each tick queues one more point for the same player and the ball stays out |
| Play.RallyScoresOnce | src/game/systems/update.rs:37-46 | however many ticks queued the point, the reset credits exactly one point to the scorer and pauses with the ball at the centre |

## Left out

- Rendering and user interface: the camera, sprites, meshes, materials, the scoreboard text and `update_scoreboard`.
- App and plugin wiring (`src/client.rs`, the module files) and Bevy's ECS machinery: queries, `Res`/`ResMut`, event readers and writers, `Time`, `ButtonInput`. The elapsed time is the parameter `dt`; the keyboard is the value `Keys`, with Space's "just pressed" edge as a flag; the event queue is a `seq<Player>` of unread events.
- Query order: the paddles are iterated in sequence order, a fixed but arbitrary stand-in for Bevy's unspecified order.
- Bevy drops events that stay unread for two updates. `handle_scored` reads every update, so this does not arise and is not modelled. The relative cadence of `Update` and `FixedUpdate` is modelled only as "some ticks, then a reset" (`Play.RallyScoresOnce`).
- Transforms keep only x and y. The z coordinate (always 0), rotation and scale are not modelled; each paddle's scale is the constant `PADDLE_SIZE`, whose halves are the collider's half extents.
- `handle_velocity` loops over every entity with a `Velocity`. Only the ball has one, so the model moves the ball alone.
- `clamp_velocity_angle` (src/game/utils.rs:4-21, src/main.rs:281-298) and `Vec2::normalize` use f32 sqrt, atan2, cos and sin. Together they are the function parameter `launch`. The only assumption about it is `Utils.KeepsHorizontalSign`: the sign of x is preserved.
- FixedUpdate.HitPaddle: does not state the speed invariant (|v| = BALL_SPEED) or the 60-degree angle bound after a bounce, because those depend on the trigonometry left out above.
- `BoundingCircle::intersects(Aabb2d)` is Bevy library code. It is modelled as the closest-point test, `Bounding.CircleIntersectsAabb`, and that is an assumption.
- f32 is modelled as `real`: there is no rounding, no NaN and no infinity. The unbounded x bounds `f32::MIN`/`f32::MAX` of the paddle clamp are dropped.
- Update.Scored: the scores are unbounded `nat`; the `u32` overflow of `score.0 += 1` at 4294967295 is not modelled.
- The `common` module that declares `Player` is not part of this model; `Player` is declared here with its two constructors.

## Findings

| source | as written | input that shows it | evidently intended | confidence | as-written member | corrected member |
|---|---|---|---|---|---|---|
| src/main.rs:230-235 | vy is negated whenever the ball is past a wall, whatever its direction | ball at y = 351 (past TOP_WALL) already moving back with vy = -10: the flip sends it up and out again, and it keeps flipping while it stays past the wall | flip only a ball moving outwards, as src/game/systems/fixed_update.rs:109-114 does | high (not executed) | MainVariant.UnguardedFlipTurnsBallOutwards | FixedUpdate.WallBounce |
| src/main.rs:66-69 | the three fixed-tick systems are added without `.chain()`, so the scheduler may run them in any order | paused, Space just pressed, ball at rest position with velocity (700, 0), dt = 1/64: input before velocity moves the ball 10.9375 on the serving tick, velocity before input does not | one fixed order, velocity then input then collisions, as src/game/systems/fixed_update.rs:19-27 chains them | medium (not executed) | MainVariant.ScheduleOrderMatters | FixedUpdate.RunFixedUpdate |
