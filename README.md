# Pinball game rules, modelled in Dafny

A browser pinball game wraps a 2D physics simulation in a small React shell.
This project models the two pieces of discrete logic in it and proves their
properties:

* **The game session** (`App.tsx`): the record of score, balls left,
  multiplier, round flags and high score, which changes only through four
  functional updates — start a round, add points, lose a ball, end the round.
  In `game_session.dfy` these are pure `GameState -> GameState` functions.
  A sequence of the events that reach the session (the start button, the
  engine's score report, its ball-lost report) is a `Run` over them. `Inv`
  states what every reachable state satisfies: balls in 0..3, multiplier 1,
  a non-negative score, never both running and over, and a running round
  has a ball.
* **The engine's rules** (`components/PinballEngine.tsx`), with the physics
  library abstracted away:
  * `table.dfy` holds the table builder: walls, the plunger-lane wall,
    slopes, three bumpers, two targets, and the two flipper assemblies. Each
    assembly is a body, a pivot joint and a stop joint. All of them are
    values in registration order, with counts, layout and mirror-symmetry
    lemmas.
  * `engine.dfy` holds the collision scorer (`PairScores`, `Emissions`), the
    flipper return (`Clamp`, `RestLeft`, `RestRight`) and the key rules
    (`KeyResponse`). It also holds the class `PinballEngine`, whose fields
    are the single ball slot, the world's contents and the two flipper
    angles. Its methods `Tick`, `KeyDown` and `OnCollisions` change that
    state as the tick handler, key handler and collision handler do. The
    object invariant `Valid` says the world is the table plus, exactly when
    the slot is full, one ball, so more than one ball can never exist.
* `scenario.dfy` wires the two together as the app does: the engine's score
  events go to `UpdateScore`, and its ball-lost report goes to `OnBallLost`.
  It proves two end-to-end rounds. In the first, two bumper hits and a
  target hit give 700 points, and a drain costs one ball while the round
  goes on. In the second, the last drain ends the round, and the engine built
  for the stopped round spawns nothing and reports nothing.

`constants.dfy` holds the values of `constants.ts`: the 450×800 field, the
physics tuning, and the point values. The wall (10) and ramp (1000) values
are defined, but no collision path uses them. `common.dfy` holds the small
generic pieces both sides use: an option type, `Max`, and the total of a
list of points.

Modelling choices:

* Scores and ball counts are `int`, and layout coordinates are `int`. The
  ball position and the flipper angles are `real`.
* Static bodies' angles are stored as multiples of π (`0.1` stands for π/10).
* `LoseBall` returns the game-over request it issues, with the score of that
  moment. `OnBallLost` applies that request right after the update. This is
  how the nested state update inside `loseBall` plays out.
* The engine never calls the `onGameOver` callback it is given: it leaves
  that prop unused (`components/PinballEngine.tsx:13`). Game over comes only
  through the session's own `loseBall`.
* The engine is rebuilt whenever the session's running flag changes. A new
  `PinballEngine` object stands for each rebuild, and its constructor spawns
  the first ball when the round is running.
* The world records each body as it was registered; the ball's current
  position lives in the slot. `Integrate` stands for the physics library's
  step: it moves the ball and turns the flippers between ticks, computing
  nothing itself.

The code behaves as follows in three places worth noting:

* The tick returns early when there is no ball
  (`components/PinballEngine.tsx:164`), so the flipper clamp only runs while
  a ball is in play. The angles are guaranteed to lie in [−0.5, 0.5] only
  after a tick that began with a ball, not after every tick.
* A ball counts as being in the plunger lane when x > 400, strictly.
* A new round does not remove an old ball first. The engine is rebuilt only
  when the running flag changes, and the start button is shown only when no
  round is running.

## Model

| member | source | states |
|---|---|---|
| `Common.Max` | App.tsx:31 | the larger of the two numbers: at least each of them and equal to one of them |
| `GameSession.Initial` | App.tsx:9-16 | start-up state: score 0, 3 balls, multiplier 1, neither running nor over, the stored high score; satisfies `Inv` |
| `GameSession.StartGame` | App.tsx:18-27 | resets score to 0, balls to 3, multiplier to 1, sets running and not over, keeps the high score; the result satisfies `Inv` from any state |
| `GameSession.HandleGameOver` | App.tsx:29-40 | new high score is the larger of the old one and the final score (so it never drops and is at least the final score); round stopped and over; score, balls and multiplier unchanged; preserves `Inv` |
| `GameSession.UpdateScore` | App.tsx:42-47 | score grows by points × multiplier; every other field unchanged; non-negative points preserve `Inv` |
| `GameSession.LoseBall` | App.tsx:49-56 | with more than one ball: one fewer ball, no game-over request; otherwise balls become 0 and game over is requested with the current score; nothing else changes |
| `GameSession.OnBallLost` | App.tsx:29-57 | loss then the requested game over in sequence: with balls > 1 exactly one ball fewer and nothing else changed; otherwise 0 balls, round over and stopped, high score max(old, score); high score never drops; preserves `Inv` |
| `GameSession.RunPreservesInv` | App.tsx:18-57 | every sequence of start, non-negative score and ball-lost events keeps `Inv` (balls 0..3, multiplier 1, score ≥ 0, not running and over at once, a running round has a ball) |
| `GameSession.HighScoreNeverDecreases` | App.tsx:29-40 | no sequence of events lowers the high score |
| `GameSession.BallsStayInRange` | App.tsx:49-56 | starting from 0..3 balls, no sequence of events (losses included) leaves 0..3; in particular balls never go negative |
| `GameSession.LoseBallsCount` | App.tsx:49-56 | n losses in a row leave max(0, balls − n) balls and the score untouched |
| `GameSession.AddPointsTotal` | App.tsx:42-47 | feeding a list of points adds multiplier × their sum to the score and changes nothing else |
| `Table.CreateFlipper` | components/PinballEngine.tsx:83-117 | pivot at x − 40 (left) or x + 40 (right), at the body's end; stop anchor 60 units from the pivot towards the tip and 20 up, tied to the other end; pivot stiffness 1, length 0; stop stiffness 0.1, length 40; the body is an 80 × 15 rounded rectangle with corner radius 7 |
| `Table.TableRoleCount` | components/PinballEngine.tsx:138-144 | the table registers exactly 3 bumpers, 2 targets, 2 flippers, 6 unlabelled walls and slopes, no ball, and 4 joints |
| `Table.BumperLayout` | components/PinballEngine.tsx:63-74 | bumpers have radius 25 and restitution 1.5, sit at (165, 200), (285, 200), (225, 280), symmetric about the field's centre line |
| `Table.FlippersMirrored` | components/PinballEngine.tsx:119-120 | the right assembly is the left one mirrored about x = 205; pivots at (90, 700) and (320, 700) |
| `Table.SpawnPoint` | components/PinballEngine.tsx:127 | the spawn point lies in the plunger lane (400 < x < 440) and near the bottom of the field |
| `Table.BallBody` | components/PinballEngine.tsx:126-132 | the ball body carries the ball role, is dynamic and is placed at the spawn point |
| `Engine.PairScores` | components/PinballEngine.tsx:148-158 | a pair emits one 100 exactly when either body is a bumper and one 500 exactly when either is a target, nothing else; no event when neither; bumper before target when both |
| `Engine.Emissions` | components/PinballEngine.tsx:147-160 | the events of a batch, each pair's `PairScores` pair after pair; no pair adds more than two events |
| `Engine.EmissionsAppend` | components/PinballEngine.tsx:147-160 | the events of a batch are the concatenation of the events of its parts, in order |
| `Engine.EmissionsCount` | components/PinballEngine.tsx:147-160 | a batch emits exactly one 100 per pair touching a bumper and one 500 per pair touching a target, and no other events |
| `Engine.EmissionsValues` | components/PinballEngine.tsx:147-160 | every emitted event is worth 100 or 500 |
| `Engine.EmissionsTotal` | components/PinballEngine.tsx:147-160 | a batch's points total 100 per bumper pair plus 500 per target pair |
| `Engine.Clamp` | components/PinballEngine.tsx:175 | result lies in [−0.5, 0.5], equals the input inside it, and the nearer bound outside it |
| `Engine.RestLeft` | components/PinballEngine.tsx:175 | one tick of return for the left flipper, clamp(a + 0.1): within [−0.5, 0.5]; a + 0.1 when a lies in [−0.6, 0.4]; 0.5 from 0.4 upwards; −0.5 from −0.6 downwards |
| `Engine.RestRight` | components/PinballEngine.tsx:178 | one tick of return for the right flipper, clamp(a − 0.1): within [−0.5, 0.5]; a − 0.1 when a lies in [−0.4, 0.6]; −0.5 from −0.4 downwards; 0.5 from 0.6 upwards |
| `Engine.LeftSettles` | components/PinballEngine.tsx:174-176 | from inside the travel, with no physics step between ticks, after n ticks the left flipper is at min(0.5, a + 0.1·n) |
| `Engine.RightSettles` | components/PinballEngine.tsx:177-179 | from inside the travel, with no physics step between ticks, after n ticks the right flipper is at max(−0.5, a − 0.1·n) |
| `Engine.FlippersReturnToRest` | components/PinballEngine.tsx:173-179 | from any angles, with no physics step between ticks, eleven or more ticks bring the left flipper to 0.5 and the right one to −0.5 |
| `Engine.SpawnPos` | components/PinballEngine.tsx:127 | a new ball is in the plunger lane (x > width − 50) and not below the drain line |
| `Engine.KeyResponse` | components/PinballEngine.tsx:183-202 | no effect unless a round runs; Z and M push the left and right flipper up by 0.15; launch spawns exactly when the slot is empty, nudges (0.06) exactly when a ball is in the lane, and otherwise does nothing |
| `Engine.WorldCounts` | components/PinballEngine.tsx:133-144 | the world always holds 3 bumpers, 2 targets, 2 flippers and one ball exactly when the slot is full |
| `Engine.RemoveBall` | components/PinballEngine.tsx:168 | removing the ball body from a world with a ball leaves exactly the table |
| `Engine.PinballEngine.constructor` | components/PinballEngine.tsx:206-207 | registers the table; the slot holds one ball at the spawn point exactly when a round is running; angles start at 0 |
| `Engine.PinballEngine.CreateBall` | components/PinballEngine.tsx:126-135 | fills the empty slot with a ball at the spawn point and registers one ball body |
| `Engine.PinballEngine.Tick` | components/PinballEngine.tsx:163-180 | empty slot: nothing changes and no loss is reported; otherwise a ball below y = 850 is removed, the slot emptied and one loss reported, and the angles become clamp(a + 0.1) and clamp(a − 0.1), both within [−0.5, 0.5] |
| `Engine.PinballEngine.RemoveBallFromWorld` | components/PinballEngine.tsx:167-170 | empties the slot and leaves exactly the table in the world |
| `Engine.PinballEngine.KeyDown` | components/PinballEngine.tsx:183-202 | the effect is `KeyResponse` of the slot before the press; only a spawn changes the slot or the world, and then by one ball; angles unchanged; never a second ball |
| `Engine.PinballEngine.OnCollisions` | components/PinballEngine.tsx:147-160 | the events returned for a batch are exactly `Emissions` of its pairs, pair by pair in order |
| `Scenario.ScoreBatch` | App.tsx:87-92 | a batch's events, fed to the session, add multiplier × their total to the score and change nothing else |
| `Scenario.FirstBallDrains` | App.tsx:87-92 | two bumper hits and a target hit score 700; a drain reports one loss, leaves 2 balls and the round running; the next tick reports nothing |
| `Scenario.LastBallDrains` | App.tsx:49-57 | the last drain ends the round with the high score max(old, score); the engine rebuilt for the stopped round ignores every key and reports no loss |

## Left out

- Reading and writing the stored high score (`App.tsx:15`, `App.tsx:32`): storage I/O; the stored value is a parameter of `Initial`, and a value that does not parse is not modelled.
- The decorative stars (`App.tsx:66-78`), `components/HUD.tsx` and `components/OnScreenControls.tsx`: display only, and synthetic key events that reach the same key handler. The HUD is used only as the reason the start button never fires during a round.
- The physics library: contact resolution, gravity, restitution in action, and how an applied force turns a flipper or moves the ball. `Integrate` stands in for its step. So the model does not capture that a sustained flip input drives a flipper to its far stop within a bounded number of ticks.
- Engine.PinballEngine.KeyDown: reports a flip or nudge as an effect value (side and vertical force) and changes no angle or position, because the physics library applies the force.
- The delayed plunge impulse after a spawn (`components/PinballEngine.tsx:194-198`) and the bumper flash with its timed colour restore (`components/PinballEngine.tsx:151-154`): timer-driven, and the flash is presentation only.
- The flippers' collision groups (`components/PinballEngine.tsx:88`): a counter inside the physics library; render styles are left out too.
- Engine creation, the renderer and runner, the key listener's registration and the teardown (`components/PinballEngine.tsx:26-47`, `204`, `210-217`): DOM and library plumbing. A rebuild is a new `PinballEngine` object.
- React's update queuing and effect re-runs: `OnBallLost` is the loss update followed by the game-over update, in that order.
- The null checks on the flipper handles (`components/PinballEngine.tsx:174`, `177`, `186`, `189`): the handles are always set before any handler can run, so the angles are plain fields.
- Floating point: ball positions and angles are exact reals, and scores are unbounded integers.
