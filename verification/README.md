# Gyro Bounce: a verified model of the per-frame physics

Gyro Bounce is a phone arcade game. The player tilts the device to slide a
platform along the bottom of the screen and keep a falling ball in the air.
Each bounce off the platform scores one point. The game ends when the ball
drops out through the bottom edge. This project models the game's core:
the physics step that runs once per animation frame, the frame driver that
calls it, and the reset. It proves what those operations promise.

- `physics.dfy` (module `Physics`) holds the game's constants, the ball,
  platform and game state as values, and one function per phase of the
  physics step. `PhysicsStep` composes the phases in the order updatePhysics runs them:
  1. the platform follows the tilt and is clamped on screen;
  2. gravity is applied, then semi-implicit Euler integration;
  3. side-wall reflection with friction;
  4. top-wall reflection with restitution;
  5. the platform catch and the score;
  6. game over once the ball has fallen out.
- `frames.dfy` (module `Frames`) holds the frame driver: the `dt` cap and
  the rule that physics runs only while the game is running. `Run` applies
  the driver to any sequence of frames. Lemmas proved by induction state
  what holds over any number of frames.
- `game.dfy` (module `GameState`) holds the imperative form the game
  component actually has. `Ball` and `Platform` are objects whose fields
  each frame overwrites in place. `Game` holds them, plus the score and
  the running flag. Each method is proved to leave exactly the state the
  value-level functions describe, so every lemma about those functions
  holds of the objects too.

Coordinates and velocities are exact reals, not floating point. The screen
width and height are parameters. The latest tilt sample is a method
parameter (`accelX`), and so is the time elapsed since the previous frame.

The platform and top-wall bounces use the fixed restitution 1.02
(Game.js:19), and the step length is capped at 0.033 s (Game.js:79).

## Model

| member | source | states |
|---|---|---|
| `Physics.InitialWorld` | Game.js:31-42 | A new game is running with score 0. The ball is at rest, 300 px above the platform's top edge, directly over the platform's centre in the middle of the screen. The sizes are the fixed ones, and on a screen that fits the platform and the ball are horizontally on screen. |
| `Physics.MovePlatform` | Game.js:103-106 | The platform's new x is the point of [0, W − width] nearest to x + desiredVx·dt, so it always ends on screen. When the platform is wider than the screen it ends at W − width, off the left edge. Width and height are unchanged. |
| `Physics.Integrate` | Game.js:109-111 | vy grows by exactly GRAVITY·dt before either coordinate moves. x and y then advance by the updated velocities times dt (semi-implicit Euler). vx and the radius are untouched. |
| `Physics.SideWalls` | Game.js:114-120 | After the wall check the ball's x is the point of [r, W − r] nearest to where it was, so the ball is inside both walls. On a hit vx becomes −0.85·vx: the sign flips and the speed drops to 85 %. With no hit the ball is unchanged. y and vy are never touched. |
| `Physics.TopWall` | Game.js:123-126 | The new y is max(y, r), so the ball's top edge is never above the screen. On a hit vy becomes −1.02·vy, which turns an upward ball downward. With no hit the ball is unchanged. |
| `Physics.Touches` | Game.js:129-135 | The contact test (nearest-x distance, `dy >= 0`, top edge not past the platform) holds exactly when the ball's centre is within r vertically of the platform's top edge and within r + 0.0001 horizontally of its span. |
| `Physics.PlatformBounce` | Game.js:137-148 | A catch needs contact while moving down. It leaves the ball 0.01 px above the platform. It sets vy to minus 1.02 times the old speed, so the ball always leaves upward. vx gains 0.35·desiredVx. Without a catch the ball is unchanged. x and the radius never change. |
| `Physics.PhysicsStep` | Game.js:98-154 | One frame keeps the sizes and keeps the platform and the ball horizontally on screen. The score rises by one exactly when the ball caught on the platform was moving down, and otherwise stays the same. A ball moving up at contact never scores. `running` is cleared exactly when the ball's top edge ends below the bottom, and is never set. A scoring frame never ends the game. |
| `Physics.WallSendsBallInward` | Game.js:110-120 | A ball that starts the frame between the walls and crosses one during a frame of positive length leaves that wall moving back into the screen. |
| `Physics.NoTunnelling` | Game.js:109-137 | Suppose the falling ball starts the frame at or above the platform, crosses its top edge during integration, and is over it. Then the frame is a catch, provided it moves at most one diameter per frame. |
| `Frames.ClampDt` | Game.js:79 | The step length is the smaller of the elapsed seconds and 0.033, so physics never advances more than 0.033 s per frame. |
| `Frames.Frame` | Game.js:79-84 | A frame changes nothing when the game is stopped. It never restarts a game, never lowers the score and adds at most one point. It keeps the sizes and the on-screen invariant. |
| `Frames.RunAppend` | Game.js:73-92 | Running two batches of frames one after the other is the same as running all of them in order. |
| `Frames.StoppedWorldIsFrozen` | Game.js:82-84 | Once the game is stopped, any number of frames leave ball, platform and score exactly as they were. |
| `Frames.GameOverIsFinal` | Game.js:151-153 | Once some frames have ended the game, further frames change nothing until a reset. |
| `Frames.RunNeverRestarts` | Game.js:82-84 | A game still running after any frames was running before them. Only a reset restarts it. |
| `Frames.RunScoreBounds` | Game.js:137-148 | Over any frames the score never decreases and rises by at most one per frame. |
| `Frames.RunStaysOnScreen` | Game.js:104-120 | Over any frames the sizes stay fixed, and the platform and the ball stay horizontally on screen. |
| `Frames.NewGameStaysOnScreen` | Game.js:31-42 | From a new game, after any n frames, the sizes are fixed, the platform and the ball are horizontally on screen, and the score is at most n. |
| `GameState.Game.constructor` | Game.js:31-42 | A new game object holds exactly the initial state, and its invariant holds. |
| `GameState.Game.ResetGame` | Game.js:47-57 | Reset restores the ball, the platform, the score and the running flag to the initial state, in place. The sizes are constant fields. |
| `GameState.Game.MovePlatformByTilt` | Game.js:103-106 | The in-place platform update leaves the platform `MovePlatform` describes. |
| `GameState.Game.MoveBall` | Game.js:109-126 | The in-place ball updates (gravity, integration, side walls, top wall) leave the ball that the phase functions composed in order describe. |
| `GameState.Game.CatchBall` | Game.js:129-148 | The in-place contact test and bounce leave the ball `PlatformBounce` describes. The score rises by one exactly on a catch. |
| `GameState.Game.UpdatePhysics` | Game.js:98-154 | The in-place step leaves exactly `PhysicsStep` of the old state and keeps the invariant. The score changes by 0 or 1, and `running` is never set. |
| `GameState.Game.Tick` | Game.js:79-84 | A frame with a clamped `dt` leaves exactly `Frame` of the old state. A stopped game is left unchanged. |

## Left out

- Tilt sensor subscription (Game.js:60-69, `ACCEL_UPDATE_MS`): a device-sensor callback; the latest sample is a parameter.
- Frame scheduling with `requestAnimationFrame` / `cancelAnimationFrame`: host scheduler plumbing; only the `dt` cap and the running gate are modelled.
- The first frame after start or reset, which only records the timestamp (Game.js:74-78, 55): scheduler plumbing; the model steps physics on every running frame.
- React state asynchrony: `setScore` and `setRunning` take effect at the next render, and the frame callback reads a `running` captured when it was installed; the model updates score and running at once.
- `setTick`, rendering and styles (Game.js:156-257), `PLATFORM_HEIGHT`: presentation only.
- Floating-point rounding: coordinates are exact reals.
- GameState.Game.constructor: requires a screen at least 140 px wide, with the platform at least 2·16 + 0.01 px below the top edge; the game assumes a phone screen of that size and does not check it.
- Menu.js and App.js (difficulty choice, high-score loading through the AsyncStorage library): not part of this model.
