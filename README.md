# Flappy Dragon game core, in Dafny

This project models the game logic of `flappy/src/main.rs`, a "flappy bird" clone written in Rust
on top of bracket_lib. The model covers:

- the session `State` and its three modes (Menu, Playing, End), driven by `tick`;
- the player's physics (`gravity_and_move` and `flap`);
- obstacle generation (`Obstacle::new`) and the collision test (`hit_obstacle`).

The model has two layers:

- **Values** (modules `Conversions`, `Obstacles`, `Players`, `Rules`). The session is a datatype,
  and each Rust operation is a function on it. The lemmas prove the game's properties about these
  functions.
- **Objects** (`Players.Player`, `Game.State`). These are classes whose fields the methods update
  in place, as the Rust `&mut self` methods do. Each method's postcondition says that the new state
  is the corresponding `Rules`/`Players` function applied to the old state.

Inputs that the game reads from its surroundings become parameters of `tick`:

- the frame time (`ctx.frame_time_ms`);
- the pressed key (`ctx.key`), one of Space, P, Q or any other key, or no key;
- the row drawn by the random number generator for a new obstacle's gap, which must lie in [10, 40).

Instead of setting `ctx.quitting`, `tick` returns it as a boolean.

Proved invariant of every reachable session (`Rules.Inv`, kept by `Rules.Tick` and so by any
run of ticks):

- the player's y is never negative;
- the velocity lies in [-2.0, 2.2);
- the frame-time accumulator lies in [0, 75];
- the obstacle's gap row lies in [10, 40), and its gap size is `max(2, 20 - score)` for the current
  score;
- the player's x is at least 5, and the score is never negative;
- the current wall is never behind the player;
- walls stand exactly 81 columns apart: the current wall is at `80 + 81 * score`;
- while the game is in progress, the player is alive.

The spacing is 81, not 80, because of how walls are passed. A wall is passed when the player's column reaches `wall.x + 1`, and the next wall
goes 80 columns ahead of that. So the player is always sampled in the wall's own column before it
scores (`Rules.ScoredWallWasPassedThroughGap`).

## Model

| member | source | states |
|---|---|---|
| `Conversions.AsI32` | flappy/src/main.rs:80-84 | `as i32` on a float drops the fraction toward zero; on non-negative values it is the floor |
| `Conversions.AsI32Advance` | flappy/src/main.rs:158 | moving one unit forward moves the player's integer column by exactly one |
| `Obstacles.GapSize` | flappy/src/main.rs:185 | the gap is at least 2, exactly 2 from score 18 on, and `20 - score` below that |
| `Obstacles.GapNarrows` | flappy/src/main.rs:185 | a higher score never gives a wider gap |
| `Obstacles.NewObstacle` | flappy/src/main.rs:180-187 | keeps the given x and gap row and sizes the gap for the score, so the obstacle is well formed for that score |
| `Obstacles.HitObstacle` | flappy/src/main.rs:200-206 | a hit happens iff the player's integer column is the wall's and y is outside the closed gap `[gapY - size/2, gapY + size/2]`; never in another column; never at the gap's centre row |
| `Players.GravityStep` | flappy/src/main.rs:153-162 | below the cap of 2.0 the velocity grows by exactly 0.2, otherwise it is unchanged; x advances by exactly 1; y becomes `y + velocity`, clamped so it is never negative |
| `Players.Impulse` | flappy/src/main.rs:164-166 | the velocity becomes -2.0 whatever it was; position unchanged |
| `Players.ImpulseIdempotent` | flappy/src/main.rs:164-166 | flapping twice is the same as flapping once |
| `Players.GravityKeepsVelocityInRange` | flappy/src/main.rs:153-156 | a physics step keeps the velocity in [-2.0, 2.2) |
| `Players.ImpulseKeepsVelocityInRange` | flappy/src/main.rs:164-166 | a flap leaves the velocity in [-2.0, 2.2) |
| `Players.Player.constructor` | flappy/src/main.rs:129-135 | a new player is at the given position with velocity 0 |
| `Players.Player.GravityAndMove` | flappy/src/main.rs:153-162 | updates the fields in place to the result of `GravityStep` |
| `Players.Player.Flap` | flappy/src/main.rs:164-166 | updates the fields in place to the result of `Impulse` |
| `Rules.NewSession` | flappy/src/main.rs:53-62 | the game starts in Menu with score 0 and frame time 0, the player at (5, 25) at rest, and the first wall at x 80 with gap 20; this session satisfies the invariant |
| `Rules.Restart` | flappy/src/main.rs:89-95 | restarting gives the fresh session of `new`, but in Playing, whatever came before |
| `Rules.AwaitKey` | flappy/src/main.rs:103-109 | in the menu and on the end screen, P restarts, Q asks to quit and changes nothing, and any other key or no key changes nothing |
| `Rules.Play` | flappy/src/main.rs:64-87 | frame time accumulates, and a physics step (`GravityStep` of the player) is taken only when it exceeds 75, resetting it to 0, so it stays at most 75; otherwise the player is untouched unless Space is pressed; Space applies `Impulse` after any step, keeping position, so it flaps whether or not a step was taken; passing the wall adds exactly 1 to the score and replaces the wall with one at `column + 80`, sized for the new score, which cannot be hit in that tick; otherwise score and wall are unchanged; the mode becomes End iff the player's row is past 50 or the current wall is hit |
| `Rules.Tick` | flappy/src/main.rs:169-177 | only Menu and End quit (on Q) or restart (on P), and otherwise leave the session as it is; Menu goes only to Menu or Playing, Playing only to Playing or End, and End only to End or Playing; Q while playing does not quit; a playing tick is exactly `Play`, and a menu or end-screen tick exactly `AwaitKey` |
| `Rules.MenuStartScenario` | flappy/src/main.rs:103-109 | example: from a fresh session, another key changes nothing; P gives the restarted session; Q during that game does not quit |
| `Rules.TickPreservesInv` | flappy/src/main.rs:64-95 | one tick keeps the session invariant (y ≥ 0, velocity range, accumulator in [0, 75], gap well formed for the score, wall ahead and 81 columns apart, alive while playing) |
| `Rules.ScoredWallWasPassedThroughGap` | flappy/src/main.rs:80-84 | when a wall is scored, the player was last sampled in that wall's column and inside its gap |
| `Rules.RunPreservesInv` | flappy/src/main.rs:169-177 | every session reached by any sequence of ticks satisfies the invariant |
| `Rules.RunNeverReturnsToMenu` | flappy/src/main.rs:169-177 | once a game has started, no sequence of ticks shows the menu again |
| `Rules.RunKeepsScoreUntilRestart` | flappy/src/main.rs:111-124 | without a P key the score never decreases, and the menu and the end screen (showing the score) stay exactly as they are |
| `Game.State.constructor` | flappy/src/main.rs:53-62 | the fields hold `NewSession`, which satisfies the invariant |
| `Game.State.Play` | flappy/src/main.rs:64-87 | updates the fields in place to the result of `Rules.Play` on the same player object |
| `Game.State.Restart` | flappy/src/main.rs:89-95 | replaces the player with a fresh one and sets the fields to `Rules.Restart`, which satisfies the invariant |
| `Game.State.MainMenu` | flappy/src/main.rs:97-110 | sets the fields and the returned quitting flag to `Rules.AwaitKey` |
| `Game.State.Dead` | flappy/src/main.rs:111-125 | sets the fields and the returned quitting flag to `Rules.AwaitKey` |
| `Game.State.Tick` | flappy/src/main.rs:169-177 | sets the fields and the returned quitting flag to `Rules.Tick`, and keeps the invariant |

## Left out

- Drawing: `Walls`, the `render` methods, screen clearing, text, and console switching. These read
  the state only to draw it, and never change it. The walls are drawn only and take no
  part in the death check.
- `main`, the terminal builder, font loading and `main_loop`. The run loop is modelled abstractly as
  `Rules.Run`, which stops at the first tick that asks to quit.
- `RandomNumberGenerator`: the gap row it draws is a parameter constrained to [10, 40).
- Floating point: `f32` fields are modelled as exact reals. Repeated additions of 0.2 therefore sum
  exactly here, which they do not in `f32`. The velocity range [-2.0, 2.2) is stated so that it also
  covers a step taken just below the cap.
- Integer width: `score`, obstacle columns and casts are unbounded integers. The model does not
  capture i32 overflow of `score += 1` or `x + SCREEN_WIDTH`, or the saturation of `as i32` at the
  bounds of i32. None of these is reachable within a realistic game.
- Obstacles.HitObstacle: halves the size with Dafny's division. It agrees with Rust's truncating
  `/` for the non-negative sizes that `NewObstacle` produces, and differs only for negative sizes,
  which no obstacle of the game has.
- `treehouse/src/main.rs` is not part of this model: it is console I/O around a membership test
  against a fixed list of three names.
