# Snake game state, modelled in Dafny

This project models the game state of a terminal Snake game written in Rust
(`src/game.rs`). In the revision modelled here the game is at an early stage:

- the snake is a single cell (`Point` with `u16` coordinates);
- the game holds the snake, a `Direction` and a `Fruit` (a cell and a point
  value);
- `step_game` moves the snake one cell in its direction with plain `u16`
  arithmetic, so a step off row or column 0 underflows and a step past 65535
  overflows, both of which panic in a debug build;
- `init_game` puts the snake at the centre of the terminal, heading right, and
  a fruit worth 1 point on a random cell of the terminal.

This revision has no wrap-around board, no multi-segment body, no growth, no
eating of fruit, no score and no `set_direction`; the model follows the code.

`game.dfy` (module `SnakeGame`) holds the data model, the step as a function
(`Neighbour`) and as a method on the `Game` class, and the start of a game.
A step's `u16` arithmetic is a precondition (`CanStep`), matching the debug
build's panic. The terminal size and the random number generator are
parameters of the constructor and of `InitGame`.

`ticks.dfy` (module `Ticks`) follows the game loop, which calls `step_game`
once per tick. The game loop also calls `set_direction` when an arrow key
arrives (src/drawer.rs:40), but `src/game.rs` does not define it, so in the
model nothing changes the direction. The results of this module describe a run
in which no arrow key and no `q` arrives: then `n` ticks move the snake `n`
cells in a straight line. The module proves when those ticks stay inside the
`u16` range and where the snake ends up. From the start of a game, in such a
run, the snake goes right along the middle row and leaves the visible board
after `columns - columns/2` ticks. It then keeps going off screen until the
`u16` addition panics at column 65535.

## Model

| member | source | states |
|---|---|---|
| `SnakeGame.CanStepExactly` | src/game.rs:40-46 | a step is defined exactly when the moved coordinates are still `u16` values: `Up` needs `y >= 1`, `Down` needs `y < 65535`, `Left` needs `x >= 1`, `Right` needs `x < 65535` |
| `SnakeGame.Neighbour` | src/game.rs:40-46 | the stepped cell moves by the direction's unit vector (`Up`/`Down` keep `x` and change `y` by -1/+1, `Left`/`Right` keep `y` and change `x` by -1/+1), lies at Manhattan distance 1 and differs from the old cell |
| `SnakeGame.NeighboursDistinct` | src/game.rs:41-46 | the four match arms give four different cells: two directions give the same neighbour only if they are the same direction |
| `SnakeGame.Centre` | src/game.rs:56-59 | the starting cell `(columns/2, rows/2)` lies on a non-empty board and halves each side, rounding down |
| `SnakeGame.FirstFruit` | src/game.rs:63-69 | the first fruit lies at the random cell drawn from `0..columns` and `0..rows`, hence on the board, and is worth 1 point |
| `SnakeGame.Game.constructor` | src/game.rs:56-76 | a new game has the snake at the centre of the board, direction `Right` and the fruit, worth 1, on the board; empty random ranges are excluded, as `gen_range(0..0)` panics |
| `SnakeGame.Game.GetSnake` | src/game.rs:49-51 | returns the snake's current cell and reads the game without changing it |
| `SnakeGame.Game.StepSnake` | src/game.rs:37-47 | replaces the snake by its neighbour in the current direction (at distance 1), needs the step's `u16` arithmetic not to overflow or underflow, and leaves direction and fruit unchanged |
| `SnakeGame.Game.StepGame` | src/game.rs:33-35 | a tick is exactly one snake step; only the snake changes |
| `SnakeGame.InitGame` | src/game.rs:54-77 | a failure to read the terminal size is passed on unchanged; otherwise a fresh game starts at the centre, heading right, with a fruit worth 1 at the random cell |
| `Ticks.Room` | src/game.rs:42-45 | the number of steps left in a direction before the `u16` arithmetic fails is zero exactly when no step is possible |
| `Ticks.SurvivesExactly` | src/drawer.rs:23-26 | `n` consecutive ticks in one direction are all defined if and only if `n` is at most the room left in that direction |
| `Ticks.TicksClosedForm` | src/drawer.rs:23-26 | after `n` ticks the snake has moved `n` unit vectors along its direction and lies at Manhattan distance `n` from its start |
| `Ticks.StartRun` | src/game.rs:56-74 | from the start of a game, with no arrow key or `q` arriving, `n` ticks are defined iff `columns/2 + n <= 65535`; the snake is then at `(columns/2 + n, rows/2)`, and it is on the board iff `columns/2 + n < columns`, as nothing wraps it |
| `Ticks.Run` | src/drawer.rs:23-26 | running `n` ticks of the game loop with no arrow key or `q` arriving leaves the snake where `n` repeated steps in one direction put it, with direction and fruit unchanged |

## Left out

- The drawing of the snake, the tick timing and the message channel of the game loop (`src/drawer.rs`): terminal I/O and wall-clock time. `Ticks.Run` keeps only the loop's calls to `step_game`.
- The keyboard thread (`src/controller.rs`) and terminal set-up and tear-down (`src/main.rs`): concurrency and terminal I/O.
- `set_direction`: the game loop calls it (src/drawer.rs:40), but this revision of `src/game.rs` does not define it, so nothing in the model changes the direction.
- `crossterm::terminal::size()` and `rand::thread_rng()`: foreign calls. Their results are parameters: the size as a `Result` that may be an error, the random cell as two coordinates that the caller must draw from `0..columns` and `0..rows`.
- Release-build `u16` wrap-around: overflow and underflow are preconditions, as in a debug build, where they panic.
- The fruit's points are never read in this revision, so no property is stated about them beyond their initial value.
