/**
 * The game state of the terminal Snake game (src/game.rs).
 *
 * In this revision the snake is a single cell, the direction is set to
 * `Right` at start-up and no operation of this file changes it
 * (`set_direction` is called by the game loop but not defined here), and the
 * fruit is placed once and never eaten. Coordinates are
 * Rust `u16` values; the arithmetic of a step is unchecked `u16` arithmetic,
 * which panics on overflow or underflow in a debug build, so a step is only
 * defined where it stays inside the `u16` range.
 */
module SnakeGame {

  /** The largest value of a Rust `u16`. */
  const MaxU16: int := 0xFFFF

  /** A Rust `u16`. */
  type U16 = x: int | 0 <= x <= MaxU16

  /** A cell of the terminal: column `x`, row `y` (row 0 is the top line). */
  datatype Point = Point(x: U16, y: U16)

  datatype Direction = Up | Down | Left | Right

  /** The fruit: where it lies and what it is worth. */
  datatype Fruit = Fruit(location: Point, points: U16)

  /** Success or failure of an operation whose failure is propagated with `?`. */
  datatype Result<T, E> = Ok(value: T) | Err(error: E)

  /** The error `crossterm::terminal::size()` reports when it cannot read the terminal size. */
  datatype IoError = SizeUnavailable

  /** Horizontal unit of a direction, in the terminal's coordinates. */
  function DX(d: Direction): int {
    match d
    case Left => -1
    case Right => 1
    case _ => 0
  }

  /** Vertical unit of a direction; rows grow downwards, so `Up` is -1. */
  function DY(d: Direction): int {
    match d
    case Up => -1
    case Down => 1
    case _ => 0
  }

  /** Manhattan distance between two cells. */
  function Distance(p: Point, q: Point): nat {
    (if p.x <= q.x then q.x - p.x else p.x - q.x) +
    (if p.y <= q.y then q.y - p.y else p.y - q.y)
  }

  /** `p` lies on a board of `columns` by `rows` cells. */
  predicate InBoard(p: Point, columns: int, rows: int) {
    p.x < columns && p.y < rows
  }

  /**
   * The one operation of a step in direction `d` does not overflow or
   * underflow: `y - 1` needs `y >= 1`, `y + 1` needs `y < 65535`, and
   * likewise for `x`.
   */
  predicate CanStep(p: Point, d: Direction) {
    match d
    case Up => p.y >= 1
    case Down => p.y < MaxU16
    case Left => p.x >= 1
    case Right => p.x < MaxU16
  }

  /** A step is defined exactly when the moved coordinates are still `u16` values. */
  lemma CanStepExactly(p: Point, d: Direction)
    ensures CanStep(p, d) <==>
              (0 <= p.x + DX(d) <= MaxU16 && 0 <= p.y + DY(d) <= MaxU16)
  {
  }

  /**
   * The cell next to `p` in direction `d`, computed with `u16` arithmetic as
   * `step_snake` does. It moves by the direction's unit and so lies at
   * Manhattan distance 1 from `p`.
   */
  function Neighbour(p: Point, d: Direction): (q: Point)
    requires CanStep(p, d)
    ensures q.x == p.x + DX(d) && q.y == p.y + DY(d)
    ensures Distance(p, q) == 1
    ensures q != p
  {
    match d
    case Up => Point(p.x, p.y - 1)
    case Down => Point(p.x, p.y + 1)
    case Left => Point(p.x - 1, p.y)
    case Right => Point(p.x + 1, p.y)
  }

  /** The four neighbours of a cell are pairwise different. */
  lemma NeighboursDistinct(p: Point, d: Direction, e: Direction)
    requires CanStep(p, d) && CanStep(p, e)
    ensures Neighbour(p, d) == Neighbour(p, e) <==> d == e
  {
  }

  /**
   * The middle of a board of `columns` by `rows` cells, rounded down. It lies
   * on the board and splits each side into halves that differ by at most one.
   */
  function Centre(columns: U16, rows: U16): (p: Point)
    requires 0 < columns && 0 < rows
    ensures InBoard(p, columns, rows)
    ensures 2 * p.x <= columns <= 2 * p.x + 1
    ensures 2 * p.y <= rows <= 2 * p.y + 1
  {
    Point(columns / 2, rows / 2)
  }

  /**
   * The first fruit, placed at the random cell `(fruitX, fruitY)`; the random
   * draws range over `0..columns` and `0..rows`, so the fruit is on the board.
   */
  function FirstFruit(columns: U16, rows: U16, fruitX: U16, fruitY: U16): (f: Fruit)
    requires fruitX < columns && fruitY < rows
    ensures InBoard(f.location, columns, rows)
    ensures f.location == Point(fruitX, fruitY) && f.points == 1
  {
    Fruit(Point(fruitX, fruitY), 1)
  }

  /** The state of one game: the snake's single cell, its direction and the fruit. */
  class Game {
    var snake: Point
    var direction: Direction
    var fruit: Fruit

    /**
     * The start of a game on a board of `columns` by `rows` cells, with the
     * fruit at the random cell `(fruitX, fruitY)`. The random draws must lie
     * in `0..columns` and `0..rows`; an empty range panics, so the board has
     * at least one column and one row.
     */
    constructor (columns: U16, rows: U16, fruitX: U16, fruitY: U16)
      requires fruitX < columns && fruitY < rows
      ensures snake == Centre(columns, rows) && InBoard(snake, columns, rows)
      ensures direction == Right
      ensures fruit.location == Point(fruitX, fruitY) && fruit.points == 1
      ensures InBoard(fruit.location, columns, rows)
    {
      snake := Centre(columns, rows);
      direction := Right;
      fruit := FirstFruit(columns, rows, fruitX, fruitY);
    }

    /** The snake's cell; reading it changes nothing. */
    function GetSnake(): (p: Point)
      reads this
      ensures p == snake
    {
      snake
    }

    /**
     * Moves the snake one cell in its direction. Only the snake changes; the
     * direction and the fruit stay as they were.
     */
    method StepSnake()
      requires CanStep(snake, direction)
      modifies this`snake
      ensures snake == Neighbour(old(snake), old(direction))
      ensures Distance(old(snake), snake) == 1
      ensures direction == old(direction) && fruit == old(fruit)
    {
      var x, y := snake.x, snake.y;
      snake := match direction
        case Up => Point(x, y - 1)
        case Down => Point(x, y + 1)
        case Left => Point(x - 1, y)
        case Right => Point(x + 1, y);
    }

    /** One tick of the game: a step of the snake, and nothing else. */
    method StepGame()
      requires CanStep(snake, direction)
      modifies this`snake
      ensures snake == Neighbour(old(snake), old(direction))
      ensures direction == old(direction) && fruit == old(fruit)
    {
      StepSnake();
    }
  }

  /**
   * Starts a game. `size` is what reading the terminal size gave; a failure
   * is passed on to the caller unchanged. On success the game starts at the
   * centre, heading right, with the fruit at the random cell given.
   */
  method InitGame(size: Result<(U16, U16), IoError>, fruitX: U16, fruitY: U16)
    returns (r: Result<Game, IoError>)
    requires size.Ok? ==> fruitX < size.value.0 && fruitY < size.value.1
    ensures size.Err? ==> r == Err(size.error)
    ensures size.Ok? ==> r.Ok? && fresh(r.value)
    ensures size.Ok? ==>
              var (columns, rows) := size.value;
              r.Ok? &&
              r.value.snake == Centre(columns, rows) &&
              r.value.direction == Right &&
              r.value.fruit == Fruit(Point(fruitX, fruitY), 1)
  {
    match size
    case Err(e) =>
      r := Err(e);
    case Ok((columns, rows)) =>
      var g := new Game(columns, rows, fruitX, fruitY);
      r := Ok(g);
  }
}
