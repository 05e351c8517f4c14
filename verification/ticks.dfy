/**
 * Repeated ticks. The drawer's game loop calls `step_game` once per tick. It
 * also calls `set_direction` when an arrow key arrives (src/drawer.rs:40), but
 * that operation is not defined in src/game.rs, so in this model nothing
 * changes the direction. What follows describes a run in which no arrow key
 * and no `q` arrives: after `n` ticks the snake has moved `n` cells in a
 * straight line, or the `u16` arithmetic of some step has failed on the way.
 */
module Ticks {
  import opened SnakeGame

  /** How many steps in direction `d` stay inside the `u16` range from `p`. */
  function Room(p: Point, d: Direction): (n: nat)
    ensures n == 0 <==> !CanStep(p, d)
  {
    match d
    case Up => p.y
    case Down => MaxU16 - p.y
    case Left => p.x
    case Right => MaxU16 - p.x
  }

  /** The first `n` steps in direction `d` from `p` are all defined. */
  predicate Survives(p: Point, d: Direction, n: nat)
    decreases n
  {
    n == 0 || (CanStep(p, d) && Survives(Neighbour(p, d), d, n - 1))
  }

  /** Where the snake is after `n` ticks in direction `d` from `p`. */
  function PositionAfter(p: Point, d: Direction, n: nat): Point
    requires Survives(p, d, n)
    decreases n
  {
    if n == 0 then p else PositionAfter(Neighbour(p, d), d, n - 1)
  }

  /** `n` ticks are all defined exactly when there is room for `n` steps. */
  lemma {:induction false} SurvivesExactly(p: Point, d: Direction, n: nat)
    ensures Survives(p, d, n) <==> n <= Room(p, d)
    decreases n
  {
    if n > 0 && CanStep(p, d) {
      SurvivesExactly(Neighbour(p, d), d, n - 1);
    }
  }

  /**
   * After `n` ticks the snake has moved `n` units along the direction and is
   * at Manhattan distance `n` from where it started.
   */
  lemma {:induction false} TicksClosedForm(p: Point, d: Direction, n: nat)
    requires Survives(p, d, n)
    ensures PositionAfter(p, d, n).x == p.x + n * DX(d)
    ensures PositionAfter(p, d, n).y == p.y + n * DY(d)
    ensures Distance(p, PositionAfter(p, d, n)) == n
    decreases n
  {
    if n > 0 {
      TicksClosedForm(Neighbour(p, d), d, n - 1);
    }
  }

  /**
   * From the start of a game, while no arrow key arrives, the snake runs
   * right along the middle row. It
   * can tick `65535 - columns/2` times before the `u16` addition fails, and
   * after `n` ticks it is on the board exactly when `columns/2 + n < columns`:
   * nothing wraps it around, so it runs off the right edge.
   */
  lemma StartRun(columns: U16, rows: U16, n: nat)
    requires 0 < columns && 0 < rows
    ensures Survives(Centre(columns, rows), Right, n) <==> columns / 2 + n <= MaxU16
    ensures columns / 2 + n <= MaxU16 ==>
              PositionAfter(Centre(columns, rows), Right, n) == Point(columns / 2 + n, rows / 2) &&
              (InBoard(PositionAfter(Centre(columns, rows), Right, n), columns, rows) <==> columns / 2 + n < columns)
  {
    var c := Centre(columns, rows);
    SurvivesExactly(c, Right, n);
    if columns / 2 + n <= MaxU16 {
      TicksClosedForm(c, Right, n);
    }
  }

  /**
   * Runs `n` ticks of the game loop in which no arrow key and no `q`
   * arrives, leaving out its drawing and timing. The snake ends where
   * `PositionAfter` says; the direction and the fruit do not change.
   */
  method Run(g: Game, n: nat)
    requires Survives(g.snake, g.direction, n)
    modifies g`snake
    ensures g.snake == PositionAfter(old(g.snake), g.direction, n)
    ensures g.direction == old(g.direction) && g.fruit == old(g.fruit)
  {
    var i := 0;
    while i < n
      invariant 0 <= i <= n
      invariant g.direction == old(g.direction) && g.fruit == old(g.fruit)
      invariant Survives(g.snake, g.direction, n - i)
      invariant PositionAfter(g.snake, g.direction, n - i) == PositionAfter(old(g.snake), g.direction, n)
    {
      g.StepGame();
      i := i + 1;
    }
  }
}
