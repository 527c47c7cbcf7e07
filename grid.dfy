/**
 * The board: a square of TileCount x TileCount cells, addressed by integer
 * coordinates, and the four unit directions the snake can travel in.
 */
module Grid {
  import opened Wrappers

  /** Pixels per cell and pixels per side of the canvas. */
  const GRID_SIZE: int := 20
  const CANVAS_SIZE: int := 600
  /** Cells per side of the board (600 / 20 = 30). */
  const TILE_COUNT: int := CANVAS_SIZE / GRID_SIZE

  datatype Cell = Cell(x: int, y: int)

  datatype Direction = Direction(x: int, y: int)

  const UP := Direction(0, -1)
  const DOWN := Direction(0, 1)
  const LEFT := Direction(-1, 0)
  const RIGHT := Direction(1, 0)

  predicate IsUnit(d: Direction)
  {
    d == UP || d == DOWN || d == LEFT || d == RIGHT
  }

  function Opposite(d: Direction): Direction
  {
    Direction(-d.x, -d.y)
  }

  /** A direction along the x axis (its y component is zero). */
  predicate Horizontal(d: Direction)
  {
    d.y == 0
  }

  /** For unit directions: one runs along x and the other along y. */
  predicate Perpendicular(a: Direction, b: Direction)
  {
    Horizontal(a) != Horizontal(b)
  }

  /** The cell one step from `c` in direction `d`. */
  function Step(c: Cell, d: Direction): Cell
  {
    Cell(c.x + d.x, c.y + d.y)
  }

  predicate InBounds(c: Cell)
  {
    0 <= c.x < TILE_COUNT && 0 <= c.y < TILE_COUNT
  }

  /** `a` is one unit step away from `b`. */
  predicate Adjacent(a: Cell, b: Cell)
  {
    IsUnit(Direction(a.x - b.x, a.y - b.y))
  }

  /** Every segment touches the next one. */
  predicate Contiguous(s: seq<Cell>)
  {
    forall i :: 0 <= i < |s| - 1 ==> Adjacent(s[i], s[i + 1])
  }

  /** No cell occurs twice. */
  predicate NoRepeats(s: seq<Cell>)
  {
    forall i, j :: 0 <= i < j < |s| ==> s[i] != s[j]
  }

  predicate AllInBounds(s: seq<Cell>)
  {
    forall i :: 0 <= i < |s| ==> InBounds(s[i])
  }
}
