/**
 * Grid positions. The solver's Coordinate class is a pair of integer
 * fields compared field by field; here it is a value, so two equal
 * coordinates are indistinguishable and a copy can never alias.
 */
module Coordinates {
  /** x is the column, y the row: the cell at (x, y) is grid[y][x]. */
  datatype Coordinate = Coordinate(x: int, y: int)

  /** Offset a position by a direction vector. */
  function Add(c: Coordinate, d: Coordinate): (r: Coordinate)
  {
    Coordinate(c.x + d.x, c.y + d.y)
  }
}
