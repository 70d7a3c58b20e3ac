/**
 * The static terrain, the fixed direction table and the corner-deadlock
 * rule applied to a box destination.
 */
module Board {
  import opened Coordinates

  /** The map as rows of characters, `'#'` marking a wall. */
  type Terrain = seq<seq<char>>

  const Wall: char := '#'

  /** Up, down, left, right, in the order the successor generator tries them. */
  const Directions: seq<Coordinate> :=
    [Coordinate(0, -1), Coordinate(0, 1), Coordinate(-1, 0), Coordinate(1, 0)]

  /** The move label of each entry of Directions, same index. */
  const DirectionChars: seq<char> := ['u', 'd', 'l', 'r']

  /** Every row has `width` cells and there are `height` rows. */
  predicate Rectangular(grid: Terrain, width: int, height: int)
  {
    |grid| == height && forall row :: 0 <= row < |grid| ==> |grid[row]| == width
  }

  /** The bounds test the successor generator performs against width and height. */
  predicate InBounds(c: Coordinate, width: int, height: int)
  {
    0 <= c.x < width && 0 <= c.y < height
  }

  /** Reading grid[c.y][c.x] stays inside the arrays. */
  predicate Readable(grid: Terrain, c: Coordinate)
  {
    0 <= c.y < |grid| && 0 <= c.x < |grid[c.y]|
  }

  predicate IsWall(grid: Terrain, c: Coordinate)
    requires Readable(grid, c)
  {
    grid[c.y][c.x] == Wall
  }

  /** The four orthogonal neighbours of c can be read without leaving the arrays. */
  predicate NeighboursReadable(grid: Terrain, c: Coordinate)
  {
    && Readable(grid, Add(c, Directions[0]))
    && Readable(grid, Add(c, Directions[1]))
    && Readable(grid, Add(c, Directions[2]))
    && Readable(grid, Add(c, Directions[3]))
  }

  /**
   * Every cell on the border of the map is a wall or a goal. Then the
   * deadlock rule, which reads the neighbours of a non-goal destination
   * without a bounds check, never reads outside the map.
   */
  predicate EdgeSafe(grid: Terrain, goals: seq<Coordinate>)
  {
    forall y, x ::
      (0 <= y < |grid| && 0 <= x < |grid[y]| &&
       (y == 0 || y == |grid| - 1 || x == 0 || x == |grid[y]| - 1)) ==>
        grid[y][x] == Wall || Coordinate(x, y) in goals
  }

  /** Wall presence at the four neighbours, indexed like Directions. */
  function WallPresence(grid: Terrain, c: Coordinate): (w: seq<bool>)
    requires NeighboursReadable(grid, c)
  {
    [ IsWall(grid, Add(c, Directions[0])), IsWall(grid, Add(c, Directions[1])),
      IsWall(grid, Add(c, Directions[2])), IsWall(grid, Add(c, Directions[3])) ]
  }

  /**
   * The corner rule: a goal cell is never a deadlock; any other cell is
   * one when a vertical and a horizontal neighbour are both walls.
   */
  predicate IsDeadlocked(grid: Terrain, goals: seq<Coordinate>, c: Coordinate)
    requires c in goals || NeighboursReadable(grid, c)
  {
    if c in goals then false
    else
      var w := WallPresence(grid, c);
      var upLeft := w[0] && w[2];
      var upRight := w[0] && w[3];
      var downLeft := w[1] && w[2];
      var downRight := w[1] && w[3];
      upLeft || upRight || downLeft || downRight
  }

  /**
   * The truth table of the corner rule, in terms of the cells around c:
   * goals are never flagged, and a non-goal cell is flagged exactly when
   * walls stand on both cells of one perpendicular pair. Walls on one side
   * only, or on two opposite sides only, are not a deadlock.
   */
  lemma DeadlockTruthTable(grid: Terrain, goals: seq<Coordinate>, c: Coordinate)
    requires c in goals || NeighboursReadable(grid, c)
    ensures c in goals ==> !IsDeadlocked(grid, goals, c)
    ensures c !in goals ==>
      var up := IsWall(grid, Coordinate(c.x, c.y - 1));
      var down := IsWall(grid, Coordinate(c.x, c.y + 1));
      var left := IsWall(grid, Coordinate(c.x - 1, c.y));
      var right := IsWall(grid, Coordinate(c.x + 1, c.y));
      && (IsDeadlocked(grid, goals, c) <==>
           (up && left) || (up && right) || (down && left) || (down && right))
      && (!left && !right ==> !IsDeadlocked(grid, goals, c))
      && (!up && !down ==> !IsDeadlocked(grid, goals, c))
  {
  }

  /**
   * On a rectangular map whose border is walls or goals, every in-bounds
   * floor cell that is not a goal has four readable neighbours.
   */
  lemma EdgeSafeInterior(grid: Terrain, width: int, height: int,
                          goals: seq<Coordinate>, c: Coordinate)
    requires Rectangular(grid, width, height) && EdgeSafe(grid, goals)
    requires InBounds(c, width, height) && grid[c.y][c.x] != Wall && c !in goals
    ensures NeighboursReadable(grid, c)
  {
    assert |grid[c.y]| == width;
    assert !(c.y == 0 || c.y == |grid| - 1 || c.x == 0 || c.x == |grid[c.y]| - 1);
    assert |grid[c.y - 1]| == width && |grid[c.y + 1]| == width;
  }
}
