# Sokoban successor generator and corner-deadlock pruner

This project models the configuration class `State` of a Sokoban solver
(`src/solver/State.java`) and proves what its transition logic does. A
configuration holds:

- a player coordinate;
- a list of box coordinates;
- a goal list;
- a count of covered goals;
- the string of move labels that led to it.

From it the generator `createStates` derives up to four children. It tries
the directions up, down, left and right, in that order, labelled `u`, `d`,
`l`, `r`. For each direction it makes a plain move, makes a push, or skips
the direction. It skips a direction when the target is off the map or a wall,
when a push is blocked, or when a push would put a box into a corner
deadlock. A corner deadlock is a non-goal cell with walls on two
perpendicular sides.

The model has two layers:

- **Pure layer.** Functions and lemmas in `Board`, `BoxLists`, `Transitions`
  and `Scenarios`. `Transitions.Step` is the child a direction yields, if any.
  `Transitions.Successors` is the ordered list of children.
  `Transitions.Push` is the push branch of `Step`.
- **Imperative layer.** The class `SolverState.State` has the source's
  fields, setters, search loops, goal-counting loops, the wall-presence
  array and the generator loop. Each method is proved against the pure
  layer. For example, `CreateStates` yields fresh objects whose fields are
  pointwise equal to `Successors` of the parent's fields.

Coordinates are values (`Coordinates.Coordinate`). Copying a box list
therefore copies it deeply, and a child can never share a list with its
parent or a sibling. The copy loops are kept as loops.

Some things live outside the model and are passed in instead:

- **The heuristic estimator** is a function parameter of type
  `HeuristicInput -> real`. Its result is stored unchanged. As in the
  source, the estimator is called before the child's path is set, so it
  receives the child's empty path. The push branch passes it the new box
  list. The plain-move branch passes the parent's list, which has the same
  value.
- **The goal list argument of `createStates`** hides the field of the same
  name. The deadlock rule and the goal count use the argument. The child's
  goal field is a copy of the parent's field. `Transitions.Context.goals`
  and `Snapshot.goalCoordinates` keep the two apart.

`deadlockCheck` reads the four neighbours of a non-goal cell without a
bounds check. `DeadlockCheck` therefore requires that cell to be a goal or to
have four readable neighbours. `CreateStates` requires two things:

- the map is a `width` × `height` matrix;
- every non-wall cell on its border is a goal (`Board.EdgeSafe`).

This is sufficient to keep every call the generator makes to the deadlock
rule inside the map (`Board.EdgeSafeInterior`), but it is not necessary: it
rules out every map with a non-wall, non-goal border cell, including
expansions of such a map that never push a box onto that cell.

`createStates` counts covered goal entries; a goal listed twice counts
twice. A description in terms of "boxes standing on goals" is guaranteed to give the same
number when no goal is listed twice. `BoxLists.CountCoveredIsIntersection`
proves this, and the model follows the code.

The getters `GetPlayerPosition`, `GetPath`, `GetHeuristicValue`,
`GetBoxCoordinates` and `GetGoals` are plain field reads. They are modelled
as functions without contracts.

## Model

| member | source | states |
|---|---|---|
| `SolverState.State.constructor` | src/solver/State.java:39-46 | a new configuration has the given map, size and player, an empty path, no boxes or goals yet, goal count 0 and estimate 0 |
| `SolverState.State.SetPath` | src/solver/State.java:55-57 | the path becomes the given label string; nothing else changes |
| `SolverState.State.SetHeuristicValue` | src/solver/State.java:70-72 | the estimate becomes the given value; nothing else changes |
| `SolverState.CopyCoordinates` | src/solver/State.java:75-80 | the copy loop yields a list element-wise equal to its source |
| `SolverState.State.SetBoxCoordinates` | src/solver/State.java:75-80 | the box list becomes a copy equal to the argument; only that field changes |
| `SolverState.State.SetGoalCoordinates` | src/solver/State.java:82-87 | the goal list becomes a copy equal to the argument; only that field changes |
| `SolverState.State.GetBoxCoordinate` | src/solver/State.java:93-100 | returns a box exactly when (x, y) is in the box list, and that box is (x, y); None otherwise |
| `SolverState.State.CountGoals` | src/solver/State.java:103-116 | the nested loops with early exit compute the number of goal entries covered by some box |
| `BoxLists.CountCoveredAtMost` | src/solver/State.java:103-116 | the goal count is at most the number of goals |
| `BoxLists.CountCoveredAll` | src/solver/State.java:103-116 | the goal count equals the number of goals exactly when every goal is covered by some box |
| `BoxLists.CountCoveredNone` | src/solver/State.java:103-116 | the goal count is 0 exactly when no goal is covered |
| `BoxLists.CountCoveredIsIntersection` | src/solver/State.java:103-116 | with no goal listed twice, the goal count is the number of cells that are both goal and box |
| `BoxLists.CountCoveredSameCells` | src/solver/State.java:103-116 | the goal count depends only on which cells hold boxes |
| `SolverState.State.SetGoals` | src/solver/State.java:123-125 | the goal count becomes the given number; nothing else changes |
| `BoxLists.IndexOf` | src/solver/State.java:201-207 | the index found is the first entry equal to the searched cell, or the list length when there is none |
| `BoxLists.MoveFirstRewritesFirstMatch` | src/solver/State.java:201-208 | the push rewrite keeps the length, changes only the first entry on the pushed cell to the destination, and changes nothing when no entry is on it |
| `SolverState.PushedCopy` | src/solver/State.java:195-208 | the copy-then-rewrite-first-match loops produce exactly that rewritten list |
| `BoxLists.MoveFirstCells` | src/solver/State.java:195-208 | pushing a box onto a free cell keeps boxes distinct and swaps exactly that one cell in the set of occupied cells |
| `BoxLists.PushChangesCountByAtMostOne` | src/solver/State.java:201-215 | with distinct boxes and goals, a push changes the goal count by at most one |
| `SolverState.State.DeadlockCheck` | src/solver/State.java:371-403 | the goal scan and the wall-presence loop compute the corner rule: false on a goal, else a wall on both cells of a perpendicular pair |
| `Board.DeadlockTruthTable` | src/solver/State.java:371-403 | a goal cell is never flagged, whatever its neighbours (also on the border); a non-goal cell with four readable neighbours is flagged exactly for up+left, up+right, down+left or down+right walls; one-sided or opposite walls alone are not flagged |
| `Board.EdgeSafeInterior` | src/solver/State.java:387 | on a rectangular map whose border is wall or goal, a non-goal destination the generator passes to the deadlock rule has four readable neighbours |
| `Transitions.StepExistsIffLegal` | src/solver/State.java:168-192 | direction i yields a child exactly when the target is in bounds and not a wall and, if a box is on it, the cell behind is in bounds, not a wall, box-free and not a corner deadlock |
| `Transitions.StepChild` | src/solver/State.java:168-247 | a child's player is parent + direction; its path is the parent's plus that label (one longer); its goal list is the parent's; its goal count is recomputed from its boxes; its box list equals the parent's for a move and for a push differs only at the first entry on the target, which becomes target + direction |
| `Transitions.PresentFollowsIndices` | src/solver/State.java:161-252 | the collected children are exactly the directions that yield one, each once, in increasing direction order |
| `Transitions.SuccessorsInDirectionOrder` | src/solver/State.java:26-33 | at most four children, in order u, d, l, r; each child's path ends in its direction's label and its player is moved by that direction; a direction has a child exactly when the move is legal |
| `Transitions.StepPreservesWellFormed` | src/solver/State.java:168-248 | a child of a configuration whose player and boxes are on distinct in-bounds floor cells is again such a configuration, with the pushed box's cell replaced by its destination |
| `Transitions.SuccessorsWellFormed` | src/solver/State.java:161-252 | every child of a well-formed configuration is well-formed and has as many boxes as its parent |
| `SolverState.State.NewChild` | src/solver/State.java:210-223 | a fresh child object with copied boxes and goals, recomputed count, the estimate taken on the empty path, and the extended path |
| `SolverState.State.ExpandDirection` | src/solver/State.java:169-248 | the loop body for one direction: None exactly when Step gives none, otherwise a fresh object whose fields are Step's child |
| `SolverState.State.TryPush` | src/solver/State.java:181-224 | the push branch: None exactly when the destination is off the map, a wall, a box or a corner deadlock, otherwise a fresh child with the first box on the target moved to the destination |
| `SolverState.State.CreateStates` | src/solver/State.java:161-252 | returns fresh, pairwise distinct objects whose fields are exactly Successors of the parent's fields, in direction order; the parent has no modifiable frame, so it is unchanged |
| `SolverState.ExpandTwice` | src/solver/State.java:161-252 | expanding the same configuration twice gives pointwise equal children with no object in common |
| `Scenarios.PushDownScenario` | src/solver/State.java:161-252 | on a walled 5×5 map with goal (3,3), box (2,2), player (2,1), the children are d, l, r; the d child has the player at (2,2), the box at (2,3) and goal count 0 |
| `Transitions.NoPushIntoCorner` | src/solver/State.java:189-192 | a push onto a non-goal cell with walls on two perpendicular sides yields no child, whichever direction would make it |
| `Scenarios.CornerScenario` | src/solver/State.java:371-403 | on the walled 5×5 map, (1,1), with walls at (1,0) and (0,1) and not a goal, is flagged as a deadlock, so by NoPushIntoCorner no push onto it yields a child |
| `Scenarios.NoPushOntoCornerScenario` | src/solver/State.java:182-192 | on the walled 5×5 map, when (1,1) is not a goal, a push that would move a box onto (1,1) from any direction yields no child |

## Left out

- `printState` is console output only. The `visited` flag and its accessors are search-driver bookkeeping with no logic here.
- The constants `EMPTY_MOVE`, `BOX_MOVE` and `GOAL_MOVE` are unused.
- The commented-out older generator and `copyMap` are left out; `copyMap` is used only by that dead code.
- The heuristic estimator is not part of this model. It is a function parameter returning a `real`, and its value is stored unchanged. The `calculator` field is dropped, and floating-point rounding is not modelled.
- `Coordinate`, the map loader and the search driver are not part of this model. `Coordinate` is a value datatype. Mutating the copied coordinate in place is modelled as replacing one element of a fresh list.
- Object identity of coordinates and builders is not modelled. `setPath` and `getBoxCoordinate` share a `StringBuilder` or `Coordinate` object with their caller in the source. `getBoxCoordinates` returns the configuration's own `ArrayList`, so a caller's edits to it change the configuration. Here all three store or return equal values; the model's `GetBoxCoordinates` returns a value that no caller can alter in place.
- Before its setters are called, a configuration built by the constructor has null box and goal lists. The model starts them empty. The generator fills both lists of every child before use, but it reads the root configuration's lists without setting them, so the caller must set them first. Otherwise Java throws a `NullPointerException` in `getBoxCoordinate` or when the goal list is copied.
- `deadlockCheck` throws an index exception when asked about a non-goal cell on the map's border that is not a wall. `DeadlockCheck` excludes exactly this case by precondition instead of modelling the exception. `CreateStates` is stronger: it requires every non-wall border cell to be a goal, so it excludes every map that has a non-wall, non-goal border cell, not only the expansions that would throw.
- The generator looks up a box before its bounds check. The model keeps that order; the lookup is a pure list search, so the order does not matter.
- Java's 32-bit `int` is modelled as an unbounded integer. All coordinates stay within the map's size, so no overflow arises.
