/**
 * The successor relation of the solver as pure functions: which child
 * each direction yields, the list of children in direction order, and
 * what is proved about them.
 */
module Transitions {
  import opened Wrappers
  import opened Coordinates
  import opened Board
  import opened BoxLists

  /**
   * The arguments handed to the heuristic estimator: map, width, height,
   * goal list, box list, goal count, path so far and player position.
   */
  datatype HeuristicInput = HeuristicInput(grid: Terrain, width: int, height: int,
                                           goals: seq<Coordinate>, boxes: seq<Coordinate>,
                                           goalCount: int, path: seq<char>, player: Coordinate)

  /** The estimator is outside this model: any function of its inputs. */
  type Heuristic = HeuristicInput -> real

  /**
   * What one expansion takes as given: the map and its size, the goal list
   * passed to the generator (used for the deadlock rule and the goal count)
   * and the estimator.
   */
  datatype Context = Context(grid: Terrain, width: int, height: int,
                             goals: seq<Coordinate>, estimate: Heuristic)
  {
    /** The map is a proper width-by-height matrix whose border is wall or goal. */
    predicate Valid()
    {
      Rectangular(grid, width, height) && EdgeSafe(grid, goals)
    }
  }

  /** The fields of a configuration that the generator reads and writes. */
  datatype Snapshot = Snapshot(player: Coordinate, boxes: seq<Coordinate>,
                               goalCoordinates: seq<Coordinate>, goals: int,
                               path: seq<char>, heuristicValue: real)

  /**
   * A child at `player` with box list `boxes`: the goal count is computed
   * afresh against the context's goals, the goal list is the parent's,
   * and the label of direction i is appended to the path. The estimator is
   * called before the path is set, so it sees the child's still empty path.
   */
  function Child(ctx: Context, s: Snapshot, i: nat, player: Coordinate, boxes: seq<Coordinate>): (r: Snapshot)
    requires i < |DirectionChars|
  {
    var count := CountCovered(ctx.goals, boxes);
    var h := ctx.estimate(HeuristicInput(ctx.grid, ctx.width, ctx.height, ctx.goals,
                                         boxes, count, [], player));
    Snapshot(player, boxes, s.goalCoordinates, count, s.path + [DirectionChars[i]], h)
  }

  /**
   * The child for direction i, if any, following the generator's checks in
   * their order: the target cell must be in bounds and not a wall; a box on
   * it must have a destination in bounds, not a wall, free of boxes and not
   * a corner deadlock.
   */
  function Step(ctx: Context, s: Snapshot, i: nat): (r: Option<Snapshot>)
    requires ctx.Valid() && i < |Directions|
  {
    var target := Add(s.player, Directions[i]);
    if !InBounds(target, ctx.width, ctx.height) then None
    else if ctx.grid[target.y][target.x] == Wall then None
    else if target in s.boxes then Push(ctx, s, i)
    else Some(Child(ctx, s, i, target, s.boxes))
  }

  /** The push branch of Step: the box on the target moves one cell further. */
  function Push(ctx: Context, s: Snapshot, i: nat): (r: Option<Snapshot>)
    requires ctx.Valid() && i < |Directions|
  {
    var target := Add(s.player, Directions[i]);
    var dest := Add(target, Directions[i]);
    if !InBounds(dest, ctx.width, ctx.height) then None
    else if ctx.grid[dest.y][dest.x] == Wall || dest in s.boxes then None
    else if IsDeadlocked(ctx.grid, ctx.goals, dest) then None
    else Some(Child(ctx, s, i, target, MoveFirst(s.boxes, target, dest)))
  }

  /** The outcome of each direction, indexed like Directions. */
  function Outcomes(ctx: Context, s: Snapshot): (o: seq<Option<Snapshot>>)
    requires ctx.Valid()
  {
    [Step(ctx, s, 0), Step(ctx, s, 1), Step(ctx, s, 2), Step(ctx, s, 3)]
  }

  /** The present values among the first n outcomes, in order. */
  function Present<T>(opts: seq<Option<T>>, n: nat): (r: seq<T>)
    requires n <= |opts|
  {
    if n == 0 then []
    else Present(opts, n - 1) + (if opts[n - 1].Some? then [opts[n - 1].value] else [])
  }

  /** The indices of the present values among the first n outcomes, in order. */
  ghost function PresentIndices<T>(opts: seq<Option<T>>, n: nat): (r: seq<nat>)
    requires n <= |opts|
  {
    if n == 0 then []
    else PresentIndices(opts, n - 1) + (if opts[n - 1].Some? then [n - 1] else [])
  }

  /**
   * Present keeps exactly the present outcomes, each once, in increasing
   * index order.
   */
  lemma {:induction false} PresentFollowsIndices<T>(opts: seq<Option<T>>, n: nat)
    requires n <= |opts|
    ensures var vs, ds := Present(opts, n), PresentIndices(opts, n);
            && |vs| == |ds| <= n
            && (forall k :: 0 <= k < |ds| ==> ds[k] < n && opts[ds[k]] == Some(vs[k]))
            && (forall j, k :: 0 <= j < k < |ds| ==> ds[j] < ds[k])
            && (forall i :: 0 <= i < n ==> (i in ds <==> opts[i].Some?))
  {
    if n > 0 {
      PresentFollowsIndices(opts, n - 1);
    }
  }

  /** All children of a configuration, in direction order. */
  function Successors(ctx: Context, s: Snapshot): (r: seq<Snapshot>)
    requires ctx.Valid()
  {
    Present(Outcomes(ctx, s), |Directions|)
  }

  /** The direction index of each child of Successors. */
  ghost function ChildDirections(ctx: Context, s: Snapshot): (r: seq<nat>)
    requires ctx.Valid()
  {
    PresentIndices(Outcomes(ctx, s), |Directions|)
  }

  /**
   * The legality of a move in one expression: the target is on the map and
   * not a wall, and if a box stands on it, the cell behind it is on the
   * map, not a wall, free of boxes and not a corner deadlock.
   */
  predicate Legal(ctx: Context, s: Snapshot, i: nat)
    requires ctx.Valid() && i < |Directions|
  {
    var target := Add(s.player, Directions[i]);
    var dest := Add(target, Directions[i]);
    && InBounds(target, ctx.width, ctx.height)
    && !IsWall(ctx.grid, target)
    && (target in s.boxes ==>
          && InBounds(dest, ctx.width, ctx.height)
          && !IsWall(ctx.grid, dest)
          && dest !in s.boxes
          && !IsDeadlocked(ctx.grid, ctx.goals, dest))
  }

  /** Direction i yields a child exactly when the move is legal. */
  lemma StepExistsIffLegal(ctx: Context, s: Snapshot, i: nat)
    requires ctx.Valid() && i < |Directions|
    ensures Step(ctx, s, i).Some? <==> Legal(ctx, s, i)
  {
  }

  /**
   * What a child looks like: the player moved by the direction, the path
   * grew by that direction's label, the goal list is the parent's, the goal
   * count is recomputed and the box list has the same length. A plain move
   * keeps the box list; a push rewrites only the first entry on the target
   * cell, to the free, non-deadlocked cell behind it.
   */
  lemma StepChild(ctx: Context, s: Snapshot, i: nat)
    requires ctx.Valid() && i < |Directions| && Step(ctx, s, i).Some?
    ensures var c := Step(ctx, s, i).value;
            var target := Add(s.player, Directions[i]);
            var dest := Add(target, Directions[i]);
            && c.player == target
            && InBounds(target, ctx.width, ctx.height) && !IsWall(ctx.grid, target)
            && c.path == s.path + [DirectionChars[i]]
            && |c.path| == |s.path| + 1
            && c.goalCoordinates == s.goalCoordinates
            && c.goals == CountCovered(ctx.goals, c.boxes)
            && |c.boxes| == |s.boxes|
            && (target !in s.boxes ==> c.boxes == s.boxes)
            && (target in s.boxes ==>
                  && InBounds(dest, ctx.width, ctx.height) && !IsWall(ctx.grid, dest)
                  && dest !in s.boxes && !IsDeadlocked(ctx.grid, ctx.goals, dest)
                  && c.boxes == s.boxes[IndexOf(s.boxes, target) := dest])
  {
    var target := Add(s.player, Directions[i]);
    MoveFirstRewritesFirstMatch(s.boxes, target, Add(target, Directions[i]));
  }

  /**
   * The children are exactly the steps of the directions that yield one,
   * in the order up, down, left, right: so there are at most four, each
   * direction contributes at most one, and a child's path ends in its
   * direction's label.
   */
  lemma SuccessorsInDirectionOrder(ctx: Context, s: Snapshot)
    requires ctx.Valid()
    ensures var cs, ds := Successors(ctx, s), ChildDirections(ctx, s);
            && |cs| == |ds| <= 4
            && (forall k :: 0 <= k < |ds| ==>
                  && ds[k] < 4
                  && Step(ctx, s, ds[k]) == Some(cs[k])
                  && cs[k].path == s.path + [DirectionChars[ds[k]]]
                  && cs[k].player == Add(s.player, Directions[ds[k]]))
            && (forall j, k :: 0 <= j < k < |ds| ==> ds[j] < ds[k])
            && (forall i :: 0 <= i < 4 ==> (i in ds <==> Legal(ctx, s, i)))
  {
    var o := Outcomes(ctx, s);
    assert forall i :: 0 <= i < |Directions| ==> o[i] == Step(ctx, s, i);
    PresentFollowsIndices(o, |Directions|);
    var ds := ChildDirections(ctx, s);
    forall k | 0 <= k < |ds| ensures Step(ctx, s, ds[k]).Some? {
    }
    forall k | 0 <= k < |ds|
      ensures Successors(ctx, s)[k].path == s.path + [DirectionChars[ds[k]]]
      ensures Successors(ctx, s)[k].player == Add(s.player, Directions[ds[k]])
    {
      StepChild(ctx, s, ds[k]);
    }
    forall i | 0 <= i < 4 ensures i in ds <==> Legal(ctx, s, i) {
      StepExistsIffLegal(ctx, s, i);
    }
  }

  /**
   * A push onto a non-goal cell with walls on two perpendicular sides never
   * yields a child, whichever direction would make it.
   */
  lemma NoPushIntoCorner(ctx: Context, s: Snapshot, i: nat)
    requires ctx.Valid() && i < |Directions|
    requires var target := Add(s.player, Directions[i]);
             var dest := Add(target, Directions[i]);
             && target in s.boxes
             && dest !in ctx.goals
             && NeighboursReadable(ctx.grid, dest)
             && var up := IsWall(ctx.grid, Coordinate(dest.x, dest.y - 1));
                var down := IsWall(ctx.grid, Coordinate(dest.x, dest.y + 1));
                var left := IsWall(ctx.grid, Coordinate(dest.x - 1, dest.y));
                var right := IsWall(ctx.grid, Coordinate(dest.x + 1, dest.y));
                (up && left) || (up && right) || (down && left) || (down && right)
    ensures Step(ctx, s, i) == None
  {
    var dest := Add(Add(s.player, Directions[i]), Directions[i]);
    DeadlockTruthTable(ctx.grid, ctx.goals, dest);
  }

  /**
   * The configuration invariants: the player stands on an in-bounds floor
   * cell without a box, every box stands on an in-bounds floor cell, and
   * no two boxes share a cell.
   */
  predicate WellFormed(ctx: Context, s: Snapshot)
    requires ctx.Valid()
  {
    && InBounds(s.player, ctx.width, ctx.height)
    && !IsWall(ctx.grid, s.player)
    && s.player !in s.boxes
    && (forall k :: 0 <= k < |s.boxes| ==>
          InBounds(s.boxes[k], ctx.width, ctx.height) && !IsWall(ctx.grid, s.boxes[k]))
    && Distinct(s.boxes)
  }

  /** Every child of a well-formed configuration is well-formed and keeps the set of box cells but for the pushed one. */
  lemma StepPreservesWellFormed(ctx: Context, s: Snapshot, i: nat)
    requires ctx.Valid() && i < |Directions| && WellFormed(ctx, s) && Step(ctx, s, i).Some?
    ensures WellFormed(ctx, Step(ctx, s, i).value)
    ensures var target := Add(s.player, Directions[i]);
            var c := Step(ctx, s, i).value;
            Elements(c.boxes) ==
              if target in s.boxes then Elements(s.boxes) - {target} + {Add(target, Directions[i])}
              else Elements(s.boxes)
  {
    StepChild(ctx, s, i);
    var target := Add(s.player, Directions[i]);
    var c := Step(ctx, s, i).value;
    if target in s.boxes {
      var dest := Add(target, Directions[i]);
      MoveFirstCells(s.boxes, target, dest);
      var k := IndexOf(s.boxes, target);
      assert c.boxes == s.boxes[k := dest];
      forall j | 0 <= j < |c.boxes|
        ensures InBounds(c.boxes[j], ctx.width, ctx.height) && !IsWall(ctx.grid, c.boxes[j])
      {
        if j != k {
          assert c.boxes[j] == s.boxes[j];
        }
      }
    }
  }

  /** The whole expansion preserves the invariants. */
  lemma SuccessorsWellFormed(ctx: Context, s: Snapshot)
    requires ctx.Valid() && WellFormed(ctx, s)
    ensures forall c :: c in Successors(ctx, s) ==> WellFormed(ctx, c) && |c.boxes| == |s.boxes|
  {
    SuccessorsInDirectionOrder(ctx, s);
    var cs, ds := Successors(ctx, s), ChildDirections(ctx, s);
    forall c | c in cs ensures WellFormed(ctx, c) && |c.boxes| == |s.boxes| {
      var k :| 0 <= k < |cs| && cs[k] == c;
      StepPreservesWellFormed(ctx, s, ds[k]);
      StepChild(ctx, s, ds[k]);
    }
  }
}
