/**
 * The solver's configuration object: its fields, accessors, box lookup,
 * goal counting, corner-deadlock check and successor generation, written
 * as the imperative code they are and proved against the Transitions
 * functions.
 */
module SolverState {
  import opened Wrappers
  import opened Coordinates
  import opened Board
  import opened BoxLists
  import opened Transitions

  /** A new list holding a copy of every coordinate of `source`, in order. */
  method CopyCoordinates(source: seq<Coordinate>) returns (copy: seq<Coordinate>)
    ensures copy == source
  {
    copy := [];
    for j := 0 to |source|
      invariant copy == source[..j]
    {
      var coord := source[j];
      copy := copy + [Coordinate(coord.x, coord.y)];
    }
    assert source[..|source|] == source;
  }

  /**
   * The box list of a push: copy the parent's list, then rewrite the first
   * entry standing on `from` to `to` and stop.
   */
  method PushedCopy(boxes: seq<Coordinate>, from: Coordinate, to: Coordinate)
    returns (newBoxes: seq<Coordinate>)
    ensures newBoxes == MoveFirst(boxes, from, to)
  {
    newBoxes := CopyCoordinates(boxes);
    MoveFirstRewritesFirstMatch(boxes, from, to);
    for j := 0 to |newBoxes|
      invariant newBoxes == boxes
      invariant forall k :: 0 <= k < j ==> boxes[k] != from
    {
      var coord := newBoxes[j];
      if coord.x == from.x && coord.y == from.y {
        assert IndexOf(boxes, from) == j;
        newBoxes := newBoxes[j := to];
        return;
      }
    }
  }

  class State {
    /** The terrain, shared by every configuration of a puzzle. */
    const mapData: Terrain
    const width: int
    const height: int
    const playerPosition: Coordinate
    var boxCoordinates: seq<Coordinate>
    var goalCoordinates: seq<Coordinate>
    /** The number of goals covered, as set by the generator. */
    var goals: int
    /** The move labels from the root configuration to this one. */
    var path: seq<char>
    var heuristicValue: real

    /**
     * A configuration with no boxes, goals, path or estimate yet; the
     * caller fills them in through the setters.
     */
    constructor (mapData: Terrain, playerPosition: Coordinate, width: int, height: int,
                 goalCoordinates: seq<Coordinate>)
      ensures this.mapData == mapData && this.width == width && this.height == height
      ensures this.playerPosition == playerPosition
      ensures boxCoordinates == [] && this.goalCoordinates == [] && goals == 0
      ensures path == [] && heuristicValue == 0.0
    {
      this.mapData := mapData;
      this.playerPosition := playerPosition;
      this.width := width;
      this.height := height;
      this.path := [];
      this.boxCoordinates := [];
      this.goalCoordinates := [];
      this.goals := 0;
      this.heuristicValue := 0.0;
    }

    /** The fields the generator reads and writes, as one value. */
    function View(): (v: Snapshot)
      reads this
    {
      Snapshot(playerPosition, boxCoordinates, goalCoordinates, goals, path, heuristicValue)
    }

    /** The fixed inputs of an expansion of this configuration. */
    function Expansion(goalCoordinates: seq<Coordinate>, estimate: Heuristic): (ctx: Context)
    {
      Context(mapData, width, height, goalCoordinates, estimate)
    }

    function GetPlayerPosition(): (p: Coordinate)
    {
      playerPosition
    }

    function GetPath(): (p: seq<char>)
      reads this
    {
      path
    }

    method SetPath(newPath: seq<char>)
      modifies this`path
      ensures path == newPath
    {
      path := newPath;
    }

    function GetHeuristicValue(): (h: real)
      reads this
    {
      heuristicValue
    }

    method SetHeuristicValue(heuristicValue: real)
      modifies this`heuristicValue
      ensures this.heuristicValue == heuristicValue
    {
      this.heuristicValue := heuristicValue;
    }

    /** Store a copy of the given list; the argument is a value, so nothing is shared with the caller. */
    method SetBoxCoordinates(initialBoxCoordinates: seq<Coordinate>)
      modifies this`boxCoordinates
      ensures boxCoordinates == initialBoxCoordinates
    {
      boxCoordinates := CopyCoordinates(initialBoxCoordinates);
    }

    /** Store a copy of the given goal list. */
    method SetGoalCoordinates(initialGoalCoordinates: seq<Coordinate>)
      modifies this`goalCoordinates
      ensures goalCoordinates == initialGoalCoordinates
    {
      goalCoordinates := CopyCoordinates(initialGoalCoordinates);
    }

    function GetBoxCoordinates(): (b: seq<Coordinate>)
      reads this
    {
      boxCoordinates
    }

    /** The box at (x, y), or None when no box stands there. */
    method GetBoxCoordinate(x: int, y: int) returns (box: Option<Coordinate>)
      ensures box.Some? <==> Coordinate(x, y) in boxCoordinates
      ensures box.Some? ==> box.value == Coordinate(x, y) && box.value in boxCoordinates
    {
      for j := 0 to |boxCoordinates|
        invariant Coordinate(x, y) !in boxCoordinates[..j]
      {
        var b := boxCoordinates[j];
        if b.x == x && b.y == y {
          return Some(b);
        }
        assert boxCoordinates[..j + 1] == boxCoordinates[..j] + [b];
      }
      assert boxCoordinates[..|boxCoordinates|] == boxCoordinates;
      return None;
    }

    /** How many entries of `goalCoordinates` some box of this configuration covers. */
    method CountGoals(goalCoordinates: seq<Coordinate>) returns (goalSpots: int)
      ensures goalSpots == CountCovered(goalCoordinates, boxCoordinates)
    {
      goalSpots := 0;
      for g := 0 to |goalCoordinates|
        invariant goalSpots == CountCovered(goalCoordinates[..g], boxCoordinates)
      {
        var goal := goalCoordinates[g];
        assert goalCoordinates[..g + 1][..g] == goalCoordinates[..g];
        ghost var before := goalSpots;
        for b := 0 to |boxCoordinates|
          invariant goalSpots == before
          invariant goal !in boxCoordinates[..b]
        {
          var box := boxCoordinates[b];
          if goal.x == box.x && goal.y == box.y {
            goalSpots := goalSpots + 1;
            break;
          }
          assert boxCoordinates[..b + 1] == boxCoordinates[..b] + [box];
        }
        assert goalSpots == before ==> boxCoordinates[..|boxCoordinates|] == boxCoordinates;
      }
      assert goalCoordinates[..|goalCoordinates|] == goalCoordinates;
    }

    function GetGoals(): (n: int)
      reads this
    {
      goals
    }

    method SetGoals(newGoals: int)
      modifies this`goals
      ensures goals == newGoals
    {
      goals := newGoals;
    }

    /**
     * The corner rule for a box arriving at (boxX, boxY). A goal cell
     * returns before any neighbour is read; otherwise the four neighbours
     * are read without a bounds check, hence the precondition.
     */
    method DeadlockCheck(boxX: int, boxY: int, goalCoordinates: seq<Coordinate>, mapData: Terrain)
      returns (deadlocked: bool)
      requires Coordinate(boxX, boxY) in goalCoordinates || NeighboursReadable(mapData, Coordinate(boxX, boxY))
      ensures deadlocked == IsDeadlocked(mapData, goalCoordinates, Coordinate(boxX, boxY))
    {
      for g := 0 to |goalCoordinates|
        invariant Coordinate(boxX, boxY) !in goalCoordinates[..g]
      {
        var goal := goalCoordinates[g];
        if goal.x == boxX && goal.y == boxY {
          return false;
        }
        assert goalCoordinates[..g + 1] == goalCoordinates[..g] + [goal];
      }
      assert goalCoordinates[..|goalCoordinates|] == goalCoordinates;

      var box := Coordinate(boxX, boxY);
      var wallPresence := new bool[|Directions|](_ => false);
      for i := 0 to |Directions|
        invariant forall k :: 0 <= k < i ==> wallPresence[k] == IsWall(mapData, Add(box, Directions[k]))
        invariant forall k :: i <= k < |Directions| ==> !wallPresence[k]
      {
        var direction := Directions[i];
        var newX := boxX + direction.x;
        var newY := boxY + direction.y;
        if mapData[newY][newX] == Wall {
          wallPresence[i] := true;
        }
      }

      // the order of wallPresence is up, down, left, right
      var upLeftCorner := wallPresence[0] && wallPresence[2];
      var upRightCorner := wallPresence[0] && wallPresence[3];
      var downLeftCorner := wallPresence[1] && wallPresence[2];
      var downRightCorner := wallPresence[1] && wallPresence[3];
      deadlocked := upLeftCorner || upRightCorner || downLeftCorner || downRightCorner;
    }

    /**
     * A fresh child at `player` for direction i: box list and goal list
     * copied in, goal count recomputed against the generator's goal list,
     * estimate taken while the child's path is still empty, then the
     * parent's path with the direction's label.
     */
    method NewChild(i: nat, player: Coordinate, newBoxCoordinates: seq<Coordinate>,
                    goalCoordinates: seq<Coordinate>, estimate: Heuristic)
      returns (newState: State)
      requires i < |DirectionChars|
      ensures fresh(newState)
      ensures newState.mapData == mapData && newState.width == width && newState.height == height
      ensures newState.View() == Child(Expansion(goalCoordinates, estimate), View(), i, player, newBoxCoordinates)
    {
      newState := new State(mapData, player, width, height, goalCoordinates);
      newState.SetBoxCoordinates(newBoxCoordinates);
      newState.SetGoalCoordinates(this.goalCoordinates);
      var goalCount := newState.CountGoals(goalCoordinates);
      newState.SetGoals(goalCount);
      var heuristicValue := estimate(HeuristicInput(mapData, width, height, goalCoordinates,
                                                    newBoxCoordinates, goalCount, newState.GetPath(), player));
      newState.SetHeuristicValue(heuristicValue);
      newState.SetPath(GetPath() + [DirectionChars[i]]);
    }

    /**
     * The child for direction i, or None when the direction is out of the
     * map, a wall, a blocked push or a push into a corner deadlock.
     */
    method ExpandDirection(i: nat, goalCoordinates: seq<Coordinate>, estimate: Heuristic)
      returns (child: Option<State>)
      requires i < |Directions| && Expansion(goalCoordinates, estimate).Valid()
      ensures child.Some? <==> Step(Expansion(goalCoordinates, estimate), View(), i).Some?
      ensures child.Some? ==>
                && fresh(child.value)
                && child.value.View() == Step(Expansion(goalCoordinates, estimate), View(), i).value
                && child.value.mapData == mapData
                && child.value.width == width && child.value.height == height
    {
      var direction := Directions[i];
      var newX := playerPosition.x + direction.x;
      var newY := playerPosition.y + direction.y;
      assert Coordinate(newX, newY) == Add(playerPosition, Directions[i]);
      var boxAtNewPosition := GetBoxCoordinate(newX, newY);

      // out of the map
      if newX < 0 || newX >= width || newY < 0 || newY >= height {
        return None;
      }
      // a wall
      if mapData[newY][newX] == Wall {
        return None;
      }

      if boxAtNewPosition.Some? {
        child := TryPush(i, goalCoordinates, estimate);
      } else {
        // the estimator is handed the parent's list here, equal to the copy
        var newBoxCoordinates := CopyCoordinates(boxCoordinates);
        var newState := NewChild(i, Coordinate(newX, newY), newBoxCoordinates, goalCoordinates, estimate);
        child := Some(newState);
      }
    }

    /**
     * The push branch for direction i, whose target cell holds a box: None
     * when the box would leave the map, hit a wall or a box, or land in a
     * corner deadlock; otherwise the child with that box moved.
     */
    method TryPush(i: nat, goalCoordinates: seq<Coordinate>, estimate: Heuristic)
      returns (child: Option<State>)
      requires i < |Directions| && Expansion(goalCoordinates, estimate).Valid()
      ensures child.Some? <==> Push(Expansion(goalCoordinates, estimate), View(), i).Some?
      ensures child.Some? ==>
                && fresh(child.value)
                && child.value.View() == Push(Expansion(goalCoordinates, estimate), View(), i).value
                && child.value.mapData == mapData
                && child.value.width == width && child.value.height == height
    {
      var direction := Directions[i];
      var newX := playerPosition.x + direction.x;
      var newY := playerPosition.y + direction.y;
      var boxNewX := newX + direction.x;
      var boxNewY := newY + direction.y;
      assert Coordinate(newX, newY) == Add(playerPosition, Directions[i]);
      assert Coordinate(boxNewX, boxNewY) == Add(Coordinate(newX, newY), Directions[i]);
      // the box would leave the map
      if boxNewX < 0 || boxNewX >= width || boxNewY < 0 || boxNewY >= height {
        return None;
      }
      // the box would land on a wall or on another box
      if mapData[boxNewY][boxNewX] == Wall {
        return None;
      }
      var boxAtDestination := GetBoxCoordinate(boxNewX, boxNewY);
      if boxAtDestination.Some? {
        return None;
      }
      var destination := Coordinate(boxNewX, boxNewY);
      if destination !in goalCoordinates {
        EdgeSafeInterior(mapData, width, height, goalCoordinates, destination);
      }
      var deadlocked := DeadlockCheck(boxNewX, boxNewY, goalCoordinates, mapData);
      if deadlocked {
        return None;
      }
      var newBoxCoordinates := PushedCopy(boxCoordinates, Coordinate(newX, newY), destination);
      var newState := NewChild(i, Coordinate(newX, newY), newBoxCoordinates, goalCoordinates, estimate);
      child := Some(newState);
    }

    /**
     * The children of this configuration, one per direction that allows a
     * move or a safe push, in the order up, down, left, right. Every child
     * is a new object and this configuration is left as it was.
     */
    method CreateStates(goalCoordinates: seq<Coordinate>, estimate: Heuristic)
      returns (validStates: seq<State>)
      requires Expansion(goalCoordinates, estimate).Valid()
      ensures |validStates| == |Successors(Expansion(goalCoordinates, estimate), View())|
      ensures forall k :: 0 <= k < |validStates| ==>
                && fresh(validStates[k])
                && validStates[k].View() == Successors(Expansion(goalCoordinates, estimate), View())[k]
                && validStates[k].mapData == mapData
                && validStates[k].width == width && validStates[k].height == height
      ensures forall j, k :: 0 <= j < k < |validStates| ==> validStates[j] != validStates[k]
    {
      ghost var outcomes := Outcomes(Expansion(goalCoordinates, estimate), View());
      validStates := [];
      for i := 0 to |Directions|
        invariant |validStates| == |Present(outcomes, i)|
        invariant forall k :: 0 <= k < |validStates| ==>
                    && fresh(validStates[k])
                    && validStates[k].View() == Present(outcomes, i)[k]
                    && validStates[k].mapData == mapData
                    && validStates[k].width == width && validStates[k].height == height
        invariant forall j, k :: 0 <= j < k < |validStates| ==> validStates[j] != validStates[k]
      {
        var child := ExpandDirection(i, goalCoordinates, estimate);
        assert outcomes[i] == Step(Expansion(goalCoordinates, estimate), View(), i);
        if child.Some? {
          assert Present(outcomes, i + 1) == Present(outcomes, i) + [outcomes[i].value];
          validStates := validStates + [child.value];
        } else {
          assert Present(outcomes, i + 1) == Present(outcomes, i);
        }
      }
    }
  }

  /**
   * Expanding the same configuration twice gives children with equal
   * fields, in the same order, but no object in common.
   */
  method ExpandTwice(s: State, goalCoordinates: seq<Coordinate>, estimate: Heuristic)
    returns (first: seq<State>, second: seq<State>)
    requires s.Expansion(goalCoordinates, estimate).Valid()
    ensures |first| == |second|
    ensures forall k :: 0 <= k < |first| ==> first[k].View() == second[k].View()
    ensures forall j, k :: 0 <= j < |first| && 0 <= k < |second| ==> first[j] != second[k]
  {
    first := s.CreateStates(goalCoordinates, estimate);
    second := s.CreateStates(goalCoordinates, estimate);
  }
}
