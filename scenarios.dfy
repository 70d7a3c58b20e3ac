/** Two concrete situations on a 5-by-5 map walled on its border. */
module Scenarios {
  import opened Wrappers
  import opened Coordinates
  import opened Board
  import opened BoxLists
  import opened Transitions

  /** Walls on the border, floor inside. */
  const Bordered5: Terrain := ["#####", "#   #", "#   #", "#   #", "#####"]

  lemma Bordered5Valid(goals: seq<Coordinate>, estimate: Heuristic)
    ensures Context(Bordered5, 5, 5, goals, estimate).Valid()
  {
    forall y, x | 0 <= y < |Bordered5| && 0 <= x < |Bordered5[y]| &&
                  (y == 0 || y == |Bordered5| - 1 || x == 0 || x == |Bordered5[y]| - 1)
      ensures Bordered5[y][x] == Wall
    {
      assert y == 0 || y == 4 || x == 0 || x == 4;
    }
  }

  /** The goal and the configuration of the push-down scenario. */
  function ScenarioContext(estimate: Heuristic): (ctx: Context)
  {
    Context(Bordered5, 5, 5, [Coordinate(3, 3)], estimate)
  }

  const ScenarioStart: Snapshot :=
    Snapshot(Coordinate(2, 1), [Coordinate(2, 2)], [Coordinate(3, 3)], 0, [], 0.0)

  lemma ScenarioUp(estimate: Heuristic)
    ensures ScenarioContext(estimate).Valid()
    ensures Step(ScenarioContext(estimate), ScenarioStart, 0) == None
  {
    Bordered5Valid([Coordinate(3, 3)], estimate);
    assert Bordered5[0][2] == Wall;
  }

  lemma ScenarioDown(estimate: Heuristic)
    ensures ScenarioContext(estimate).Valid()
    ensures var c := Step(ScenarioContext(estimate), ScenarioStart, 1);
            && c.Some? && c.value.boxes == [Coordinate(2, 3)] && c.value.player == Coordinate(2, 2)
            && c.value.path == "d" && c.value.goals == 0
  {
    var goals := [Coordinate(3, 3)];
    Bordered5Valid(goals, estimate);
    assert Bordered5[2][2] != Wall && Bordered5[3][2] != Wall && Bordered5[4][2] == Wall;
    assert Bordered5[2][2] != Wall && Bordered5[3][1] != Wall && Bordered5[3][3] != Wall;
    assert Coordinate(2, 3) !in goals && Coordinate(2, 3) !in ScenarioStart.boxes;
    assert !IsDeadlocked(Bordered5, goals, Coordinate(2, 3));
    assert MoveFirst([Coordinate(2, 2)], Coordinate(2, 2), Coordinate(2, 3)) == [Coordinate(2, 3)];
    assert CountCovered(goals, [Coordinate(2, 3)]) == 0 by {
      assert goals[..0] == [];
    }
  }

  lemma ScenarioLeft(estimate: Heuristic)
    ensures ScenarioContext(estimate).Valid()
    ensures var c := Step(ScenarioContext(estimate), ScenarioStart, 2);
            c.Some? && c.value.boxes == [Coordinate(2, 2)] && c.value.player == Coordinate(1, 1) && c.value.path == "l"
  {
    Bordered5Valid([Coordinate(3, 3)], estimate);
    assert Bordered5[1][1] != Wall;
    assert Coordinate(1, 1) !in ScenarioStart.boxes;
  }

  lemma ScenarioRight(estimate: Heuristic)
    ensures ScenarioContext(estimate).Valid()
    ensures var c := Step(ScenarioContext(estimate), ScenarioStart, 3);
            c.Some? && c.value.boxes == [Coordinate(2, 2)] && c.value.player == Coordinate(3, 1) && c.value.path == "r"
  {
    Bordered5Valid([Coordinate(3, 3)], estimate);
    assert Bordered5[1][3] != Wall;
    assert Coordinate(3, 1) !in ScenarioStart.boxes;
  }

  /**
   * Goal at (3,3), box at (2,2), player at (2,1): the children come as
   * d, l, r; the push child has the player at (2,2), the box at (2,3) and
   * no goal covered.
   */
  lemma PushDownScenario(estimate: Heuristic)
    ensures ScenarioContext(estimate).Valid()
    ensures var cs := Successors(ScenarioContext(estimate), ScenarioStart);
            && |cs| == 3
            && cs[0].path == "d" && cs[0].player == Coordinate(2, 2)
            && cs[0].boxes == [Coordinate(2, 3)] && cs[0].goals == 0
            && cs[1].path == "l" && cs[1].player == Coordinate(1, 1) && cs[1].boxes == [Coordinate(2, 2)]
            && cs[2].path == "r" && cs[2].player == Coordinate(3, 1) && cs[2].boxes == [Coordinate(2, 2)]
  {
    var ctx, s := ScenarioContext(estimate), ScenarioStart;
    ScenarioUp(estimate);
    ScenarioDown(estimate);
    ScenarioLeft(estimate);
    ScenarioRight(estimate);
    PresentSkippingFirst(Outcomes(ctx, s));
  }

  /** Four outcomes of which only the first is absent keep the other three, in order. */
  lemma PresentSkippingFirst<T>(o: seq<Option<T>>)
    requires |o| == 4 && o[0].None? && o[1].Some? && o[2].Some? && o[3].Some?
    ensures Present(o, 4) == [o[1].value, o[2].value, o[3].value]
  {
    assert Present(o, 1) == [];
    assert Present(o, 2) == [o[1].value];
    assert Present(o, 3) == [o[1].value, o[2].value];
  }

  /**
   * (1,1) has walls above and to its left, so unless it is a goal it is a
   * corner deadlock; with Transitions.NoPushIntoCorner, no push onto it
   * yields a child from any direction.
   */
  lemma CornerScenario(goals: seq<Coordinate>, estimate: Heuristic)
    requires Coordinate(1, 1) !in goals
    ensures Context(Bordered5, 5, 5, goals, estimate).Valid()
    ensures NeighboursReadable(Bordered5, Coordinate(1, 1))
    ensures IsWall(Bordered5, Coordinate(1, 0)) && IsWall(Bordered5, Coordinate(0, 1))
    ensures IsDeadlocked(Bordered5, goals, Coordinate(1, 1))
  {
    Bordered5Valid(goals, estimate);
    assert Bordered5[0][1] == Wall && Bordered5[1][0] == Wall;
  }

  /** No push that would move a box onto the non-goal corner (1,1) yields a child. */
  lemma NoPushOntoCornerScenario(goals: seq<Coordinate>, estimate: Heuristic, s: Snapshot, i: nat)
    requires Coordinate(1, 1) !in goals && i < |Directions|
    requires Add(s.player, Directions[i]) in s.boxes
    requires Add(Add(s.player, Directions[i]), Directions[i]) == Coordinate(1, 1)
    ensures Step(Context(Bordered5, 5, 5, goals, estimate), s, i) == None
  {
    CornerScenario(goals, estimate);
    NoPushIntoCorner(Context(Bordered5, 5, 5, goals, estimate), s, i);
  }
}
