/**
 * Pure facts about the box and goal lists: how many goals are covered,
 * where a box is found, and how a push rewrites the list.
 */
module BoxLists {
  import opened Coordinates

  /** No coordinate occurs twice. */
  predicate Distinct(s: seq<Coordinate>)
  {
    forall j, k :: 0 <= j < k < |s| ==> s[j] != s[k]
  }

  function Elements(s: seq<Coordinate>): (e: set<Coordinate>)
  {
    set c | c in s
  }

  /**
   * The number of entries of `goals` equal to at least one entry of
   * `boxes`; a goal listed twice is counted twice, a goal covered by two
   * boxes once.
   */
  function CountCovered(goals: seq<Coordinate>, boxes: seq<Coordinate>): (n: nat)
  {
    if goals == [] then 0
    else CountCovered(goals[..|goals| - 1], boxes) + (if goals[|goals| - 1] in boxes then 1 else 0)
  }

  /** The count never exceeds the number of goals. */
  lemma {:induction false} CountCoveredAtMost(goals: seq<Coordinate>, boxes: seq<Coordinate>)
    ensures CountCovered(goals, boxes) <= |goals|
  {
    if goals != [] {
      CountCoveredAtMost(goals[..|goals| - 1], boxes);
    }
  }

  /** The count equals the number of goals exactly when every goal is covered. */
  lemma {:induction false} CountCoveredAll(goals: seq<Coordinate>, boxes: seq<Coordinate>)
    ensures CountCovered(goals, boxes) == |goals| <==> forall k :: 0 <= k < |goals| ==> goals[k] in boxes
  {
    if goals != [] {
      var init := goals[..|goals| - 1];
      CountCoveredAll(init, boxes);
      CountCoveredAtMost(init, boxes);
      assert forall k :: 0 <= k < |init| ==> init[k] == goals[k];
    }
  }

  /** The count is zero exactly when no goal is covered. */
  lemma {:induction false} CountCoveredNone(goals: seq<Coordinate>, boxes: seq<Coordinate>)
    ensures CountCovered(goals, boxes) == 0 <==> forall k :: 0 <= k < |goals| ==> goals[k] !in boxes
  {
    if goals != [] {
      var init := goals[..|goals| - 1];
      CountCoveredNone(init, boxes);
      assert forall k :: 0 <= k < |init| ==> init[k] == goals[k];
    }
  }

  /**
   * With no goal listed twice, the count is the number of cells that are
   * both a goal and a box, so counting goals covered by boxes and counting
   * boxes standing on goals agree.
   */
  lemma {:induction false} CountCoveredIsIntersection(goals: seq<Coordinate>, boxes: seq<Coordinate>)
    requires Distinct(goals)
    ensures CountCovered(goals, boxes) == |Elements(goals) * Elements(boxes)|
  {
    if goals == [] {
      assert Elements(goals) == {};
    } else {
      var init, last := goals[..|goals| - 1], goals[|goals| - 1];
      assert Distinct(init);
      CountCoveredIsIntersection(init, boxes);
      assert CountCovered(goals, boxes) == CountCovered(init, boxes) + (if last in boxes then 1 else 0);
      assert goals == init + [last];
      ElementsSnoc(init, last);
      assert last !in Elements(init);
      assert Elements(goals) == Elements(init) + {last};
      IntersectionAddOne(Elements(init), last, Elements(boxes));
    }
  }

  lemma ElementsSnoc(init: seq<Coordinate>, last: Coordinate)
    ensures Elements(init + [last]) == Elements(init) + {last}
  {
  }

  /** Adding a fresh element to one side grows the intersection by one exactly when the other side holds it. */
  lemma IntersectionAddOne(a: set<Coordinate>, x: Coordinate, b: set<Coordinate>)
    requires x !in a
    ensures |(a + {x}) * b| == |a * b| + (if x in b then 1 else 0)
    ensures |b * (a + {x})| == |b * a| + (if x in b then 1 else 0)
  {
    assert b * (a + {x}) == (a + {x}) * b && b * a == a * b;
    if x in b {
      assert (a + {x}) * b == a * b + {x};
    } else {
      assert (a + {x}) * b == a * b;
    }
  }

  /** The count depends only on which cells hold a box, not on the list's order or length. */
  lemma {:induction false} CountCoveredSameCells(goals: seq<Coordinate>, boxes: seq<Coordinate>,
                                                 others: seq<Coordinate>)
    requires Elements(boxes) == Elements(others)
    ensures CountCovered(goals, boxes) == CountCovered(goals, others)
  {
    if goals != [] {
      CountCoveredSameCells(goals[..|goals| - 1], boxes, others);
      assert goals[|goals| - 1] in boxes <==> goals[|goals| - 1] in Elements(others);
    }
  }

  /** Position of the first entry equal to c, or |s| when there is none. */
  function IndexOf(s: seq<Coordinate>, c: Coordinate): (k: nat)
    ensures k <= |s|
    ensures k < |s| <==> c in s
    ensures k < |s| ==> s[k] == c
    ensures forall j :: 0 <= j < k ==> s[j] != c
  {
    if s == [] then 0
    else if s[0] == c then 0
    else 1 + IndexOf(s[1..], c)
  }

  /**
   * The box list after pushing the box at `from` to `to`: the first entry
   * equal to `from` is rewritten, scanning from the front.
   */
  function MoveFirst(boxes: seq<Coordinate>, from: Coordinate, to: Coordinate): (r: seq<Coordinate>)
  {
    if boxes == [] then []
    else if boxes[0] == from then [to] + boxes[1..]
    else [boxes[0]] + MoveFirst(boxes[1..], from, to)
  }

  /**
   * A push keeps the list's length, rewrites exactly the first entry
   * holding `from`, and leaves the list alone when no entry holds it.
   */
  lemma {:induction false} MoveFirstRewritesFirstMatch(boxes: seq<Coordinate>, from: Coordinate, to: Coordinate)
    ensures |MoveFirst(boxes, from, to)| == |boxes|
    ensures from !in boxes ==> MoveFirst(boxes, from, to) == boxes
    ensures from in boxes ==> MoveFirst(boxes, from, to) == boxes[IndexOf(boxes, from) := to]
  {
    if boxes != [] && boxes[0] != from {
      MoveFirstRewritesFirstMatch(boxes[1..], from, to);
      assert boxes == [boxes[0]] + boxes[1..];
      assert from in boxes <==> from in boxes[1..];
    }
  }

  /**
   * Pushing the box at `from` onto a free cell `to` keeps the boxes
   * distinct and replaces exactly that cell by `to` in the set of occupied cells.
   */
  lemma MoveFirstCells(boxes: seq<Coordinate>, from: Coordinate, to: Coordinate)
    requires Distinct(boxes) && from in boxes && to !in boxes
    ensures Distinct(MoveFirst(boxes, from, to))
    ensures Elements(MoveFirst(boxes, from, to)) == Elements(boxes) - {from} + {to}
  {
    MoveFirstRewritesFirstMatch(boxes, from, to);
    var k := IndexOf(boxes, from);
    var r := boxes[k := to];
    forall c | c in Elements(boxes) - {from} + {to} ensures c in Elements(r) {
      if c != to {
        var j :| 0 <= j < |boxes| && boxes[j] == c;
        assert r[j] == c;
      } else {
        assert r[k] == to;
      }
    }
  }

  /**
   * With distinct boxes and distinct goals, a push changes the number of
   * covered goals by at most one.
   */
  lemma PushChangesCountByAtMostOne(goals: seq<Coordinate>, boxes: seq<Coordinate>,
                                    from: Coordinate, to: Coordinate)
    requires Distinct(goals) && Distinct(boxes) && from in boxes && to !in boxes
    ensures var before := CountCovered(goals, boxes);
            var after := CountCovered(goals, MoveFirst(boxes, from, to));
            before - 1 <= after <= before + 1
  {
    MoveFirstCells(boxes, from, to);
    CountCoveredIsIntersection(goals, boxes);
    CountCoveredIsIntersection(goals, MoveFirst(boxes, from, to));
    var g, b := Elements(goals), Elements(boxes);
    var rest := b - {from};
    assert b == rest + {from};
    assert Elements(MoveFirst(boxes, from, to)) == rest + {to};
    IntersectionAddOne(rest, from, g);
    IntersectionAddOne(rest, to, g);
  }
}
