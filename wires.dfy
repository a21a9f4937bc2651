/** Day 3: two wires traced from a common origin on a grid. A `Path`
    follows comma-separated instructions such as "R75" and records every
    grid point it enters; part 1 asks for the crossing nearest the origin
    in Manhattan distance, part 2 for the crossing with the fewest
    combined steps. Both parts share the same `Path`. */
module CrossedWires {
  import opened Common

  datatype Point = Point(x: int, y: int)

  /** The unit move for a direction letter: U is y - 1, D is y + 1, L is
      x - 1 and any other letter is x + 1. */
  function Delta(direction: char): (d: (int, int))
    ensures (if d.0 < 0 then -d.0 else d.0) + (if d.1 < 0 then -d.1 else d.1) == 1
  {
    if direction == 'U' then (0, -1)
    else if direction == 'D' then (0, 1)
    else if direction == 'L' then (-1, 0)
    else (1, 0)
  }

  function Abs(n: int): nat {
    if n < 0 then -n else n
  }

  /** `getManhattanDistance` of two points (of a point and the origin when
      `a` is the origin). */
  function Manhattan(a: Point, b: Point): nat {
    Abs(a.x - b.x) + Abs(a.y - b.y)
  }

  /** Where k moves in one direction lead. */
  function Advance(p: Point, direction: char, k: nat): Point {
    var d := Delta(direction);
    Point(p.x + k * d.0, p.y + k * d.1)
  }

  /** The points entered by k moves in one direction, in order; the start
      itself is not among them. */
  function Trail(p: Point, direction: char, k: nat): (t: seq<Point>)
    ensures |t| == k
    ensures forall i :: 0 <= i < k ==> t[i] == Advance(p, direction, i + 1)
    decreases k
  {
    if k == 0 then [] else Trail(p, direction, k - 1) + [Advance(p, direction, k)]
  }

  /** An instruction: its first character is the direction and the rest is
      the distance in decimal; `instruction[0]` on an empty string and
      `int` on anything but digits raise. */
  function ParseInstruction(instruction: string): Option<(char, nat)> {
    if |instruction| == 0 then None
    else
      var distance :- ParseNat(instruction[1..]);
      Some((instruction[0], distance))
  }

  /** Where following instructions from `at` leads, the points entered on
      the way, and whether every instruction could be read. The walk stops
      at the first instruction that raises, keeping what came before. */
  datatype Walked = Walked(at: Point, points: seq<Point>, ok: bool)

  function Route(at: Point, instructions: seq<string>): Walked
    decreases |instructions|
  {
    if |instructions| == 0 then Walked(at, [], true)
    else
      match ParseInstruction(instructions[0])
      case None => Walked(at, [], false)
      case Some((direction, distance)) =>
        var rest := Route(Advance(at, direction, distance), instructions[1..]);
        Walked(rest.at, Trail(at, direction, distance) + rest.points, rest.ok)
  }

  /** The sum of the distances of instructions that can all be read. */
  function TotalDistance(instructions: seq<string>): nat
    requires forall k :: 0 <= k < |instructions| ==> ParseInstruction(instructions[k]).Some?
    decreases |instructions|
  {
    if |instructions| == 0 then 0
    else ParseInstruction(instructions[0]).value.1 + TotalDistance(instructions[1..])
  }

  class Path {
    var x: int
    var y: int
    var instructions: seq<string>
    var points: seq<Point>

    constructor()
      ensures x == 0 && y == 0 && instructions == [] && points == []
    {
      x := 0;
      y := 0;
      instructions := [];
      points := [];
    }

    /** `setInstructions`: the comma-separated pieces of the line. */
    method SetInstructions(line: string)
      modifies this
      ensures instructions == Split(line, ',')
      ensures x == old(x) && y == old(y) && points == old(points)
    {
      instructions := Split(line, ',');
    }

    /** `processSingleInstruction`: walk one unit at a time, recording each
      point entered. On an instruction that raises nothing changes. */
    method ProcessSingleInstruction(instruction: string) returns (ok: bool)
      modifies this
      ensures ok == ParseInstruction(instruction).Some?
      ensures ok ==> var (direction, distance) := ParseInstruction(instruction).value;
        points == old(points) + Trail(Point(old(x), old(y)), direction, distance)
        && Point(x, y) == Advance(Point(old(x), old(y)), direction, distance)
      ensures !ok ==> x == old(x) && y == old(y) && points == old(points)
      ensures instructions == old(instructions)
    {
      if |instruction| == 0 {
        return false;
      }
      var direction := instruction[0];
      var parsed := ParseNat(instruction[1..]);
      if parsed.None? {
        return false;
      }
      ok := true;
      var total := parsed.value;
      var distance := total;
      ghost var start := Point(x, y);
      while distance != 0
        invariant 0 <= distance <= total
        invariant Point(x, y) == Advance(start, direction, total - distance)
        invariant points == old(points) + Trail(start, direction, total - distance)
        invariant instructions == old(instructions)
        decreases distance
      {
        if direction == 'U' {
          y := y - 1;
        } else if direction == 'D' {
          y := y + 1;
        } else if direction == 'L' {
          x := x - 1;
        } else {
          x := x + 1;
        }
        points := points + [Point(x, y)];
        distance := distance - 1;
      }
    }

    /** `processInstructions`: every instruction in turn; an instruction
      that raises ends the walk, with the earlier ones applied. */
    method ProcessInstructions() returns (ok: bool)
      modifies this
      ensures var r := Route(Point(old(x), old(y)), old(instructions));
        ok == r.ok && Point(x, y) == r.at && points == old(points) + r.points
      ensures instructions == old(instructions)
    {
      ghost var start := Point(x, y);
      ghost var done: seq<Point> := [];
      var i := 0;
      while i < |instructions|
        invariant 0 <= i <= |instructions| && instructions == old(instructions)
        invariant points == old(points) + done
        invariant var r := Route(Point(x, y), instructions[i..]);
          Route(start, instructions) == Walked(r.at, done + r.points, r.ok)
        decreases |instructions| - i
      {
        ghost var at := Point(x, y);
        ok := ProcessSingleInstruction(instructions[i]);
        if !ok {
          return;
        }
        var (direction, distance) := ParseInstruction(instructions[i]).value;
        var j := i + 1;
        assert instructions[i..][1..] == instructions[j..];
        RouteStep(at, instructions[i..], done);
        done := done + Trail(at, direction, distance);
        i := j;
      }
      ok := true;
    }
  }

  lemma RouteStep(at: Point, instructions: seq<string>, done: seq<Point>)
    requires |instructions| > 0 && ParseInstruction(instructions[0]).Some?
    ensures var (direction, distance) := ParseInstruction(instructions[0]).value;
      var r := Route(at, instructions);
      var s := Route(Advance(at, direction, distance), instructions[1..]);
      Walked(r.at, done + r.points, r.ok)
        == Walked(s.at, (done + Trail(at, direction, distance)) + s.points, s.ok)
  {
    var (direction, distance) := ParseInstruction(instructions[0]).value;
    var t := Trail(at, direction, distance);
    var s := Route(Advance(at, direction, distance), instructions[1..]);
    assert done + (t + s.points) == (done + t) + s.points;
  }

  // ---------------------------------------------------------------------
  // What a walk records.

  /** Each recorded point is one unit away from the position before it,
      and the last one is where the walk ends. */
  lemma TrailUnitSteps(p: Point, direction: char, k: nat)
    ensures var t := Trail(p, direction, k);
      (k > 0 ==> Manhattan(p, t[0]) == 1 && t[k - 1] == Advance(p, direction, k))
      && forall i :: 0 < i < k ==> Manhattan(t[i - 1], t[i]) == 1
  {
  }

  /** The first move does not record the position it starts from. */
  lemma TrailAvoidsStart(p: Point, direction: char, k: nat)
    ensures p !in Trail(p, direction, k)
  {
  }

  /** A walk that reads every instruction enters exactly as many points
      as the distances add up to. */
  lemma {:induction false} RouteLength(at: Point, instructions: seq<string>)
    ensures Route(at, instructions).ok <==>
      forall k :: 0 <= k < |instructions| ==> ParseInstruction(instructions[k]).Some?
    ensures Route(at, instructions).ok ==> |Route(at, instructions).points| == TotalDistance(instructions)
    decreases |instructions|
  {
    if |instructions| > 0 {
      var tail := instructions[1..];
      assert forall k :: 0 < k < |instructions| ==> instructions[k] == tail[k - 1];
      match ParseInstruction(instructions[0])
      case None =>
      case Some((direction, distance)) =>
        RouteLength(Advance(at, direction, distance), tail);
    }
  }

  /** A walk ends on the last point it recorded, or where it started if
      it recorded none. */
  lemma {:induction false} RouteEnds(at: Point, instructions: seq<string>)
    ensures var r := Route(at, instructions);
      r.at == if |r.points| == 0 then at else r.points[|r.points| - 1]
    decreases |instructions|
  {
    if |instructions| > 0 {
      match ParseInstruction(instructions[0])
      case None =>
      case Some((direction, distance)) =>
        var next := Advance(at, direction, distance);
        RouteEnds(next, instructions[1..]);
        TrailUnitSteps(at, direction, distance);
    }
  }

  /** Every point of a walk is one unit from the one before it, the first
      one from the start. */
  lemma {:induction false} RouteUnitSteps(at: Point, instructions: seq<string>)
    ensures var r := Route(at, instructions);
      (|r.points| > 0 ==> Manhattan(at, r.points[0]) == 1)
      && forall i :: 0 < i < |r.points| ==> Manhattan(r.points[i - 1], r.points[i]) == 1
    decreases |instructions|
  {
    if |instructions| > 0 {
      match ParseInstruction(instructions[0])
      case None =>
      case Some((direction, distance)) =>
        var next := Advance(at, direction, distance);
        var t := Trail(at, direction, distance);
        var s := Route(next, instructions[1..]);
        RouteUnitSteps(next, instructions[1..]);
        TrailUnitSteps(at, direction, distance);
        JoinUnitSteps(at, t, next, s.points);
        assert Route(at, instructions).points == t + s.points;
    }
  }

  /** Two unit-step walks glue into one when the second starts where the
      first ends. */
  lemma JoinUnitSteps(at: Point, t: seq<Point>, next: Point, u: seq<Point>)
    requires next == if |t| == 0 then at else t[|t| - 1]
    requires |t| > 0 ==> Manhattan(at, t[0]) == 1
    requires forall i :: 0 < i < |t| ==> Manhattan(t[i - 1], t[i]) == 1
    requires |u| > 0 ==> Manhattan(next, u[0]) == 1
    requires forall i :: 0 < i < |u| ==> Manhattan(u[i - 1], u[i]) == 1
    ensures var pts := t + u;
      (|pts| > 0 ==> Manhattan(at, pts[0]) == 1)
      && forall i :: 0 < i < |pts| ==> Manhattan(pts[i - 1], pts[i]) == 1
  {
    var pts := t + u;
    forall i | 0 < i < |pts|
      ensures Manhattan(pts[i - 1], pts[i]) == 1
    {
      if i > |t| {
        assert pts[i - 1] == u[i - 1 - |t|] && pts[i] == u[i - |t|];
      } else if i == |t| {
        assert pts[i - 1] == next && pts[i] == u[0];
      }
    }
  }

  // ---------------------------------------------------------------------
  // Crossings.

  /** `getCommonPoints`: the points of the first wire, in order, that the
      second wire also enters. */
  function CommonPoints(points1: seq<Point>, points2: seq<Point>): (r: seq<Point>)
    ensures forall p :: p in r <==> p in points1 && p in points2
    decreases |points1|
  {
    if |points1| == 0 then []
    else
      var rest := CommonPoints(points1[1..], points2);
      if points1[0] in points2 then [points1[0]] + rest else rest
  }

  /** The filter keeps order: it commutes with splitting the first wire. */
  lemma {:induction false} CommonPointsAppend(a: seq<Point>, b: seq<Point>, points2: seq<Point>)
    ensures CommonPoints(a + b, points2) == CommonPoints(a, points2) + CommonPoints(b, points2)
    decreases |a|
  {
    if |a| == 0 {
      assert a + b == b;
    } else {
      assert (a + b)[1..] == a[1..] + b;
      CommonPointsAppend(a[1..], b, points2);
    }
  }

  /** The smallest value of a list; `min` of an empty list raises. */
  function Min(xs: seq<int>): (r: Option<int>)
    ensures r.None? <==> |xs| == 0
    ensures r.Some? ==> r.value in xs && forall k :: 0 <= k < |xs| ==> r.value <= xs[k]
    decreases |xs|
  {
    if |xs| == 0 then None
    else
      match Min(xs[1..])
      case None => Some(xs[0])
      case Some(m) => Some(if xs[0] <= m then xs[0] else m)
  }

  function Distances(points: seq<Point>): (r: seq<int>)
    ensures |r| == |points|
    ensures forall k :: 0 <= k < |points| ==> r[k] == Manhattan(Point(0, 0), points[k])
  {
    seq(|points|, k requires 0 <= k < |points| => Manhattan(Point(0, 0), points[k]))
  }

  /** `getClosestCommonPoint`: the smallest Manhattan distance from the
      origin over the crossings. */
  function ClosestCommonPoint(points1: seq<Point>, points2: seq<Point>): Option<int> {
    Min(Distances(CommonPoints(points1, points2)))
  }

  /** It is the distance of a crossing, no crossing is nearer, and it is
      missing exactly when the wires never cross. */
  lemma ClosestCommonPointIsNearest(points1: seq<Point>, points2: seq<Point>)
    ensures var r := ClosestCommonPoint(points1, points2);
      (r.None? <==> forall p :: p in points1 ==> p !in points2)
      && (r.Some? ==>
            (exists p :: p in points1 && p in points2 && r.value == Manhattan(Point(0, 0), p))
            && forall p :: p in points1 && p in points2 ==> r.value <= Manhattan(Point(0, 0), p))
  {
    var common := CommonPoints(points1, points2);
    var ds := Distances(common);
    var r := ClosestCommonPoint(points1, points2);
    if r.Some? {
      var k :| 0 <= k < |ds| && ds[k] == r.value;
      assert common[k] in points1 && common[k] in points2;
      forall p | p in points1 && p in points2
        ensures r.value <= Manhattan(Point(0, 0), p)
      {
        var j :| 0 <= j < |common| && common[j] == p;
        assert ds[j] == Manhattan(Point(0, 0), p);
      }
    }
  }

  function StepCounts(common: seq<Point>, points1: seq<Point>, points2: seq<Point>): (r: seq<int>)
    requires forall k :: 0 <= k < |common| ==> common[k] in points1 && common[k] in points2
    ensures |r| == |common|
    ensures forall k :: 0 <= k < |common| ==> r[k] == IndexOf(points1, common[k]) + IndexOf(points2, common[k])
  {
    seq(|common|, k requires 0 <= k < |common| && common[k] in points1 && common[k] in points2 =>
      IndexOf(points1, common[k]) + IndexOf(points2, common[k]))
  }

  /** `getNumberOfSteps`: the fewest combined steps to a crossing. The
      positions are 0-based and each wire's first point is one step from
      the origin, hence the 2. */
  function NumberOfSteps(points1: seq<Point>, points2: seq<Point>): Option<int> {
    var common := CommonPoints(points1, points2);
    var least :- Min(StepCounts(common, points1, points2));
    Some(least + 2)
  }

  /** The fewest steps are those of some crossing. */
  lemma StepsAttained(points1: seq<Point>, points2: seq<Point>)
    requires NumberOfSteps(points1, points2).Some?
    ensures exists p :: (p in points1 && p in points2
      && NumberOfSteps(points1, points2).value == IndexOf(points1, p) + 1 + IndexOf(points2, p) + 1)
  {
    var common := CommonPoints(points1, points2);
    var counts := StepCounts(common, points1, points2);
    var k :| 0 <= k < |counts| && counts[k] == NumberOfSteps(points1, points2).value - 2;
    assert common[k] in points1 && common[k] in points2;
  }

  /** No crossing takes fewer steps. */
  lemma StepsLeast(points1: seq<Point>, points2: seq<Point>, p: Point)
    requires NumberOfSteps(points1, points2).Some? && p in points1 && p in points2
    ensures NumberOfSteps(points1, points2).value <= IndexOf(points1, p) + 1 + IndexOf(points2, p) + 1
  {
    var common := CommonPoints(points1, points2);
    assert p in common;
    CountBound(common, points1, points2, p);
  }

  /** The least step count is at most that of each listed crossing. */
  lemma CountBound(common: seq<Point>, points1: seq<Point>, points2: seq<Point>, p: Point)
    requires forall k :: 0 <= k < |common| ==> common[k] in points1 && common[k] in points2
    requires p in common
    ensures var least := Min(StepCounts(common, points1, points2));
      least.Some? && least.value <= IndexOf(points1, p) + IndexOf(points2, p)
  {
    var counts := StepCounts(common, points1, points2);
    var j :| 0 <= j < |common| && common[j] == p;
    assert counts[j] == IndexOf(points1, p) + IndexOf(points2, p);
  }

  /** The result counts the steps each wire takes to first reach one
      crossing, no crossing is reached in fewer, and there is none exactly
      when the wires never cross. */
  lemma NumberOfStepsIsFewest(points1: seq<Point>, points2: seq<Point>)
    ensures var r := NumberOfSteps(points1, points2);
      (r.None? <==> forall p :: p in points1 ==> p !in points2)
      && (r.Some? ==>
            (exists p :: p in points1 && p in points2
               && r.value == IndexOf(points1, p) + 1 + IndexOf(points2, p) + 1)
            && forall p :: p in points1 && p in points2 ==>
                 r.value <= IndexOf(points1, p) + 1 + IndexOf(points2, p) + 1)
  {
    var r := NumberOfSteps(points1, points2);
    if r.Some? {
      StepsAttained(points1, points2);
      forall p | p in points1 && p in points2
        ensures r.value <= IndexOf(points1, p) + 1 + IndexOf(points2, p) + 1
      {
        StepsLeast(points1, points2, p);
      }
    }
  }
}
