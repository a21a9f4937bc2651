// Day 10: a grid of asteroids ('#'), and for each asteroid the number of
// asteroids it sees when every asteroid on the line between blocks the view.

module Asteroids {
  import opened Common

  /** A grid position, the `{"x": .., "y": ..}` dictionaries of the source. */
  datatype Point = Point(x: int, y: int)

  /** `get_delta`. */
  function Delta(start: Point, end: Point): (d: Point)
    ensures Point(start.x + d.x, start.y + d.y) == end
  {
    Point(end.x - start.x, end.y - start.y)
  }

  // ---------------------------------------------------------------------
  // Reading the grid.

  /** One line of the grid: a cell is an asteroid exactly when it is '#'. */
  function Row(line: string): (row: seq<bool>)
    ensures |row| == |Strip(line)|
    ensures forall i :: 0 <= i < |row| ==> (row[i] <==> Strip(line)[i] == '#')
  {
    var s := Strip(line);
    seq(|s|, i requires 0 <= i < |s| => s[i] == '#')
  }

  function Rows(lines: seq<string>): (rows: seq<seq<bool>>)
    ensures |rows| == |lines| && forall k :: 0 <= k < |rows| ==> rows[k] == Row(lines[k])
  {
    seq(|lines|, k requires 0 <= k < |lines| => Row(lines[k]))
  }

  // ---------------------------------------------------------------------
  // Between.

  /** Squared distance; `get_distance` is its square root, and the one
      comparison made of two distances is the same on their squares. */
  function Dist2(p: Point, q: Point): nat {
    (p.x - q.x) * (p.x - q.x) + (p.y - q.y) * (p.y - q.y)
  }

  function Cross(start: Point, end: Point, point: Point): int {
    (point.y - start.y) * (end.x - start.x) - (point.x - start.x) * (end.y - start.y)
  }

  /** `is_between`: the point lies on the line through start and end, is
      neither of them, and is no farther from start than end is. */
  function IsBetween(start: Point, end: Point, point: Point): bool {
    if start == end || point == start || point == end then false
    else if Dist2(start, end) < Dist2(start, point) then false
    else Cross(start, end, point) == 0
  }

  /** Squares grow with the absolute value. */
  lemma SquareLe(a: int, b: int)
    requires -b <= a <= b
    ensures a * a <= b * b
  {
    var m := if a < 0 then -a else a;
    assert a * a == m * m;
    assert m * m <= m * b <= b * b;
  }

  lemma MulLe(p: int, q: int, n: nat)
    requires p <= q
    ensures p * n <= q * n
  {
    assert q * n - p * n == (q - p) * n;
  }

  /** A point k steps of (dx, dy) from start. */
  function Step(start: Point, dx: int, dy: int, k: int): Point {
    Point(start.x + k * dx, start.y + k * dy)
  }

  lemma StepDist(start: Point, dx: int, dy: int, k: int)
    ensures Dist2(start, Step(start, dx, dy, k)) == k * k * (dx * dx + dy * dy)
  {
    assert (k * dx) * (k * dx) == k * k * (dx * dx);
    assert (k * dy) * (k * dy) == k * k * (dy * dy);
  }

  lemma StepCross(start: Point, dx: int, dy: int, a: int, b: int)
    ensures Cross(start, Step(start, dx, dy, b), Step(start, dx, dy, a)) == 0
  {
    assert (a * dy) * (b * dx) == (a * dx) * (b * dy);
  }

  lemma MulNonZero(p: int, q: int)
    requires p != 0 && q != 0
    ensures p * q != 0
  {
    if p > 0 && q > 0 {
      MulAtLeast(p, q);
    } else if p > 0 {
      MulAtLeast(p, -q);
      assert p * q == -(p * -q);
    } else if q > 0 {
      MulAtLeast(q, -p);
      assert p * q == -(q * -p);
    } else {
      MulAtLeast(-p, -q);
      assert p * q == (-p) * (-q);
    }
  }

  /** Different step counts of a non-zero step reach different points. */
  lemma StepsDiffer(start: Point, dx: int, dy: int, a: int, b: int)
    requires (dx != 0 || dy != 0) && a != b
    ensures Step(start, dx, dy, a) != Step(start, dx, dy, b)
  {
    assert a * dx - b * dx == (a - b) * dx && a * dy - b * dy == (a - b) * dy;
    if dx != 0 {
      MulNonZero(a - b, dx);
    } else {
      MulNonZero(a - b, dy);
    }
  }

  /** Every other grid point on the line through start and end, on either
      side of start, no farther from it than end, blocks the view: the
      source does not check the direction. */
  lemma CollinearBlocks(start: Point, dx: int, dy: int, a: int, b: int)
    requires dx != 0 || dy != 0
    requires 0 < b && a != 0 && -b <= a < b
    ensures IsBetween(start, Step(start, dx, dy, b), Step(start, dx, dy, a))
  {
    assert start == Step(start, dx, dy, 0);
    StepsDiffer(start, dx, dy, 0, b);
    StepsDiffer(start, dx, dy, 0, a);
    StepsDiffer(start, dx, dy, a, b);
    StepDist(start, dx, dy, a);
    StepDist(start, dx, dy, b);
    SquareLe(a, b);
    MulLe(a * a, b * b, dx * dx + dy * dy);
    StepCross(start, dx, dy, a, b);
  }

  /** A station never blocks itself, and nothing blocks the view of the
      station from the station. */
  lemma NoBlockAtStation(station: Point, point: Point)
    ensures !IsBetween(station, station, point) && !IsBetween(station, point, station)
  {
  }

  // ---------------------------------------------------------------------
  // Listing the asteroids.

  /** `get_asteroids` from position (x, y) on, rows `y < height` outer and
      columns `x < width` inner; None when `grid[y][x]` raises IndexError. */
  function Scan(grid: seq<seq<bool>>, width: nat, height: nat, y: nat, x: nat): Option<seq<Point>>
    decreases height - y, width - x
  {
    if y >= height then Some([])
    else if x >= width then Scan(grid, width, height, y + 1, 0)
    else if y >= |grid| || x >= |grid[y]| then None
    else
      var rest :- Scan(grid, width, height, y, x + 1);
      Some((if grid[y][x] then [Point(x, y)] else []) + rest)
  }

  /** Positions from (x, y) on in row-major order, inside the bounds. */
  predicate Onward(width: nat, height: nat, y: nat, x: nat, p: Point) {
    0 <= p.x < width && p.y < height && (p.y > y || (p.y == y && p.x >= x))
  }

  /** Row r exists and has `width` cells. */
  predicate RowFits(grid: seq<seq<bool>>, width: nat, r: nat) {
    r < |grid| && width <= |grid[r]|
  }

  /** Every cell the scan from (x, y) on reads exists. */
  predicate FitsFrom(grid: seq<seq<bool>>, width: nat, height: nat, y: nat, x: nat) {
    (y < height && x < width ==> RowFits(grid, width, y))
    && (width > 0 ==> forall r: nat :: y < r < height ==> RowFits(grid, width, r))
  }

  function Prepend(prefix: seq<Point>, rest: Option<seq<Point>>): Option<seq<Point>> {
    match rest
    case None => None
    case Some(s) => Some(prefix + s)
  }

  lemma PrependNothing(rest: Option<seq<Point>>)
    ensures Prepend([], rest) == rest
  {
    if rest.Some? {
      assert [] + rest.value == rest.value;
    }
  }

  /** The scan raises exactly when a cell it reads is missing: with width
      the row count and height the first row's length, a grid that is not
      square can raise. */
  lemma {:induction false} ScanFits(grid: seq<seq<bool>>, width: nat, height: nat, y: nat, x: nat)
    ensures Scan(grid, width, height, y, x).Some? <==> FitsFrom(grid, width, height, y, x)
    decreases height - y, width - x
  {
    if y < height {
      if x >= width {
        ScanFits(grid, width, height, y + 1, 0);
        if width > 0 && y + 1 < height {
          assert FitsFrom(grid, width, height, y, x) ==> RowFits(grid, width, y + 1);
        }
      } else if y < |grid| && x < |grid[y]| {
        ScanFits(grid, width, height, y, x + 1);
      }
    }
  }

  /** `set_map` takes the number of rows as the width and the length of
      the first row as the height. A square map scans in full. */
  lemma SquareScans(grid: seq<seq<bool>>)
    requires |grid| > 0 && forall r :: 0 <= r < |grid| ==> |grid[r]| == |grid|
    ensures Scan(grid, |grid|, |grid[0]|, 0, 0).Some?
  {
    ScanFits(grid, |grid|, |grid[0]|, 0, 0);
    assert forall r: nat :: 0 < r < |grid[0]| ==> RowFits(grid, |grid|, r);
  }

  /** A map of one row two cells wide does not: the scan asks for a
      second row, which is missing, and so indexes out of range. */
  lemma NonSquareRaises()
    ensures Scan([[false, true]], 1, 2, 0, 0).None?
  {
    ScanFits([[false, true]], 1, 2, 0, 0);
    assert !RowFits([[false, true]], 1, 1);
  }

  /** What the scan finds are asteroids, in the bounds, from (x, y) on. */
  lemma {:induction false} ScanSound(grid: seq<seq<bool>>, width: nat, height: nat, y: nat, x: nat, ps: seq<Point>)
    requires Scan(grid, width, height, y, x) == Some(ps)
    ensures forall i :: 0 <= i < |ps| ==>
      Onward(width, height, y, x, ps[i])
      && ps[i].y < |grid| && ps[i].x < |grid[ps[i].y]| && grid[ps[i].y][ps[i].x]
    decreases height - y, width - x
  {
    if y < height {
      if x >= width {
        ScanSound(grid, width, height, y + 1, 0, ps);
      } else {
        var rest := Scan(grid, width, height, y, x + 1).value;
        ScanSound(grid, width, height, y, x + 1, rest);
      }
    }
  }

  /** Every asteroid from (x, y) on is found. */
  lemma {:induction false} ScanComplete(grid: seq<seq<bool>>, width: nat, height: nat, y: nat, x: nat, ps: seq<Point>, p: Point)
    requires Scan(grid, width, height, y, x) == Some(ps)
    requires Onward(width, height, y, x, p) && p.y < |grid| && p.x < |grid[p.y]| && grid[p.y][p.x]
    ensures p in ps
    decreases height - y, width - x
  {
    if x >= width {
      ScanComplete(grid, width, height, y + 1, 0, ps, p);
    } else if p != Point(x, y) {
      var rest := Scan(grid, width, height, y, x + 1).value;
      ScanComplete(grid, width, height, y, x + 1, rest, p);
    }
  }

  /** Row-major order: by row, then by column. */
  predicate Before(p: Point, q: Point) {
    p.y < q.y || (p.y == q.y && p.x < q.x)
  }

  predicate RowMajor(ps: seq<Point>) {
    forall i :: 0 <= i < |ps| - 1 ==> Before(ps[i], ps[i + 1])
  }

  /** The asteroids come in strict row-major order. */
  lemma {:induction false} ScanOrdered(grid: seq<seq<bool>>, width: nat, height: nat, y: nat, x: nat, ps: seq<Point>)
    requires Scan(grid, width, height, y, x) == Some(ps)
    ensures RowMajor(ps)
    decreases height - y, width - x
  {
    if y < height {
      if x >= width {
        ScanOrdered(grid, width, height, y + 1, 0, ps);
      } else {
        var rest := Scan(grid, width, height, y, x + 1).value;
        ScanOrdered(grid, width, height, y, x + 1, rest);
        if grid[y][x] && |rest| > 0 {
          ScanSound(grid, width, height, y, x + 1, rest);
          assert Before(Point(x, y), rest[0]);
        }
      }
    }
  }

  /** One step of the inner loop of `get_asteroids`. */
  lemma ScanStep(grid: seq<seq<bool>>, width: nat, height: nat, y: nat, x: nat, points: seq<Point>)
    requires y < height && x < width && y < |grid| && x < |grid[y]|
    ensures Prepend(points, Scan(grid, width, height, y, x))
      == Prepend(points + (if grid[y][x] then [Point(x, y)] else []), Scan(grid, width, height, y, x + 1))
  {
    var rest := Scan(grid, width, height, y, x + 1);
    if rest.Some? {
      var cell := if grid[y][x] then [Point(x, y)] else [];
      assert points + (cell + rest.value) == (points + cell) + rest.value;
    }
  }

  // ---------------------------------------------------------------------
  // Visibility.

  /** No asteroid lies between the station and the target. */
  predicate Visible(blockers: seq<Point>, station: Point, target: Point) {
    forall k :: 0 <= k < |blockers| ==> !IsBetween(station, target, blockers[k])
  }

  /** The targets the station sees. */
  function CountVisible(targets: seq<Point>, blockers: seq<Point>, station: Point): (n: nat)
    ensures n <= |targets|
    decreases |targets|
  {
    if |targets| == 0 then 0
    else
      CountVisible(targets[..|targets| - 1], blockers, station)
      + (if Visible(blockers, station, targets[|targets| - 1]) then 1 else 0)
  }

  /** The visibility score of a station among the asteroids. */
  function Score(asteroids: seq<Point>, station: Point): nat {
    CountVisible(asteroids, asteroids, station)
  }

  /** The station sees itself, so a station in the list scores at least 1. */
  lemma {:induction false} StationSeesItself(targets: seq<Point>, blockers: seq<Point>, station: Point)
    requires station in targets
    ensures CountVisible(targets, blockers, station) >= 1
    decreases |targets|
  {
    var last := targets[|targets| - 1];
    if last == station {
      assert Visible(blockers, station, station);
    } else {
      assert station in targets[..|targets| - 1];
      StationSeesItself(targets[..|targets| - 1], blockers, station);
    }
  }

  /** The score of an asteroid is between 1 and the number of asteroids. */
  lemma ScoreBounds(asteroids: seq<Point>, station: Point)
    requires station in asteroids
    ensures 1 <= Score(asteroids, station) <= |asteroids|
  {
    StationSeesItself(asteroids, asteroids, station);
  }

  // ---------------------------------------------------------------------
  // The best station.

  function Scores(asteroids: seq<Point>): (scores: seq<nat>)
    ensures |scores| == |asteroids|
  {
    seq(|asteroids|, k requires 0 <= k < |asteroids| => Score(asteroids, asteroids[k]))
  }

  /** `max(scores)`: None when it raises ValueError on no asteroids. */
  function BestScore(asteroids: seq<Point>): Option<nat> {
    if |asteroids| == 0 then None else Some(Max(Scores(asteroids)))
  }

  /** `asteroids[scores.index(max(scores))]`. */
  function BestCandidate(asteroids: seq<Point>): Option<Point> {
    if |asteroids| == 0 then None
    else
      var scores := Scores(asteroids);
      Some(asteroids[IndexOf(scores, Max(scores))])
  }

  lemma ScoresAt(asteroids: seq<Point>, k: nat)
    requires k < |asteroids|
    ensures Scores(asteroids)[k] == Score(asteroids, asteroids[k])
  {
  }

  /** The best score is the score of some asteroid and no asteroid scores
      more; it is at least 1 and at most the number of asteroids. */
  lemma BestScoreMeaning(asteroids: seq<Point>)
    ensures BestScore(asteroids).None? <==> |asteroids| == 0
    ensures BestScore(asteroids).Some? ==>
      var best := BestScore(asteroids).value;
      1 <= best <= |asteroids|
      && (exists k :: 0 <= k < |asteroids| && Score(asteroids, asteroids[k]) == best)
      && forall k :: 0 <= k < |asteroids| ==> Score(asteroids, asteroids[k]) <= best
  {
    if |asteroids| > 0 {
      var scores := Scores(asteroids);
      var best := Max(scores);
      var i := IndexOf(scores, best);
      ScoresAt(asteroids, i);
      ScoreBounds(asteroids, asteroids[i]);
      forall k | 0 <= k < |asteroids|
        ensures Score(asteroids, asteroids[k]) <= best
      {
        ScoresAt(asteroids, k);
      }
    }
  }

  /** The candidate is the first asteroid, in row-major order, with the best
      score. */
  lemma BestCandidateMeaning(asteroids: seq<Point>)
    ensures BestCandidate(asteroids).None? <==> |asteroids| == 0
    ensures BestCandidate(asteroids).Some? ==>
      exists i :: 0 <= i < |asteroids| && BestCandidate(asteroids).value == asteroids[i]
        && Some(Score(asteroids, asteroids[i])) == BestScore(asteroids)
        && forall k :: 0 <= k < i ==> Score(asteroids, asteroids[k]) < Score(asteroids, asteroids[i])
  {
    if |asteroids| > 0 {
      var scores := Scores(asteroids);
      var best := Max(scores);
      var i := IndexOf(scores, best);
      ScoresAt(asteroids, i);
      forall k | 0 <= k < i
        ensures Score(asteroids, asteroids[k]) < Score(asteroids, asteroids[i])
      {
        ScoresAt(asteroids, k);
      }
    }
  }

  // ---------------------------------------------------------------------
  // The field object.

  /** `get_visibility_score` on the grid: None when listing the asteroids
      raises. */
  function VisibilityScore(grid: seq<seq<bool>>, width: nat, height: nat, station: Point): Option<nat> {
    var asteroids :- Scan(grid, width, height, 0, 0);
    Some(Score(asteroids, station))
  }

  /** The inner loop of `get_visibility_score`: is some asteroid between
      the station and the target? */
  method Blocked(station: Point, target: Point, blockers: seq<Point>) returns (blocked: bool)
    ensures blocked <==> !Visible(blockers, station, target)
  {
    var j := 0;
    while j < |blockers|
      invariant j <= |blockers|
      invariant forall k :: 0 <= k < j ==> !IsBetween(station, target, blockers[k])
    {
      if IsBetween(station, target, blockers[j]) {
        return true;
      }
      j := j + 1;
    }
    return false;
  }

  class AsteroidField {
    var grid: seq<seq<bool>>
    var width: nat
    var height: nat

    constructor ()
      ensures grid == [] && width == 0 && height == 0
    {
      grid := [];
      width := 0;
      height := 0;
    }

    method Reset()
      modifies this
      ensures grid == [] && width == 0 && height == 0
    {
      grid := [];
      width := 0;
      height := 0;
    }

    /** `set_map`: width is the number of rows and height the length of the
        first; no first row raises IndexError (false) after the rows and
        the width are set. */
    method SetMap(lines: seq<string>) returns (ok: bool)
      modifies this
      ensures grid == Rows(lines) && width == |lines|
      ensures ok <==> |lines| > 0
      ensures height == if ok then |Row(lines[0])| else 0
    {
      Reset();
      for i := 0 to |lines|
        invariant |grid| == i && forall k :: 0 <= k < i ==> grid[k] == Row(lines[k])
        invariant width == 0 && height == 0
      {
        grid := grid + [Row(lines[i])];
      }
      assert grid == Rows(lines);
      width := |grid|;
      if |grid| == 0 {
        return false;
      }
      height := |grid[0]|;
      ok := true;
    }

    /** `get_asteroids`. */
    method GetAsteroids() returns (r: Option<seq<Point>>)
      ensures r == Scan(grid, width, height, 0, 0)
    {
      var points := [];
      PrependNothing(Scan(grid, width, height, 0, 0));
      for y := 0 to height
        invariant Scan(grid, width, height, 0, 0) == Prepend(points, Scan(grid, width, height, y, 0))
      {
        for x := 0 to width
          invariant Scan(grid, width, height, 0, 0) == Prepend(points, Scan(grid, width, height, y, x))
        {
          if y >= |grid| || x >= |grid[y]| {
            return None;
          }
          ScanStep(grid, width, height, y, x, points);
          if grid[y][x] {
            points := points + [Point(x, y)];
          } else {
            assert points + [] == points;
          }
        }
        assert Scan(grid, width, height, y, width) == Scan(grid, width, height, y + 1, 0);
      }
      assert points + [] == points;
      return Some(points);
    }

    /** `get_visibility_score`: a target counts unless some asteroid lies
        between it and the station. */
    method GetVisibilityScore(station: Point) returns (r: Option<nat>)
      ensures r == VisibilityScore(grid, width, height, station)
    {
      var targets := GetAsteroids();
      if targets.None? {
        return None;
      }
      var score := 0;
      for i := 0 to |targets.value|
        invariant score == CountVisible(targets.value[..i], targets.value, station)
      {
        var target := targets.value[i];
        var blockers := GetAsteroids();
        var blocked := Blocked(station, target, blockers.value);
        assert targets.value[..i + 1][..i] == targets.value[..i];
        if !blocked {
          score := score + 1;
        }
      }
      assert targets.value[..|targets.value|] == targets.value;
      return Some(score);
    }

    /** The scores of all asteroids, in order: the loop of both
        `get_best_score` and `get_best_candidate_station`. */
    method CollectScores(asteroids: seq<Point>) returns (scores: seq<nat>)
      requires Scan(grid, width, height, 0, 0) == Some(asteroids)
      ensures scores == Scores(asteroids)
    {
      scores := [];
      for i := 0 to |asteroids|
        invariant |scores| == i
        invariant forall k :: 0 <= k < i ==> scores[k] == Score(asteroids, asteroids[k])
      {
        var score := GetVisibilityScore(asteroids[i]);
        scores := scores + [score.value];
      }
    }

    /** `get_best_score`. */
    method GetBestScore() returns (r: Option<nat>)
      ensures r == (var asteroids :- Scan(grid, width, height, 0, 0); BestScore(asteroids))
    {
      var asteroids := GetAsteroids();
      if asteroids.None? {
        return None;
      }
      var scores := CollectScores(asteroids.value);
      if |scores| == 0 {
        return None;
      }
      r := Some(Max(scores));
    }

    /** `get_best_candidate_station`. */
    method GetBestCandidateStation() returns (r: Option<Point>)
      ensures r == (var asteroids :- Scan(grid, width, height, 0, 0); BestCandidate(asteroids))
    {
      var asteroids := GetAsteroids();
      if asteroids.None? {
        return None;
      }
      var scores := CollectScores(asteroids.value);
      if |scores| == 0 {
        return None;
      }
      r := Some(asteroids.value[IndexOf(scores, Max(scores))]);
    }
  }
}
