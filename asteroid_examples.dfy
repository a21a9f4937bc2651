/** The first sample of day 10, a five by five map with ten asteroids.
    Its test expects the best station at (3, 4) with a score of eight.
    Eight asteroids are in sight from there, but `get_visibility_score`
    also counts the station itself and gives nine. */
module AsteroidExamples {
  import opened Common
  import opened Asteroids

  function SampleMap(): seq<string> {
    [".#..#", ".....", "#####", "....#", "...##"]
  }

  /** The asteroids of the sample in the order `get_asteroids` lists them. */
  function SampleAsteroids(): seq<Point> {
    [Point(1, 0), Point(4, 0), Point(0, 2), Point(1, 2), Point(2, 2),
     Point(3, 2), Point(4, 2), Point(4, 3), Point(3, 4), Point(4, 4)]
  }

  /** The sample map read into cells. */
  function SampleGrid(): seq<seq<bool>> {
    [[false, true, false, false, true],
     [false, false, false, false, false],
     [true, true, true, true, true],
     [false, false, false, false, true],
     [false, false, false, true, true]]
  }

  /** Reading one line of the sample: no whitespace to strip. */
  lemma SampleRow(k: nat)
    requires k < 5
    ensures Row(SampleMap()[k]) == SampleGrid()[k]
  {
    var line := SampleMap()[k];
    StripClean(line);
    assert |line| == 5;
  }

  lemma SampleRows()
    ensures Rows(SampleMap()) == SampleGrid()
  {
    SampleRow(0);
    SampleRow(1);
    SampleRow(2);
    SampleRow(3);
    SampleRow(4);
  }

  /** The asteroid, if any, in column x of row y. */
  function Cell(row: seq<bool>, x: nat, y: nat): seq<Point>
    requires x < |row|
  {
    if row[x] then [Point(x, y)] else []
  }

  /** A scan five columns wide lists a row's asteroids left to right and
      goes on with the next row. */
  lemma ScanFiveColumns(grid: seq<seq<bool>>, height: nat, y: nat)
    requires y < height && y < |grid| && |grid[y]| >= 5
    ensures Scan(grid, 5, height, y, 0)
      == Prepend(Cell(grid[y], 0, y) + Cell(grid[y], 1, y) + Cell(grid[y], 2, y) + Cell(grid[y], 3, y) + Cell(grid[y], 4, y),
                 Scan(grid, 5, height, y + 1, 0))
  {
    var row := grid[y];
    PrependNothing(Scan(grid, 5, height, y, 0));
    ScanStep(grid, 5, height, y, 0, []);
    assert [] + Cell(row, 0, y) == Cell(row, 0, y);
    ScanStep(grid, 5, height, y, 1, Cell(row, 0, y));
    ScanStep(grid, 5, height, y, 2, Cell(row, 0, y) + Cell(row, 1, y));
    ScanStep(grid, 5, height, y, 3, Cell(row, 0, y) + Cell(row, 1, y) + Cell(row, 2, y));
    ScanStep(grid, 5, height, y, 4, Cell(row, 0, y) + Cell(row, 1, y) + Cell(row, 2, y) + Cell(row, 3, y));
    assert Scan(grid, 5, height, y, 5) == Scan(grid, 5, height, y + 1, 0);
  }

  /** The sample's grid lists its asteroids row by row. */
  /** The asteroids of row y of the sample, left to right. */
  function SampleRowAsteroids(y: nat): seq<Point> {
    if y == 0 then [Point(1, 0), Point(4, 0)]
    else if y == 2 then [Point(0, 2), Point(1, 2), Point(2, 2), Point(3, 2), Point(4, 2)]
    else if y == 3 then [Point(4, 3)]
    else if y == 4 then [Point(3, 4), Point(4, 4)]
    else []
  }

  /** Each row of the sample scans to its own asteroids. */
  lemma SampleRowScan(y: nat)
    requires y < 5
    ensures Scan(SampleGrid(), 5, 5, y, 0) == Prepend(SampleRowAsteroids(y), Scan(SampleGrid(), 5, 5, y + 1, 0))
  {
    var g := SampleGrid();
    ScanFiveColumns(g, 5, y);
    assert Cell(g[y], 0, y) + Cell(g[y], 1, y) + Cell(g[y], 2, y) + Cell(g[y], 3, y) + Cell(g[y], 4, y)
      == SampleRowAsteroids(y);
  }

  /** The sample's grid lists its asteroids row by row. */
  lemma SampleScan()
    ensures Scan(SampleGrid(), 5, 5, 0, 0) == Some(SampleAsteroids())
  {
    var g := SampleGrid();
    assert Scan(g, 5, 5, 5, 0) == Some([]);
    SampleRowScan(4);
    SampleRowScan(3);
    SampleRowScan(2);
    SampleRowScan(1);
    SampleRowScan(0);
    var rows := SampleRowAsteroids(0) + (SampleRowAsteroids(1) + (SampleRowAsteroids(2)
      + (SampleRowAsteroids(3) + (SampleRowAsteroids(4) + []))));
    assert Scan(g, 5, 5, 0, 0) == Some(rows);
    assert rows == SampleAsteroids();
  }

  /** Nothing on the sample's ten positions lies between start and end. */
  predicate ClearOf(start: Point, end: Point) {
    !IsBetween(start, end, Point(1, 0)) && !IsBetween(start, end, Point(4, 0))
    && !IsBetween(start, end, Point(0, 2)) && !IsBetween(start, end, Point(1, 2))
    && !IsBetween(start, end, Point(2, 2)) && !IsBetween(start, end, Point(3, 2))
    && !IsBetween(start, end, Point(4, 2)) && !IsBetween(start, end, Point(4, 3))
    && !IsBetween(start, end, Point(3, 4)) && !IsBetween(start, end, Point(4, 4))
  }

  lemma ClearVisible(start: Point, end: Point)
    requires ClearOf(start, end)
    ensures Visible(SampleAsteroids(), start, end)
  {
    var a := SampleAsteroids();
    forall k | 0 <= k < |a|
      ensures !IsBetween(start, end, a[k])
    {
      if k == 0 { assert a[0] == Point(1, 0); }
      else if k == 1 { assert a[1] == Point(4, 0); }
      else if k == 2 { assert a[2] == Point(0, 2); }
      else if k == 3 { assert a[3] == Point(1, 2); }
      else if k == 4 { assert a[4] == Point(2, 2); }
      else if k == 5 { assert a[5] == Point(3, 2); }
      else if k == 6 { assert a[6] == Point(4, 2); }
      else if k == 7 { assert a[7] == Point(4, 3); }
      else if k == 8 { assert a[8] == Point(3, 4); }
      else { assert a[9] == Point(4, 4); }
    }
  }

  /** The station sees the asteroids in rows 0 and 2. */
  lemma SeenAbove()
    ensures Visible(SampleAsteroids(), Point(3, 4), Point(4, 0))
    ensures Visible(SampleAsteroids(), Point(3, 4), Point(0, 2))
    ensures Visible(SampleAsteroids(), Point(3, 4), Point(1, 2))
    ensures Visible(SampleAsteroids(), Point(3, 4), Point(2, 2))
    ensures Visible(SampleAsteroids(), Point(3, 4), Point(3, 2))
    ensures Visible(SampleAsteroids(), Point(3, 4), Point(4, 2))
  {
    ClearVisible(Point(3, 4), Point(4, 0));
    ClearVisible(Point(3, 4), Point(0, 2));
    ClearVisible(Point(3, 4), Point(1, 2));
    ClearVisible(Point(3, 4), Point(2, 2));
    ClearVisible(Point(3, 4), Point(3, 2));
    ClearVisible(Point(3, 4), Point(4, 2));
  }

  /** The station sees the asteroids in rows 3 and 4, itself included. */
  lemma SeenBeside()
    ensures Visible(SampleAsteroids(), Point(3, 4), Point(4, 3))
    ensures Visible(SampleAsteroids(), Point(3, 4), Point(3, 4))
    ensures Visible(SampleAsteroids(), Point(3, 4), Point(4, 4))
  {
    ClearVisible(Point(3, 4), Point(4, 3));
    ClearVisible(Point(3, 4), Point(3, 4));
    ClearVisible(Point(3, 4), Point(4, 4));
  }

  /** (2, 2) lies between (3, 4) and (1, 0). */
  lemma HiddenFromStation()
    ensures !Visible(SampleAsteroids(), Point(3, 4), Point(1, 0))
  {
    assert IsBetween(Point(3, 4), Point(1, 0), SampleAsteroids()[4]);
  }

  /** Counting one more target adds one exactly when it is visible. */
  /** One for a target the station sees, zero for one it does not. */
  function Seen(blockers: seq<Point>, station: Point, target: Point): nat {
    if Visible(blockers, station, target) then 1 else 0
  }

  /** Counting one more target adds what that target contributes. */
  lemma CountOneMore(targets: seq<Point>, target: Point, blockers: seq<Point>, station: Point)
    ensures CountVisible(targets + [target], blockers, station)
      == CountVisible(targets, blockers, station) + Seen(blockers, station, target)
  {
    assert (targets + [target])[..|targets|] == targets;
  }

  /** Ten targets count what each of them contributes. */
  lemma TallyTen(targets: seq<Point>, blockers: seq<Point>, station: Point)
    requires |targets| == 10
    ensures CountVisible(targets, blockers, station)
      == Seen(blockers, station, targets[0])
      + Seen(blockers, station, targets[1])
      + Seen(blockers, station, targets[2])
      + Seen(blockers, station, targets[3])
      + Seen(blockers, station, targets[4])
      + Seen(blockers, station, targets[5])
      + Seen(blockers, station, targets[6])
      + Seen(blockers, station, targets[7])
      + Seen(blockers, station, targets[8])
      + Seen(blockers, station, targets[9])
  {
    assert targets[..1] == targets[..0] + [targets[0]];
    CountOneMore(targets[..0], targets[0], blockers, station);
    assert targets[..2] == targets[..1] + [targets[1]];
    CountOneMore(targets[..1], targets[1], blockers, station);
    assert targets[..3] == targets[..2] + [targets[2]];
    CountOneMore(targets[..2], targets[2], blockers, station);
    assert targets[..4] == targets[..3] + [targets[3]];
    CountOneMore(targets[..3], targets[3], blockers, station);
    assert targets[..5] == targets[..4] + [targets[4]];
    CountOneMore(targets[..4], targets[4], blockers, station);
    assert targets[..6] == targets[..5] + [targets[5]];
    CountOneMore(targets[..5], targets[5], blockers, station);
    assert targets[..7] == targets[..6] + [targets[6]];
    CountOneMore(targets[..6], targets[6], blockers, station);
    assert targets[..8] == targets[..7] + [targets[7]];
    CountOneMore(targets[..7], targets[7], blockers, station);
    assert targets[..9] == targets[..8] + [targets[8]];
    CountOneMore(targets[..8], targets[8], blockers, station);
    assert targets[..10] == targets[..9] + [targets[9]];
    CountOneMore(targets[..9], targets[9], blockers, station);
    assert targets[..10] == targets;
  }

  /** Nine of the ten asteroids count from (3, 4), the station among them. */
  lemma SampleStationScore()
    ensures Score(SampleAsteroids(), Point(3, 4)) == 9
  {
    var a := SampleAsteroids();
    assert a[0] == Point(1, 0) && a[1] == Point(4, 0) && a[2] == Point(0, 2) && a[3] == Point(1, 2);
    assert a[4] == Point(2, 2) && a[5] == Point(3, 2) && a[6] == Point(4, 2) && a[7] == Point(4, 3);
    assert a[8] == Point(3, 4) && a[9] == Point(4, 4);
    HiddenFromStation();
    SeenAbove();
    SeenBeside();
    TallyTen(a, a, Point(3, 4));
  }

  /** `set_map` on the sample gives a five by five field, which
      `get_asteroids` lists in full. */
  lemma SampleListed()
    ensures |SampleMap()| == 5 && |Row(SampleMap()[0])| == 5
    ensures Scan(Rows(SampleMap()), |SampleMap()|, |Row(SampleMap()[0])|, 0, 0) == Some(SampleAsteroids())
  {
    SampleRows();
    SampleScan();
  }

  /** `get_visibility_score` on the sample field gives nine at (3, 4). */
  lemma SampleVisibilityScore()
    ensures VisibilityScore(Rows(SampleMap()), 5, 5, Point(3, 4)) == Some(9)
  {
    SampleListed();
    SampleStationScore();
  }

  /** The test expects the best station to be (3, 4) with a score of eight.
      As written, the field built from the sample map gives no such pair. */
  lemma SampleTestFails()
    ensures var listed := Scan(Rows(SampleMap()), |SampleMap()|, |Row(SampleMap()[0])|, 0, 0);
      listed.Some?
      && !(BestScore(listed.value) == Some(8) && BestCandidate(listed.value) == Some(Point(3, 4)))
  {
    SampleListed();
    SampleStationScore();
    BestCandidateMeaning(SampleAsteroids());
  }
}
