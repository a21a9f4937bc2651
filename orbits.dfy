/** Day 6: the orbit map. Each line "A)B" says that B orbits A, so the
    map sends every orbiting body to the body it orbits. Part 1 counts the
    direct and indirect orbits, part 2 the orbital transfers between the
    bodies two objects orbit. */
module Orbits {
  import opened Common

  type OrbitMap = map<string, string>

  // ---------------------------------------------------------------------
  // Reading the map: `line.strip().split(")")`, then `orbits[B] = A`.

  /** One line: the orbited body and the orbiting one. A line without ')'
      has a single component, so `components[1]` raises (None); pieces
      after a second ')' are ignored. */
  function ParseOrbit(line: string): (r: Option<(string, string)>)
    ensures r.Some? <==> ')' in Strip(line)
  {
    var components := Split(Strip(line), ')');
    SplitCount(Strip(line), ')');
    if |components| < 2 then None else Some((components[1], components[0]))
  }

  /** `readInput` on the lines of a file, processed in order; the first
      line that raises ends it. */
  function ParseOrbits(lines: seq<string>): Option<OrbitMap>
    decreases |lines|
  {
    if |lines| == 0 then Some(map[])
    else
      var orbits :- ParseOrbits(lines[..|lines| - 1]);
      var entry :- ParseOrbit(lines[|lines| - 1]);
      Some(orbits[entry.0 := entry.1])
  }

  method ReadOrbits(lines: seq<string>) returns (orbits: Option<OrbitMap>)
    ensures orbits == ParseOrbits(lines)
  {
    var m: OrbitMap := map[];
    for i := 0 to |lines|
      invariant ParseOrbits(lines[..i]) == Some(m)
    {
      assert lines[..i + 1][..i] == lines[..i];
      var entry := ParseOrbit(lines[i]);
      if entry.None? {
        ParseOrbitsFails(lines, i + 1);
        return None;
      }
      m := m[entry.value.0 := entry.value.1];
    }
    assert lines[..|lines|] == lines;
    orbits := Some(m);
  }

  /** A bad line makes every longer prefix fail. */
  lemma {:induction false} ParseOrbitsFails(lines: seq<string>, n: nat)
    requires 0 < n <= |lines| && ParseOrbit(lines[n - 1]).None?
    ensures ParseOrbits(lines[..n]) == None
    ensures ParseOrbits(lines) == None
    decreases |lines|
  {
    assert lines[..n][..n - 1] == lines[..n - 1];
    if n < |lines| {
      ParseOrbitsFails(lines[..|lines| - 1], n);
      assert lines[..|lines| - 1][..n] == lines[..n];
    } else {
      assert lines[..n] == lines;
    }
  }

  /** "A)B" with clean names reads as B orbiting A. */
  lemma ParseOrbitLine(a: string, b: string)
    requires ')' !in a && ')' !in b
    requires |a| > 0 ==> !IsSpace(a[0])
    requires |b| > 0 ==> !IsSpace(b[|b| - 1])
    ensures ParseOrbit(a + ")" + b) == Some((b, a))
  {
    var line := a + ")" + b;
    StripClean(line);
    SplitPair(a, b, ')');
  }

  /** The line that put an entry in the map. */
  predicate Names(line: string, body: string) {
    ParseOrbit(line).Some? && ParseOrbit(line).value.0 == body
  }

  /** A map is read exactly when every line parses. */
  lemma {:induction false} ParseOrbitsSucceeds(lines: seq<string>)
    ensures ParseOrbits(lines).Some? <==> forall i :: 0 <= i < |lines| ==> ParseOrbit(lines[i]).Some?
    decreases |lines|
  {
    if |lines| > 0 {
      var n := |lines| - 1;
      var front := lines[..n];
      ParseOrbitsSucceeds(front);
      assert forall i :: 0 <= i < n ==> front[i] == lines[i];
    }
  }

  /** Some line names `body`. */
  predicate NamedIn(lines: seq<string>, body: string) {
    exists i :: 0 <= i < |lines| && Names(lines[i], body)
  }

  lemma NamedInExtend(lines: seq<string>, body: string)
    requires |lines| > 0
    ensures NamedIn(lines, body) <==> NamedIn(lines[..|lines| - 1], body) || Names(lines[|lines| - 1], body)
  {
    var front := lines[..|lines| - 1];
    if NamedIn(lines, body) && !Names(lines[|lines| - 1], body) {
      var i :| 0 <= i < |lines| && Names(lines[i], body);
      assert Names(front[i], body);
    }
    if NamedIn(front, body) {
      var i :| 0 <= i < |front| && Names(front[i], body);
      assert Names(lines[i], body);
    }
  }

  /** The orbiting bodies of the map are those its lines name. */
  lemma {:induction false} ParseOrbitsKeys(lines: seq<string>)
    requires ParseOrbits(lines).Some?
    ensures forall body :: body in ParseOrbits(lines).value <==> NamedIn(lines, body)
    decreases |lines|
  {
    if |lines| > 0 {
      var n := |lines| - 1;
      var front := lines[..n];
      ParseOrbitsKeys(front);
      var orbits := ParseOrbits(lines).value;
      var entry := ParseOrbit(lines[n]).value;
      assert orbits == ParseOrbits(front).value[entry.0 := entry.1];
      forall body
        ensures body in orbits <==> NamedIn(lines, body)
      {
        NamedInExtend(lines, body);
      }
    }
  }

  /** Line i reads as `body` orbiting `parent`, and no later line names `body`. */
  predicate LastNames(lines: seq<string>, i: int, body: string, parent: string) {
    0 <= i < |lines| && ParseOrbit(lines[i]) == Some((body, parent))
    && forall j :: i < j < |lines| ==> !Names(lines[j], body)
  }

  lemma LastNamesExtend(lines: seq<string>, i: int, body: string, parent: string)
    requires |lines| > 0 && LastNames(lines[..|lines| - 1], i, body, parent)
    requires !Names(lines[|lines| - 1], body)
    ensures LastNames(lines, i, body, parent)
  {
    var front := lines[..|lines| - 1];
    forall j | i < j < |lines|
      ensures !Names(lines[j], body)
    {
      if j < |lines| - 1 {
        assert lines[j] == front[j];
      }
    }
  }

  /** Each entry comes from the last line naming its body. */
  lemma {:induction false} ParseOrbitsLastWins(lines: seq<string>)
    requires ParseOrbits(lines).Some?
    ensures var orbits := ParseOrbits(lines).value;
      forall body :: body in orbits ==> exists i :: LastNames(lines, i, body, orbits[body])
    decreases |lines|
  {
    if |lines| > 0 {
      var n := |lines| - 1;
      var front := lines[..n];
      ParseOrbitsLastWins(front);
      var previous := ParseOrbits(front).value;
      var orbits := ParseOrbits(lines).value;
      var entry := ParseOrbit(lines[n]).value;
      assert orbits == previous[entry.0 := entry.1];
      forall body | body in orbits
        ensures exists i :: LastNames(lines, i, body, orbits[body])
      {
        if body == entry.0 {
          assert LastNames(lines, n, body, orbits[body]);
        } else {
          var i :| LastNames(front, i, body, previous[body]);
          LastNamesExtend(lines, i, body, previous[body]);
        }
      }
    }
  }

  // ---------------------------------------------------------------------
  // Walking towards the centre. `while x in orbits: x = orbits[x]` ends
  // only if the walk leaves the map's keys; a walk that stays among them
  // for |orbits| links has revisited a key and goes round for ever, so
  // |orbits| links is the budget that decides it.

  /** The first `fuel` bodies the walk from `body` passes, nearest first. */
  function Ancestors(orbits: OrbitMap, body: string, fuel: nat): (path: seq<string>)
    ensures |path| <= fuel
    decreases fuel
  {
    if fuel == 0 || body !in orbits then [] else [orbits[body]] + Ancestors(orbits, orbits[body], fuel - 1)
  }

  /** Where the walk from `body` is after `fuel` links. */
  function Walk(orbits: OrbitMap, body: string, fuel: nat): string
    decreases fuel
  {
    if fuel == 0 || body !in orbits then body else Walk(orbits, orbits[body], fuel - 1)
  }

  /** The walk from `body` reaches a body that orbits nothing within n links. */
  predicate Reaches(orbits: OrbitMap, body: string, n: nat) {
    Walk(orbits, body, n) !in orbits
  }

  /** The source's `while` loop from `body` ends. */
  predicate Settles(orbits: OrbitMap, body: string) {
    Reaches(orbits, body, |orbits|)
  }

  /** The map has no cycles: every walk ends. */
  predicate Acyclic(orbits: OrbitMap) {
    forall body :: body in orbits ==> Settles(orbits, body)
  }

  /** `getOrbitsForSingleBody`: every body `body` orbits directly or
      indirectly, nearest first. */
  function OrbitsOf(orbits: OrbitMap, body: string): seq<string> {
    Ancestors(orbits, body, |orbits|)
  }

  /** The number of direct and indirect orbits of `body`. */
  function Depth(orbits: OrbitMap, body: string): nat {
    |OrbitsOf(orbits, body)|
  }

  /** A walk of m + n links is a walk of m links and then one of n. */
  lemma {:induction false} WalkSplit(orbits: OrbitMap, body: string, m: nat, n: nat)
    ensures Walk(orbits, body, m + n) == Walk(orbits, Walk(orbits, body, m), n)
    ensures Ancestors(orbits, body, m + n) == Ancestors(orbits, body, m) + Ancestors(orbits, Walk(orbits, body, m), n)
    decreases m
  {
    if m > 0 && body in orbits {
      WalkSplit(orbits, orbits[body], m - 1, n);
      assert m + n - 1 == (m - 1) + n;
    } else if m == 0 {
      assert Ancestors(orbits, body, 0) + Ancestors(orbits, body, n) == Ancestors(orbits, body, n);
    } else {
      assert Walk(orbits, body, n) == body;
    }
  }

  /** Once the walk has stopped, more links change nothing. */
  lemma {:induction false} WalkStopped(orbits: OrbitMap, body: string, n: nat, m: nat)
    requires n <= m && Reaches(orbits, body, n)
    ensures Reaches(orbits, body, m)
    ensures Walk(orbits, body, m) == Walk(orbits, body, n)
    ensures Ancestors(orbits, body, m) == Ancestors(orbits, body, n)
  {
    WalkSplit(orbits, body, n, m - n);
    var end := Walk(orbits, body, n);
    assert Ancestors(orbits, end, m - n) == [];
    assert m == n + (m - n);
  }

  /** A body that orbits something settles one link after what it orbits. */
  lemma ReachesStep(orbits: OrbitMap, body: string, n: nat)
    requires body in orbits && Reaches(orbits, orbits[body], n)
    ensures Reaches(orbits, body, n + 1)
  {
  }

  /** A settled walk's path is the body's orbited body followed by that
      body's path; a body orbiting nothing has an empty path. */
  lemma OrbitsOfStep(orbits: OrbitMap, body: string)
    requires Settles(orbits, body)
    ensures body !in orbits ==> OrbitsOf(orbits, body) == []
    ensures body in orbits ==>
      Settles(orbits, orbits[body])
      && OrbitsOf(orbits, body) == [orbits[body]] + OrbitsOf(orbits, orbits[body])
      && Depth(orbits, body) == 1 + Depth(orbits, orbits[body])
  {
    var n := |orbits|;
    if body in orbits {
      var next := orbits[body];
      assert Walk(orbits, body, n) == Walk(orbits, next, n - 1);
      WalkStopped(orbits, next, n - 1, n);
    }
  }

  /** Each body on the path orbits the one after it. */
  predicate Linked(orbits: OrbitMap, path: seq<string>) {
    forall i :: 0 <= i < |path| - 1 ==> path[i] in orbits && orbits[path[i]] == path[i + 1]
  }

  /** Every body's path: it starts at the body it orbits, each body on it
      is orbited by the one before it, and the last orbits nothing. */
  lemma {:induction false} OrbitsOfChain(orbits: OrbitMap, body: string)
    requires Settles(orbits, body)
    ensures var path := OrbitsOf(orbits, body);
      (|path| == 0 <==> body !in orbits)
      && (|path| > 0 ==> path[0] == orbits[body] && path[|path| - 1] !in orbits)
      && Linked(orbits, path)
    decreases Depth(orbits, body)
  {
    OrbitsOfStep(orbits, body);
    if body in orbits {
      var next := orbits[body];
      OrbitsOfChain(orbits, next);
      var path := OrbitsOf(orbits, body);
      var rest := OrbitsOf(orbits, next);
      if |rest| == 0 {
        assert path == [next];
      } else {
        assert path[|path| - 1] == rest[|rest| - 1];
      }
      forall i | 0 <= i < |path| - 1
        ensures path[i] in orbits && orbits[path[i]] == path[i + 1]
      {
        if i > 0 {
          assert path[i] == rest[i - 1] && path[i + 1] == rest[i];
        }
      }
    }
  }

  /** A settled walk has at most |orbits| links. */
  lemma DepthBound(orbits: OrbitMap, body: string)
    ensures Depth(orbits, body) <= |orbits|
    ensures body in orbits ==> Depth(orbits, body) >= 1
  {
  }

  /** `getOrbitsForSingleBody`, the loop. It ends when the walk does. */
  method OrbitsForSingleBody(orbits: OrbitMap, body: string) returns (path: seq<string>)
    requires Settles(orbits, body)
    ensures path == OrbitsOf(orbits, body)
  {
    var n := |orbits|;
    var x := body;
    path := [];
    ghost var j := 0;
    while x in orbits
      invariant j <= n && x == Walk(orbits, body, j) && path == Ancestors(orbits, body, j)
      invariant Reaches(orbits, x, n - j)
      decreases n - j
    {
      WalkSplit(orbits, body, j, 1);
      path := path + [orbits[x]];
      x := orbits[x];
      j := j + 1;
    }
    WalkSplit(orbits, body, j, n - j);
  }

  // ---------------------------------------------------------------------
  // Part 1: `runOrbitProgram`, the depths summed over the keys.

  /** The depths of the given bodies, summed; the order of a set's
      elements does not matter (DepthSumRemove). */
  ghost function DepthSum(orbits: OrbitMap, bodies: set<string>): nat
    decreases bodies
  {
    if bodies == {} then 0
    else
      var body :| body in bodies;
      Depth(orbits, body) + DepthSum(orbits, bodies - {body})
  }

  /** The total number of direct and indirect orbits. */
  ghost function TotalOrbits(orbits: OrbitMap): nat {
    DepthSum(orbits, orbits.Keys)
  }

  /** Any body can be taken out of the sum first. */
  lemma {:induction false} DepthSumRemove(orbits: OrbitMap, bodies: set<string>, body: string)
    requires body in bodies
    ensures DepthSum(orbits, bodies) == Depth(orbits, body) + DepthSum(orbits, bodies - {body})
    decreases bodies
  {
    var first :| first in bodies && DepthSum(orbits, bodies) == Depth(orbits, first) + DepthSum(orbits, bodies - {first});
    if first != body {
      DepthSumRemove(orbits, bodies - {first}, body);
      DepthSumRemove(orbits, bodies - {body}, first);
      assert bodies - {first} - {body} == bodies - {body} - {first};
    }
  }

  /** Every key contributes between one and |orbits| orbits. */
  lemma {:induction false} DepthSumBounds(orbits: OrbitMap, bodies: set<string>)
    requires bodies <= orbits.Keys
    ensures |bodies| <= DepthSum(orbits, bodies) <= |bodies| * |orbits|
    decreases bodies
  {
    if bodies != {} {
      var body :| body in bodies && DepthSum(orbits, bodies) == Depth(orbits, body) + DepthSum(orbits, bodies - {body});
      DepthBound(orbits, body);
      var rest := bodies - {body};
      DepthSumBounds(orbits, rest);
      assert |rest| == |bodies| - 1;
      MultiplyStep(|rest|, |orbits|);
    }
  }

  lemma MultiplyStep(k: nat, n: nat)
    ensures (k + 1) * n == k * n + n
  {
  }

  /** The total is at least the number of orbiting bodies. */
  lemma TotalOrbitsBounds(orbits: OrbitMap)
    ensures |orbits| <= TotalOrbits(orbits) <= |orbits| * |orbits|
  {
    DepthSumBounds(orbits, orbits.Keys);
  }

  /** The depths along a list of distinct bodies, summed. */
  function ListDepthSum(orbits: OrbitMap, bodies: seq<string>): nat
    decreases |bodies|
  {
    if |bodies| == 0 then 0 else Depth(orbits, bodies[0]) + ListDepthSum(orbits, bodies[1..])
  }

  /** Summing over a duplicate-free listing of a set is summing over the set. */
  lemma {:induction false} ListDepthSumIsDepthSum(orbits: OrbitMap, bodies: seq<string>)
    requires forall i, j :: 0 <= i < j < |bodies| ==> bodies[i] != bodies[j]
    ensures ListDepthSum(orbits, bodies) == DepthSum(orbits, set b | b in bodies)
    decreases |bodies|
  {
    var all := set b | b in bodies;
    if |bodies| == 0 {
      assert all == {};
    } else {
      var rest := bodies[1..];
      ListDepthSumIsDepthSum(orbits, rest);
      DepthSumRemove(orbits, all, bodies[0]);
      assert all - {bodies[0]} == set b | b in rest by {
        forall b | b in rest
          ensures b != bodies[0]
        {
          var k :| 0 <= k < |rest| && rest[k] == b;
          assert bodies[k + 1] == b;
        }
      }
    }
  }

  /** `runOrbitProgram`: for each key, count the links until the walk ends. */
  method RunOrbitProgram(orbits: OrbitMap) returns (total: nat)
    requires Acyclic(orbits)
    ensures total == TotalOrbits(orbits)
  {
    total := 0;
    var remaining := orbits.Keys;
    while remaining != {}
      invariant remaining <= orbits.Keys
      invariant total + DepthSum(orbits, remaining) == TotalOrbits(orbits)
      decreases remaining
    {
      var body :| body in remaining;
      DepthSumRemove(orbits, remaining, body);
      var count := ChainLength(orbits, body);
      total := total + count;
      remaining := remaining - {body};
    }
  }

  /** The inner `while` of `runOrbitProgram`: one count per link. */
  method ChainLength(orbits: OrbitMap, body: string) returns (count: nat)
    requires Settles(orbits, body)
    ensures count == Depth(orbits, body)
  {
    var n := |orbits|;
    var x := body;
    count := 0;
    while x in orbits
      invariant count <= n && x == Walk(orbits, body, count) && count == |Ancestors(orbits, body, count)|
      invariant Reaches(orbits, x, n - count)
      decreases n - count
    {
      WalkSplit(orbits, body, count, 1);
      count := count + 1;
      x := orbits[x];
    }
    WalkSplit(orbits, body, count, n - count);
  }

  // ---------------------------------------------------------------------
  // Part 2: `getTransferPath`.

  /** The position in `path1` of its first body that is also in `path2`. */
  function FirstShared(path1: seq<string>, path2: seq<string>): (r: Option<nat>)
    ensures r.None? <==> forall k :: 0 <= k < |path1| ==> path1[k] !in path2
    ensures r.Some? ==>
      r.value < |path1| && path1[r.value] in path2
      && forall k :: 0 <= k < r.value ==> path1[k] !in path2
    decreases |path1|
  {
    if |path1| == 0 then None
    else if path1[0] in path2 then Some(0)
    else
      match FirstShared(path1[1..], path2)
      case None => None
      case Some(i) => Some(i + 1)
  }

  /** The transfer count between two paths: the index of their first shared
      body in each, added. */
  function Transfers(path1: seq<string>, path2: seq<string>): Option<nat> {
    var i :- FirstShared(path1, path2);
    Some(IndexOf(path1, path1[i]) + IndexOf(path2, path1[i]))
  }

  /** The loop of `getTransferPath` over `path1`. */
  method TransferCount(path1: seq<string>, path2: seq<string>) returns (r: Option<nat>)
    ensures r == Transfers(path1, path2)
  {
    for i := 0 to |path1|
      invariant forall k :: 0 <= k < i ==> path1[k] !in path2
    {
      var body := path1[i];
      if body in path2 {
        return Some(IndexOf(path1, body) + IndexOf(path2, body));
      }
    }
    return None;
  }

  /** `getTransferPath`. */
  method TransferPath(orbits: OrbitMap, body1: string, body2: string) returns (r: Option<nat>)
    requires Settles(orbits, body1) && Settles(orbits, body2)
    ensures r == Transfers(OrbitsOf(orbits, body1), OrbitsOf(orbits, body2))
  {
    var path1 := OrbitsForSingleBody(orbits, body1);
    var path2 := OrbitsForSingleBody(orbits, body2);
    r := TransferCount(path1, path2);
  }

  /** There is no transfer count exactly when the paths share no body;
      otherwise it is i + j for the first body of `path1` found in `path2`,
      at position i of `path1` and first seen at position j of `path2`. */
  lemma TransfersMeaning(path1: seq<string>, path2: seq<string>)
    ensures Transfers(path1, path2).None? <==> forall k :: 0 <= k < |path1| ==> path1[k] !in path2
    ensures Transfers(path1, path2).Some? ==>
      exists i, j :: 0 <= i < |path1| && 0 <= j < |path2| && path1[i] == path2[j]
        && Transfers(path1, path2).value == i + j
        && (forall k :: 0 <= k < i ==> path1[k] !in path2)
        && (forall k :: 0 <= k < j ==> path2[k] != path1[i])
  {
    var first := FirstShared(path1, path2);
    if first.Some? {
      var i := first.value;
      var j := IndexOf(path2, path1[i]);
      assert IndexOf(path1, path1[i]) == i;
      assert path1[i] == path2[j];
    }
  }
}
