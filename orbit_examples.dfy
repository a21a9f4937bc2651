/** The samples of day 6: the eleven-link map has 42 orbits, and with YOU
    and SAN added it takes 4 transfers from the body YOU orbits to the one
    SAN orbits. */
module OrbitExamples {
  import opened Common
  import opened Orbits

  function CountingMap(): OrbitMap {
    map["B" := "COM", "C" := "B", "D" := "C", "E" := "D", "F" := "E", "G" := "B", "H" := "G", "I" := "D", "J" := "E", "K" := "J", "L" := "K"]
  }

  function TransferMap(): OrbitMap {
    map["B" := "COM", "C" := "B", "D" := "C", "E" := "D", "F" := "E", "G" := "B", "H" := "G", "I" := "D", "J" := "E", "K" := "J", "L" := "K", "YOU" := "K", "SAN" := "I"]
  }

  /** The links of the first sample, in a map with room for them all. */
  predicate HasSampleLinks(orbits: OrbitMap) {
    SampleLookups(orbits) && |orbits| >= 11
  }

  predicate SampleLookups(orbits: OrbitMap) {
    "COM" !in orbits
      && "B" in orbits && orbits["B"] == "COM"
      && "C" in orbits && orbits["C"] == "B"
      && "D" in orbits && orbits["D"] == "C"
      && "E" in orbits && orbits["E"] == "D"
      && "F" in orbits && orbits["F"] == "E"
      && "G" in orbits && orbits["G"] == "B"
      && "H" in orbits && orbits["H"] == "G"
      && "I" in orbits && orbits["I"] == "D"
      && "J" in orbits && orbits["J"] == "E"
      && "K" in orbits && orbits["K"] == "J"
      && "L" in orbits && orbits["L"] == "K"
  }

  /** Names listed in increasing order of their first letters. */
  predicate Ordered(bodies: seq<string>) {
    (forall i :: 0 <= i < |bodies| ==> |bodies[i]| > 0)
    && forall i :: 0 < i < |bodies| ==> bodies[i - 1][0] < bodies[i][0]
  }

  /** Such a list has no repeats. */
  lemma {:induction false} OrderedDistinct(bodies: seq<string>)
    requires Ordered(bodies)
    ensures forall i, j :: 0 <= i < j < |bodies| ==> bodies[i][0] < bodies[j][0]
    decreases |bodies|
  {
    if |bodies| > 1 {
      var rest := bodies[1..];
      assert Ordered(rest) by {
        forall i | 0 < i < |rest|
          ensures rest[i - 1][0] < rest[i][0]
        {
          assert rest[i - 1] == bodies[i] && rest[i] == bodies[i + 1];
        }
      }
      OrderedDistinct(rest);
      forall i, j | 0 <= i < j < |bodies|
        ensures bodies[i][0] < bodies[j][0]
      {
        if i > 0 {
          assert bodies[i] == rest[i - 1] && bodies[j] == rest[j - 1];
        } else if j > 1 {
          assert bodies[1] == rest[0] && bodies[j] == rest[j - 1];
        }
      }
    }
  }

  /** A list without repeats has as many elements as its set. */
  lemma {:induction false} DistinctCount(bodies: seq<string>)
    requires forall i, j :: 0 <= i < j < |bodies| ==> bodies[i] != bodies[j]
    ensures |set b | b in bodies| == |bodies|
    decreases |bodies|
  {
    if |bodies| > 0 {
      var rest := bodies[1..];
      DistinctCount(rest);
      assert (set b | b in bodies) == {bodies[0]} + (set b | b in rest);
      assert bodies[0] !in rest by {
        forall k | 0 <= k < |rest|
          ensures rest[k] != bodies[0]
        {
          assert rest[k] == bodies[k + 1];
        }
      }
    }
  }

  /** A body orbiting `parent` is one deeper than it. */
  lemma Parent(orbits: OrbitMap, body: string, parent: string, d: nat)
    requires body in orbits && orbits[body] == parent && d < |orbits|
    requires Reaches(orbits, parent, d) && Depth(orbits, parent) == d
    ensures Reaches(orbits, body, d + 1) && Depth(orbits, body) == d + 1
    ensures OrbitsOf(orbits, body) == [parent] + OrbitsOf(orbits, parent)
  {
    ReachesStep(orbits, body, d);
    WalkStopped(orbits, body, d + 1, |orbits|);
    OrbitsOfStep(orbits, body);
  }

  lemma Com(orbits: OrbitMap)
    requires "COM" !in orbits
    ensures Reaches(orbits, "COM", 0) && Depth(orbits, "COM") == 0 && OrbitsOf(orbits, "COM") == []
  {
  }

  lemma LinkB(orbits: OrbitMap)
    requires HasSampleLinks(orbits)
    ensures Reaches(orbits, "B", 1) && Depth(orbits, "B") == 1
    ensures OrbitsOf(orbits, "B") == ["COM"] && Settles(orbits, "B")
  {
    Com(orbits);
    Parent(orbits, "B", "COM", 0);
    WalkStopped(orbits, "B", 1, |orbits|);
  }

  lemma LinkC(orbits: OrbitMap)
    requires HasSampleLinks(orbits)
    ensures Reaches(orbits, "C", 2) && Depth(orbits, "C") == 2
    ensures OrbitsOf(orbits, "C") == ["B", "COM"] && Settles(orbits, "C")
  {
    LinkB(orbits);
    Parent(orbits, "C", "B", 1);
    WalkStopped(orbits, "C", 2, |orbits|);
  }

  lemma LinkD(orbits: OrbitMap)
    requires HasSampleLinks(orbits)
    ensures Reaches(orbits, "D", 3) && Depth(orbits, "D") == 3
    ensures OrbitsOf(orbits, "D") == ["C", "B", "COM"] && Settles(orbits, "D")
  {
    LinkC(orbits);
    Parent(orbits, "D", "C", 2);
    WalkStopped(orbits, "D", 3, |orbits|);
  }

  lemma LinkE(orbits: OrbitMap)
    requires HasSampleLinks(orbits)
    ensures Reaches(orbits, "E", 4) && Depth(orbits, "E") == 4
    ensures OrbitsOf(orbits, "E") == ["D", "C", "B", "COM"] && Settles(orbits, "E")
  {
    LinkD(orbits);
    Parent(orbits, "E", "D", 3);
    WalkStopped(orbits, "E", 4, |orbits|);
  }

  lemma LinkF(orbits: OrbitMap)
    requires HasSampleLinks(orbits)
    ensures Reaches(orbits, "F", 5) && Depth(orbits, "F") == 5
    ensures OrbitsOf(orbits, "F") == ["E", "D", "C", "B", "COM"] && Settles(orbits, "F")
  {
    LinkE(orbits);
    Parent(orbits, "F", "E", 4);
    WalkStopped(orbits, "F", 5, |orbits|);
  }

  lemma LinkG(orbits: OrbitMap)
    requires HasSampleLinks(orbits)
    ensures Reaches(orbits, "G", 2) && Depth(orbits, "G") == 2
    ensures OrbitsOf(orbits, "G") == ["B", "COM"] && Settles(orbits, "G")
  {
    LinkB(orbits);
    Parent(orbits, "G", "B", 1);
    WalkStopped(orbits, "G", 2, |orbits|);
  }

  lemma LinkH(orbits: OrbitMap)
    requires HasSampleLinks(orbits)
    ensures Reaches(orbits, "H", 3) && Depth(orbits, "H") == 3
    ensures OrbitsOf(orbits, "H") == ["G", "B", "COM"] && Settles(orbits, "H")
  {
    LinkG(orbits);
    Parent(orbits, "H", "G", 2);
    WalkStopped(orbits, "H", 3, |orbits|);
  }

  lemma LinkI(orbits: OrbitMap)
    requires HasSampleLinks(orbits)
    ensures Reaches(orbits, "I", 4) && Depth(orbits, "I") == 4
    ensures OrbitsOf(orbits, "I") == ["D", "C", "B", "COM"] && Settles(orbits, "I")
  {
    LinkD(orbits);
    Parent(orbits, "I", "D", 3);
    WalkStopped(orbits, "I", 4, |orbits|);
  }

  lemma LinkJ(orbits: OrbitMap)
    requires HasSampleLinks(orbits)
    ensures Reaches(orbits, "J", 5) && Depth(orbits, "J") == 5
    ensures OrbitsOf(orbits, "J") == ["E", "D", "C", "B", "COM"] && Settles(orbits, "J")
  {
    LinkE(orbits);
    Parent(orbits, "J", "E", 4);
    WalkStopped(orbits, "J", 5, |orbits|);
  }

  lemma LinkK(orbits: OrbitMap)
    requires HasSampleLinks(orbits)
    ensures Reaches(orbits, "K", 6) && Depth(orbits, "K") == 6
    ensures OrbitsOf(orbits, "K") == ["J", "E", "D", "C", "B", "COM"] && Settles(orbits, "K")
  {
    LinkJ(orbits);
    Parent(orbits, "K", "J", 5);
    WalkStopped(orbits, "K", 6, |orbits|);
  }

  lemma LinkL(orbits: OrbitMap)
    requires HasSampleLinks(orbits)
    ensures Reaches(orbits, "L", 7) && Depth(orbits, "L") == 7
    ensures OrbitsOf(orbits, "L") == ["K", "J", "E", "D", "C", "B", "COM"] && Settles(orbits, "L")
  {
    LinkK(orbits);
    Parent(orbits, "L", "K", 6);
    WalkStopped(orbits, "L", 7, |orbits|);
  }

  lemma CountingMapKeys()
    ensures CountingMap().Keys == {"B", "C", "D", "E", "F", "G", "H", "I", "J", "K", "L"}
  {
  }

  lemma CountingKeysSize()
    ensures |{"B", "C", "D", "E", "F", "G", "H", "I", "J", "K", "L"}| == 11
  {
  }

  lemma TransferMapKeys()
    ensures TransferMap().Keys == {"B", "C", "D", "E", "F", "G", "H", "I", "J", "K", "L", "YOU", "SAN"}
  {
  }

  lemma TransferKeysSize()
    ensures |{"B", "C", "D", "E", "F", "G", "H", "I", "J", "K", "L", "YOU", "SAN"}| == 13
  {
  }

  lemma CountingMapSize()
    ensures |CountingMap()| == 11
  {
    CountingMapKeys();
    CountingKeysSize();
  }

  lemma CountingMapLookups()
    ensures SampleLookups(CountingMap())
  {
  }

  lemma CountingMapLinks()
    ensures HasSampleLinks(CountingMap())
  {
    CountingMapLookups();
    CountingMapSize();
  }

  lemma TransferMapSize()
    ensures |TransferMap()| == 13
  {
    TransferMapKeys();
    TransferKeysSize();
  }

  lemma TransferMapLookups()
    ensures SampleLookups(TransferMap())
    ensures "YOU" in TransferMap() && TransferMap()["YOU"] == "K"
    ensures "SAN" in TransferMap() && TransferMap()["SAN"] == "I"
  {
  }

  lemma TransferMapLinks()
    ensures HasSampleLinks(TransferMap())
    ensures "YOU" in TransferMap() && TransferMap()["YOU"] == "K"
    ensures "SAN" in TransferMap() && TransferMap()["SAN"] == "I"
  {
    TransferMapLookups();
    TransferMapSize();
  }

  /** The listed keys, without repeats. */
  lemma CountingKeys()
    ensures var bodies := ["B", "C", "D", "E", "F", "G", "H", "I", "J", "K", "L"];
      (forall i, j :: 0 <= i < j < |bodies| ==> bodies[i] != bodies[j])
      && (set b | b in bodies) == CountingMap().Keys
  {
    var bodies := ["B", "C", "D", "E", "F", "G", "H", "I", "J", "K", "L"];
    OrderedDistinct(bodies);
    CountingMapKeys();
  }

  lemma CountingDepths()
    ensures ListDepthSum(CountingMap(), ["B", "C", "D", "E", "F", "G", "H", "I", "J", "K", "L"]) == 42
  {
    var orbits := CountingMap();
    CountingMapLinks();
    LinkB(orbits);
    LinkC(orbits);
    LinkD(orbits);
    LinkE(orbits);
    LinkF(orbits);
    LinkG(orbits);
    LinkH(orbits);
    LinkI(orbits);
    LinkJ(orbits);
    LinkK(orbits);
    LinkL(orbits);
  }

  lemma CountingAcyclic()
    ensures Acyclic(CountingMap())
  {
    var orbits := CountingMap();
    CountingMapLinks();
    LinkB(orbits);
    LinkC(orbits);
    LinkD(orbits);
    LinkE(orbits);
    LinkF(orbits);
    LinkG(orbits);
    LinkH(orbits);
    LinkI(orbits);
    LinkJ(orbits);
    LinkK(orbits);
    LinkL(orbits);
    forall body | body in orbits
      ensures Settles(orbits, body)
    {
      assert body in {"B", "C", "D", "E", "F", "G", "H", "I", "J", "K", "L"};
    }
  }

  /** The sample of part 1: 42 direct and indirect orbits. */
  lemma CountingSample()
    ensures Acyclic(CountingMap()) && TotalOrbits(CountingMap()) == 42
  {
    CountingAcyclic();
    CountingKeys();
    ListDepthSumIsDepthSum(CountingMap(), ["B", "C", "D", "E", "F", "G", "H", "I", "J", "K", "L"]);
    CountingDepths();
  }

  lemma TransferPaths()
    ensures Settles(TransferMap(), "YOU") && Settles(TransferMap(), "SAN")
    ensures OrbitsOf(TransferMap(), "YOU") == ["K", "J", "E", "D", "C", "B", "COM"]
    ensures OrbitsOf(TransferMap(), "SAN") == ["I", "D", "C", "B", "COM"]
  {
    var orbits := TransferMap();
    TransferMapLinks();
    LinkK(orbits);
    LinkI(orbits);
    Parent(orbits, "YOU", "K", 6);
    Parent(orbits, "SAN", "I", 4);
    TransferMapSize();
    WalkStopped(orbits, "YOU", 7, |orbits|);
    WalkStopped(orbits, "SAN", 5, |orbits|);
  }

  lemma FirstSharedSample()
    ensures FirstShared(["K", "J", "E", "D", "C", "B", "COM"], ["I", "D", "C", "B", "COM"]) == Some(3)
  {
    var path1 := ["K", "J", "E", "D", "C", "B", "COM"];
    var path2 := ["I", "D", "C", "B", "COM"];
    assert path1[3] == path2[1];
    assert path1[0] !in path2 && path1[1] !in path2 && path1[2] !in path2;
  }

  lemma IndexSample()
    ensures "D" in ["K", "J", "E", "D", "C", "B", "COM"] && IndexOf(["K", "J", "E", "D", "C", "B", "COM"], "D") == 3
    ensures "D" in ["I", "D", "C", "B", "COM"] && IndexOf(["I", "D", "C", "B", "COM"], "D") == 1
  {
    var path1 := ["K", "J", "E", "D", "C", "B", "COM"];
    var path2 := ["I", "D", "C", "B", "COM"];
    assert path1[3] == "D" && path2[1] == "D";
  }

  lemma TransferCountSample()
    ensures Transfers(["K", "J", "E", "D", "C", "B", "COM"], ["I", "D", "C", "B", "COM"]) == Some(4)
  {
    FirstSharedSample();
    IndexSample();
    TransfersAt(["K", "J", "E", "D", "C", "B", "COM"], ["I", "D", "C", "B", "COM"], 3, "D", 3, 1);
  }

  /** Transfers read off a known shared body and its two indices. */
  lemma TransfersAt(path1: seq<string>, path2: seq<string>, i: nat, body: string, n1: nat, n2: nat)
    requires FirstShared(path1, path2) == Some(i) && i < |path1| && path1[i] == body
    requires IndexOf(path1, body) == n1 && IndexOf(path2, body) == n2
    ensures Transfers(path1, path2) == Some(n1 + n2)
  {
    assert path1[i] in path2;
    assert Transfers(path1, path2) == Some(IndexOf(path1, path1[i]) + IndexOf(path2, path1[i]));
  }

  /** The sample of part 2: 4 transfers from YOU's body to SAN's. */
  lemma TransferSample()
    ensures Settles(TransferMap(), "YOU") && Settles(TransferMap(), "SAN")
    ensures Transfers(OrbitsOf(TransferMap(), "YOU"), OrbitsOf(TransferMap(), "SAN")) == Some(4)
  {
    TransferPaths();
    TransferCountSample();
  }
}
