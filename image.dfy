// The Space Image Format decoder of day 8: a line of digits is cut into
// layers of width * height pixels, the layer with the fewest zeros gives the
// checksum, and stacking the layers ('2' is transparent) gives the picture.

module SpaceImages {
  import opened Common

  /** How a size check or a conversion ends; every value but Ok is an
      exception of the source (ZeroDivisionError or a SpaceImageError). */
  datatype Status = Ok | ZeroDivision | SizesDontMatch | ConvertedSizesDontMatch

  // ---------------------------------------------------------------------
  // Layer size and layers.

  /** `len(data) % (width * height)` raising or being non-zero. Python's
      remainder takes the sign of a negative divisor and Dafny's does not,
      but both are zero exactly when the divisor divides the length. */
  function SizeCheck(length: nat, width: int, height: int): Status {
    if width * height == 0 then ZeroDivision
    else if length % (width * height) != 0 then SizesDontMatch
    else Ok
  }

  /** Consecutive slices of length n, as many as fit. */
  function Chunks(s: string, n: nat): (r: seq<string>)
    requires n > 0
    ensures |r| == |s| / n
    ensures forall k :: 0 <= k < |r| ==> |r[k]| == n
    decreases |s|
  {
    if |s| < n then []
    else
      DivSub(|s|, n);
      [s[..n]] + Chunks(s[n..], n)
  }

  /** The layers of `convert_to_layers`: `int(len(data) / size)` slices; for
      a negative size that count is not positive and the range is empty. */
  function ToLayers(data: string, size: int): seq<string>
    requires size != 0
  {
    if size > 0 then Chunks(data, size) else []
  }

  function Concat(parts: seq<string>): string {
    if |parts| == 0 then "" else parts[0] + Concat(parts[1..])
  }

  /** `sum([len(x) for x in parts])`. */
  function TotalLength(parts: seq<string>): (n: nat)
    ensures n == |Concat(parts)|
  {
    if |parts| == 0 then 0 else |parts[0]| + TotalLength(parts[1..])
  }

  /** The check at the end of `convert_to_layers`. */
  function ConvertStatus(data: string, size: int): Status
    requires size != 0
  {
    if TotalLength(ToLayers(data, size)) != |data| then ConvertedSizesDontMatch else Ok
  }

  /** The k-th layer is the slice `data[k * n:(k + 1) * n]`. */
  lemma {:induction false} ChunkAt(s: string, n: nat, k: nat)
    requires n > 0 && k < |Chunks(s, n)|
    ensures (k + 1) * n <= |s| && Chunks(s, n)[k] == s[k * n..(k + 1) * n]
    decreases k
  {
    if k > 0 {
      ChunkAt(s[n..], n, k - 1);
      assert (k - 1) * n + n == k * n && k * n + n == (k + 1) * n;
    }
  }

  /** The layers glued together are the data up to its last incomplete
      layer. */
  lemma {:induction false} ChunksCover(s: string, n: nat)
    requires n > 0
    ensures |s| % n <= |s| && Concat(Chunks(s, n)) == s[..|s| - |s| % n]
    decreases |s|
  {
    if |s| >= n {
      ChunksCover(s[n..], n);
      DivSub(|s|, n);
    }
  }

  /** For a positive size the two checks agree, and passing them means the
      layers glued together are the data. */
  lemma SizeCheckPredictsConversion(data: string, width: int, height: int)
    requires width * height > 0
    ensures SizeCheck(|data|, width, height) == Ok <==> ConvertStatus(data, width * height) == Ok
    ensures SizeCheck(|data|, width, height) == Ok ==> Concat(ToLayers(data, width * height)) == data
  {
    ChunksCover(data, width * height);
  }

  /** For a negative size the conversion only passes on empty data. */
  lemma NegativeSizeConversion(data: string, size: int)
    requires size < 0
    ensures ConvertStatus(data, size) == Ok <==> |data| == 0
  {
  }

  // ---------------------------------------------------------------------
  // Counting digits.

  /** `s.count(sub)`: non-overlapping occurrences, scanning from the left. */
  function Occurrences(s: string, sub: string): nat
    requires |sub| > 0
    decreases |s|
  {
    if |s| < |sub| then 0
    else if s[..|sub|] == sub then 1 + Occurrences(s[|sub|..], sub)
    else Occurrences(s[1..], sub)
  }

  /** Occurrences of a single character are its multiplicity. */
  lemma {:induction false} OccurrencesOfChar(s: string, c: char)
    ensures Occurrences(s, [c]) == multiset(s)[c]
    decreases |s|
  {
    if |s| > 0 {
      OccurrencesOfChar(s[1..], c);
      assert s == [s[0]] + s[1..];
      assert s[..1] == [s[0]];
    }
  }

  /** `count_digits_in_layer`: None when `layers[layerNumber]` raises
      IndexError. */
  function DigitCount(layers: seq<string>, layerNumber: int, digit: int): (r: Option<nat>)
    ensures r.Some? <==> InRange(layers, layerNumber)
  {
    var layer :- Get(layers, layerNumber);
    Some(Occurrences(layer, IntToString(digit)))
  }

  lemma DigitCountMeaning(layers: seq<string>, layerNumber: int, digit: int)
    requires InRange(layers, layerNumber) && 0 <= digit < 10
    ensures DigitCount(layers, layerNumber, digit) == Some(multiset(layers[Slot(layers, layerNumber)])[DigitChar(digit)])
  {
    OccurrencesOfChar(layers[Slot(layers, layerNumber)], DigitChar(digit));
  }

  // ---------------------------------------------------------------------
  // The layer with the fewest of a digit.

  function Min(xs: seq<nat>): (m: nat)
    requires |xs| > 0
    ensures m in xs && forall k :: 0 <= k < |xs| ==> m <= xs[k]
  {
    if |xs| == 1 then xs[0]
    else
      var rest := Min(xs[1..]);
      assert xs[1..][0] in xs;
      if xs[0] <= rest then xs[0] else rest
  }

  /** `totals.index(min(totals))`: None when `min` raises ValueError on an
      empty list. */
  function FirstMin(totals: seq<nat>): (r: Option<nat>)
    ensures r.None? <==> |totals| == 0
    ensures r.Some? ==>
      r.value < |totals|
      && (forall k :: 0 <= k < |totals| ==> totals[r.value] <= totals[k])
      && (forall k :: 0 <= k < r.value ==> totals[k] > totals[r.value])
  {
    if |totals| == 0 then None else Some(IndexOf(totals, Min(totals)))
  }

  function Totals(layers: seq<string>, sub: string): (totals: seq<nat>)
    requires |sub| > 0
  {
    seq(|layers|, k requires 0 <= k < |layers| => Occurrences(layers[k], sub))
  }

  /** `find_layer_with_fewest`. */
  function FewestLayer(layers: seq<string>, digit: int): Option<nat> {
    FirstMin(Totals(layers, IntToString(digit)))
  }

  /** The layer found has no more of the digit than any other, and strictly
      fewer than every layer before it. */
  lemma FewestLayerMeaning(layers: seq<string>, digit: int)
    requires 0 <= digit < 10
    ensures FewestLayer(layers, digit).None? <==> |layers| == 0
    ensures FewestLayer(layers, digit).Some? ==>
      var i := FewestLayer(layers, digit).value;
      i < |layers|
      && (forall k :: 0 <= k < |layers| ==> multiset(layers[i])[DigitChar(digit)] <= multiset(layers[k])[DigitChar(digit)])
      && (forall k :: 0 <= k < i ==> multiset(layers[k])[DigitChar(digit)] > multiset(layers[i])[DigitChar(digit)])
  {
    forall k | 0 <= k < |layers|
      ensures Totals(layers, IntToString(digit))[k] == multiset(layers[k])[DigitChar(digit)]
    {
      OccurrencesOfChar(layers[k], DigitChar(digit));
    }
  }

  /** The result of part 1: ones times twos in the layer with the fewest
      zeros; None when there is no layer. */
  function Checksum(layers: seq<string>): (r: Option<nat>)
    ensures r.Some? <==> |layers| > 0
  {
    var i :- FewestLayer(layers, 0);
    Some(DigitCount(layers, i, 1).value * DigitCount(layers, i, 2).value)
  }

  lemma ChecksumMeaning(layers: seq<string>)
    requires |layers| > 0
    ensures FewestLayer(layers, 0).Some? && FewestLayer(layers, 0).value < |layers|
    ensures var layer := layers[FewestLayer(layers, 0).value];
      Checksum(layers) == Some(multiset(layer)['1'] * multiset(layer)['2'])
  {
    var i := FewestLayer(layers, 0).value;
    DigitCountMeaning(layers, i, 1);
    DigitCountMeaning(layers, i, 2);
  }

  // ---------------------------------------------------------------------
  // Merging.

  /** The pixel at `index` seen through layers k, k + 1, ...: the first that
      is not transparent ('2'), or '2'; None when a layer consulted is too
      short (IndexError). */
  function FirstVisible(layers: seq<string>, k: nat, index: nat): Option<char>
    decreases |layers| - k
  {
    if k >= |layers| then Some('2')
    else if index >= |layers[k]| then None
    else if layers[k][index] != '2' then Some(layers[k][index])
    else FirstVisible(layers, k + 1, index)
  }

  /** The picture `merge_layers` returns; None when it raises. */
  function Merged(layers: seq<string>): (r: Option<string>)
    ensures r.Some? ==> |layers| > 0 && |r.value| == |layers[0]|
  {
    if |layers| == 0 then None
    else if forall j :: 0 <= j < |layers[0]| ==> FirstVisible(layers, 0, j).Some? then
      Some(seq(|layers[0]|, j requires 0 <= j < |layers[0]| => FirstVisible(layers, 0, j).value))
    else None
  }

  /** All layers have the length of the first. */
  predicate Uniform(layers: seq<string>) {
    forall k :: 0 <= k < |layers| ==> |layers[k]| == |layers[0]|
  }

  /** On layers long enough, a pixel is always seen, and it is transparent
      exactly when every layer is. */
  lemma {:induction false} FirstVisibleTransparent(layers: seq<string>, k: nat, index: nat)
    requires forall q :: k <= q < |layers| ==> index < |layers[q]|
    ensures FirstVisible(layers, k, index).Some?
    ensures FirstVisible(layers, k, index) == Some('2') <==>
      forall q :: k <= q < |layers| ==> layers[q][index] == '2'
    decreases |layers| - k
  {
    if k < |layers| && layers[k][index] == '2' {
      FirstVisibleTransparent(layers, k + 1, index);
    }
  }

  /** A pixel seen that is not transparent comes from a layer all of whose
      predecessors are transparent there. */
  lemma {:induction false} FirstVisibleOpaque(layers: seq<string>, k: nat, index: nat, c: char)
    requires FirstVisible(layers, k, index) == Some(c) && c != '2'
    ensures exists q ::
      k <= q < |layers| && index < |layers[q]| && layers[q][index] == c
      && forall p :: k <= p < q && index < |layers[p]| ==> layers[p][index] == '2'
    decreases |layers| - k
  {
    if layers[k][index] == '2' {
      FirstVisibleOpaque(layers, k + 1, index, c);
      var q :| k + 1 <= q < |layers| && index < |layers[q]| && layers[q][index] == c
        && forall p :: k + 1 <= p < q && index < |layers[p]| ==> layers[p][index] == '2';
      assert forall p :: k <= p < q && index < |layers[p]| ==> layers[p][index] == '2';
    }
  }

  /** Merging layers of one length never raises. */
  lemma MergedSucceeds(layers: seq<string>)
    requires |layers| > 0 && Uniform(layers)
    ensures Merged(layers).Some?
  {
    forall j | 0 <= j < |layers[0]|
      ensures FirstVisible(layers, 0, j).Some?
    {
      FirstVisibleTransparent(layers, 0, j);
    }
  }

  /** Each merged pixel is the first non-transparent pixel at its place, or
      '2' when all of them are transparent. */
  lemma MergedPixel(layers: seq<string>, j: nat)
    requires |layers| > 0 && Uniform(layers) && j < |layers[0]|
    ensures Merged(layers).Some?
    ensures var m := Merged(layers).value;
      (m[j] == '2' <==> forall q :: 0 <= q < |layers| ==> layers[q][j] == '2')
      && (m[j] != '2' ==>
        exists q :: 0 <= q < |layers| && m[j] == layers[q][j]
          && forall p :: 0 <= p < q ==> layers[p][j] == '2')
  {
    MergedSucceeds(layers);
    FirstVisibleTransparent(layers, 0, j);
    var c := Merged(layers).value[j];
    if c != '2' {
      FirstVisibleOpaque(layers, 0, j, c);
    }
  }

  /** A pixel of the first layer that is not transparent is kept. */
  lemma MergedKeepsFront(layers: seq<string>, j: nat)
    requires Merged(layers).Some? && j < |layers[0]| && layers[0][j] != '2'
    ensures Merged(layers).value[j] == layers[0][j]
  {
  }

  /** Merging a single layer gives that layer. */
  lemma MergedSingle(layer: string)
    ensures Merged([layer]) == Some(layer)
  {
    forall j | 0 <= j < |layer|
      ensures FirstVisible([layer], 0, j) == Some(layer[j])
    {
      assert FirstVisible([layer], 1, j) == Some('2');
    }
    assert Merged([layer]).Some?;
    var m := Merged([layer]).value;
    assert forall j :: 0 <= j < |layer| ==> m[j] == layer[j];
    assert m == layer;
  }

  /** The layers of a conversion have one length, so they always merge. */
  lemma ChunksMerge(data: string, n: nat)
    requires n > 0 && |data| >= n
    ensures Merged(Chunks(data, n)).Some?
  {
    MergedSucceeds(Chunks(data, n));
  }

  // ---------------------------------------------------------------------
  // The image object.

  class SpaceImage {
    var data: string
    var width: int
    var height: int
    var layers: seq<string>

    /** An image read from a line of digits (the reading is left out). */
    constructor (data: string)
      ensures this.data == data && width == 0 && height == 0 && layers == []
    {
      this.data := data;
      width := 0;
      height := 0;
      layers := [];
    }

    /** `set_layer_size`: the fields are set before the check raises. */
    method SetLayerSize(width: int, height: int) returns (status: Status)
      modifies this
      ensures this.width == width && this.height == height
      ensures data == old(data) && layers == old(layers)
      ensures status == SizeCheck(|data|, width, height)
    {
      this.width := width;
      this.height := height;
      var size := width * height;
      if size == 0 {
        status := ZeroDivision;
      } else if |data| % size != 0 {
        status := SizesDontMatch;
      } else {
        status := Ok;
      }
    }

    /** `convert_to_layers`: the layers are set before the final check
        raises; a zero size raises before anything is set. */
    method ConvertToLayers() returns (status: Status)
      modifies this
      ensures data == old(data) && width == old(width) && height == old(height)
      ensures width * height == 0 ==> status == ZeroDivision && layers == old(layers)
      ensures width * height != 0 ==>
        layers == ToLayers(data, width * height) && status == ConvertStatus(data, width * height)
    {
      var size := width * height;
      if size == 0 {
        return ZeroDivision;
      }
      layers := ToLayers(data, size);
      if TotalLength(layers) != |data| {
        status := ConvertedSizesDontMatch;
      } else {
        status := Ok;
      }
    }

    /** `merge_layers`: a copy of the first layer whose transparent pixels
        are replaced by the first non-transparent pixel below them. */
    method MergeLayers() returns (merged: Option<string>)
      ensures merged == Merged(layers)
    {
      if |layers| == 0 {
        return None;
      }
      var layer := layers[0];
      for index := 0 to |layer|
        invariant |layer| == |layers[0]|
        invariant forall j :: 0 <= j < index ==>
          FirstVisible(layers, 0, j) == Some(layer[j])
        invariant forall j :: index <= j < |layer| ==> layer[j] == layers[0][j]
      {
        if layer[index] != '2' {
          continue;
        }
        ghost var before := layer;
        var k := 1;
        while k < |layers|
          invariant 1 <= k <= |layers| && layer == before
          invariant FirstVisible(layers, 0, index) == FirstVisible(layers, k, index)
          decreases |layers| - k
        {
          var nextLayer := layers[k];
          if index >= |nextLayer| {
            return None;
          }
          if nextLayer[index] != '2' {
            layer := layer[index := nextLayer[index]];
            break;
          }
          k := k + 1;
        }
      }
      assert forall j :: 0 <= j < |layers[0]| ==> FirstVisible(layers, 0, j).Some?;
      assert forall j :: 0 <= j < |layer| ==> Merged(layers).value[j] == layer[j];
      assert Merged(layers).value == layer;
      merged := Some(layer);
    }
  }
}
