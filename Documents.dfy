/**
 * `ParsedFile` of Common/FileController.cs: a G-code file split into an intro
 * (the lines before the first ";LAYER_CHANGE" line), the layers, and an outro
 * (the lines from the first "; EXECUTABLE_BLOCK_END" line on), and `Parse`,
 * which joins them back together.
 */
module Documents {
  import opened Wrappers
  import opened Text
  import opened ParserHelpers
  import opened Layers

  const LayerMarker := ";LAYER_CHANGE"
  const EndMarker := "; EXECUTABLE_BLOCK_END"

  predicate IsLayerMarker(line: string) {
    StartsWith(line, LayerMarker)
  }

  predicate IsEndMarker(line: string) {
    StartsWith(line, EndMarker)
  }

  /** No line is both markers: they differ in their second character. */
  lemma MarkersDiffer(line: string)
    ensures !(IsLayerMarker(line) && IsEndMarker(line))
  {
    if IsLayerMarker(line) {
      assert line[1] == line[..|LayerMarker|][1] == 'L';
    }
  }

  // ------------------------------------------------------------ LINQ pieces

  /** `List.FindIndex` with a prefix test; -1 when no line matches. */
  function FindIndex(lines: seq<string>, prefix: string): (r: int)
    ensures -1 <= r < |lines|
    ensures r >= 0 ==> StartsWith(lines[r], prefix)
    ensures forall k :: 0 <= k < (if r == -1 then |lines| else r) ==> !StartsWith(lines[k], prefix)
  {
    match FindLine(lines, prefix)
    case None => -1
    case Some(k) => k
  }

  /** `Enumerable.Take`: a non-positive count takes nothing, a count past
      the end takes everything. */
  function Take(s: seq<string>, n: int): (r: seq<string>)
    ensures r <= s
    ensures |r| == if n <= 0 then 0 else if n >= |s| then |s| else n
  {
    if n <= 0 then [] else if n >= |s| then s else s[..n]
  }

  /** `Enumerable.Skip`: a non-positive count skips nothing. */
  function Skip(s: seq<string>, n: int): (r: seq<string>)
    ensures |r| == if n <= 0 then |s| else if n >= |s| then 0 else |s| - n
    ensures r == s[|s| - |r|..]
  {
    if n <= 0 then s else if n >= |s| then [] else s[n..]
  }

  // ------------------------------------------------------------ the split

  function IntroOf(lines: seq<string>): seq<string> {
    Take(lines, FindIndex(lines, LayerMarker))
  }

  /** The outro; `None` (a null `Outro`) without an end marker. */
  function OutroOf(lines: seq<string>): Option<seq<string>> {
    var outroStart := FindIndex(lines, EndMarker);
    if outroStart > -1 then Some(Skip(lines, outroStart)) else None
  }

  /** The lines handed to the layer enumerator (`clearList`). */
  function RegionOf(lines: seq<string>): seq<string> {
    var firstLayer := FindIndex(lines, LayerMarker);
    var outroStart := FindIndex(lines, EndMarker);
    if outroStart > -1 then Take(Skip(lines, firstLayer), outroStart - firstLayer)
    else Skip(lines, firstLayer)
  }

  /** The first layer marker at or after `from`, or the end of `r`. */
  function NextMarker(r: seq<string>, from: nat): (m: nat)
    requires from <= |r|
    ensures from <= m <= |r|
    ensures m < |r| ==> IsLayerMarker(r[m])
    decreases |r| - from
  {
    if from == |r| then from
    else if IsLayerMarker(r[from]) then from
    else NextMarker(r, from + 1)
  }

  /** No marker lies between `from` and the next marker. */
  lemma {:induction false} NextMarkerSkips(r: seq<string>, from: nat)
    requires from <= |r|
    ensures forall q :: from <= q < NextMarker(r, from) ==> !IsLayerMarker(r[q])
    decreases |r| - from
  {
    if from < |r| && !IsLayerMarker(r[from]) {
      NextMarkerSkips(r, from + 1);
    }
  }

  /** The layers the enumerator loop of the constructor still builds once
      its outer `MoveNext` has moved it to position `p` of the region `r`.
      The first layer starts at the first line; every later one starts at the
      marker that ended the layer before (line `p - 1`). The marker and the
      line at `p` always go in together, the scan for the next marker starts
      after them, and a marker that is the last line starts no layer: the
      outer `MoveNext` fails and the marker is dropped. */
  function LayersFrom(r: seq<string>, p: nat): seq<seq<string>>
    decreases |r| - p
  {
    if p >= |r| then []
    else
      var start := if p == 0 then 0 else p - 1;
      var e := NextMarker(r, p + 1);
      [r[start..e]] + LayersFrom(r, e + 1)
  }

  /** The layers built from the whole region. */
  function SplitLayers(r: seq<string>): seq<seq<string>> {
    LayersFrom(r, 0)
  }

  function Flatten(ls: seq<seq<string>>): seq<string> {
    if |ls| == 0 then [] else ls[0] + Flatten(ls[1..])
  }

  /** `Parse()` as a function of the input of the constructor: `None` where
      the source dereferences the null outro. */
  function ParseOf(lines: seq<string>): Option<seq<string>> {
    match OutroOf(lines)
    case None => None
    case Some(outro) => Some(IntroOf(lines) + Flatten(SplitLayers(RegionOf(lines))) + outro)
  }

  // ------------------------------------------------------------ the split's properties

  lemma {:induction false} FlattenAppend(a: seq<seq<string>>, b: seq<seq<string>>)
    ensures Flatten(a + b) == Flatten(a) + Flatten(b)
  {
    if |a| > 0 {
      assert (a + b)[1..] == a[1..] + b;
      FlattenAppend(a[1..], b);
    } else {
      assert a + b == b;
    }
  }

  lemma FlattenCons(x: seq<string>, rest: seq<seq<string>>)
    ensures Flatten([x] + rest) == x + Flatten(rest)
  {
    assert ([x] + rest)[1..] == rest;
  }

  lemma Concat(r: seq<string>, a: nat, b: nat, c: nat)
    requires a <= b <= c <= |r|
    ensures r[a..b] + r[b..c] == r[a..c]
  {
  }

  /** Where the enumerator stands at the head of its outer loop: at the
      start, or just past the marker that ended the last layer. */
  predicate AtLayerStart(r: seq<string>, p: nat) {
    0 < p <= |r| ==> IsLayerMarker(r[p - 1])
  }

  /** `f` is `r` from `start` on, except possibly a last line, and only when
      that line is a layer marker. */
  predicate CoversFrom(r: seq<string>, start: nat, f: seq<string>)
    requires start <= |r|
  {
    f == r[start..] || (0 < |r| && start < |r| && f == r[start..|r| - 1] && IsLayerMarker(r[|r| - 1]))
  }

  /** Lines before a cover make a cover from further back. */
  lemma CoversJoin(r: seq<string>, start: nat, e: nat, f: seq<string>)
    requires start <= e < |r| && CoversFrom(r, e, f)
    ensures CoversFrom(r, start, r[start..e] + f)
  {
    if f == r[e..] {
      assert r[start..e] + r[e..] == r[start..];
    } else {
      assert r[start..e] + r[e..|r| - 1] == r[start..|r| - 1];
    }
  }

  /** The layers still to come hold the lines from the current layer's start
      on, except possibly a last line, and only when that line is a marker. */
  lemma {:induction false} LayersFromCover(r: seq<string>, p: nat)
    requires p <= |r| && AtLayerStart(r, p)
    ensures CoversFrom(r, if p == 0 then 0 else p - 1, Flatten(LayersFrom(r, p)))
    decreases |r| - p
  {
    var start := if p == 0 then 0 else p - 1;
    if p < |r| {
      var e := NextMarker(r, p + 1);
      LayersFromUnfold(r, p, start);
      if e < |r| {
        LayersFromCover(r, e + 1);
        CoversJoin(r, start, e, Flatten(LayersFrom(r, e + 1)));
      } else {
        LayersFromEnd(r, e + 1);
        assert r[start..e] + [] == r[start..];
      }
    } else {
      LayersFromEnd(r, p);
      if p > 0 {
        assert r[start..|r| - 1] == [];
      }
    }
  }

  /** The next layer and the layers after it. */
  lemma LayersFromUnfold(r: seq<string>, p: nat, start: nat)
    requires p < |r| && start == if p == 0 then 0 else p - 1
    ensures var e := NextMarker(r, p + 1);
      Flatten(LayersFrom(r, p)) == r[start..e] + Flatten(LayersFrom(r, e + 1))
  {
    var e := NextMarker(r, p + 1);
    assert LayersFrom(r, p) == [r[start..e]] + LayersFrom(r, e + 1);
    FlattenCons(r[start..e], LayersFrom(r, e + 1));
  }

  /** No layers start past the region. */
  lemma LayersFromEnd(r: seq<string>, p: nat)
    requires p >= |r|
    ensures Flatten(LayersFrom(r, p)) == []
  {
    assert LayersFrom(r, p) == [];
  }

  /** Concatenating the layers gives the region back, except possibly its
      last line, and only when that line is a layer marker. */
  lemma SplitLayersCover(r: seq<string>)
    ensures Flatten(SplitLayers(r)) == r
         || (|r| > 0 && Flatten(SplitLayers(r)) == r[..|r| - 1] && IsLayerMarker(r[|r| - 1]))
  {
    LayersFromCover(r, 0);
    assert r[0..] == r;
  }

  /** Building the layers from position `p` on, some layer's scan for the
      next marker stops at line `m`. */
  predicate ClosesLayer(r: seq<string>, p: nat, m: int)
    decreases |r| - p
  {
    p < |r| && var e := NextMarker(r, p + 1); e == m || (e < |r| && ClosesLayer(r, e + 1, m))
  }

  /** What the layers from `p` on hold: the lines from the current layer's
      start `start` up to line `last`. */
  predicate HoldsUpTo(r: seq<string>, p: nat, start: nat, last: nat)
    requires start <= last <= |r|
  {
    Flatten(LayersFrom(r, p)) == r[start..last]
  }

  /** Exactly what the layers from `p` on lose, where the current layer
      starts at `start`: the last line when it is the marker at which a
      layer's scan stopped, and nothing otherwise. */
  lemma {:induction false} LayersFromExact(r: seq<string>, p: nat, start: nat)
    requires (p < |r| || p == 0) && AtLayerStart(r, p) && start == if p == 0 then 0 else p - 1
    ensures ClosesLayer(r, p, |r| - 1) ==> |r| > 0 && IsLayerMarker(r[|r| - 1]) && Flatten(LayersFrom(r, p)) == r[start..|r| - 1]
    ensures !ClosesLayer(r, p, |r| - 1) ==> Flatten(LayersFrom(r, p)) == r[start..]
    decreases |r| - p
  {
    if p < |r| {
      var e := NextMarker(r, p + 1);
      if e < |r| - 1 {
        LayersFromExact(r, e + 1, e);
        ExactStep(r, p, start, e);
      } else {
        ExactLast(r, p, start, e);
      }
    } else {
      LayersFromEnd(r, p);
    }
  }

  /** A layer whose scan reaches the end, or stops at the last line. */
  lemma ExactLast(r: seq<string>, p: nat, start: nat, e: nat)
    requires p < |r| && start == (if p == 0 then 0 else p - 1) && e == NextMarker(r, p + 1) && e >= |r| - 1
    ensures ClosesLayer(r, p, |r| - 1) ==> |r| > 0 && IsLayerMarker(r[|r| - 1]) && Flatten(LayersFrom(r, p)) == r[start..|r| - 1]
    ensures !ClosesLayer(r, p, |r| - 1) ==> Flatten(LayersFrom(r, p)) == r[start..]
  {
    LayersFromUnfold(r, p, start);
    LayersFromEnd(r, e + 1);
    if e == |r| {
      assert !ClosesLayer(r, p, |r| - 1);
      assert r[start..e] + [] == r[start..];
    } else {
      assert ClosesLayer(r, p, |r| - 1);
      assert r[start..e] + [] == r[start..|r| - 1];
    }
  }

  /** A layer that stops before the last line, followed by the layers
      after it. */
  lemma ExactStep(r: seq<string>, p: nat, start: nat, e: nat)
    requires p < |r| && start == (if p == 0 then 0 else p - 1) && e == NextMarker(r, p + 1) && e < |r| - 1
    requires ClosesLayer(r, e + 1, |r| - 1) ==> IsLayerMarker(r[|r| - 1]) && HoldsUpTo(r, e + 1, e, |r| - 1)
    requires !ClosesLayer(r, e + 1, |r| - 1) ==> HoldsUpTo(r, e + 1, e, |r|)
    ensures ClosesLayer(r, p, |r| - 1) ==> |r| > 0 && IsLayerMarker(r[|r| - 1]) && Flatten(LayersFrom(r, p)) == r[start..|r| - 1]
    ensures !ClosesLayer(r, p, |r| - 1) ==> Flatten(LayersFrom(r, p)) == r[start..]
  {
    var rest := Flatten(LayersFrom(r, e + 1));
    LayersFromUnfold(r, p, start);
    assert ClosesLayer(r, p, |r| - 1) == ClosesLayer(r, e + 1, |r| - 1);
    if ClosesLayer(r, e + 1, |r| - 1) {
      assert rest == r[e..|r| - 1];
      Concat(r, start, e, |r| - 1);
    } else {
      assert rest == r[e..|r|];
      Concat(r, start, e, |r|);
      assert r[start..|r|] == r[start..];
    }
  }

  /** The layers lose the region's last line exactly when a layer's scan
      stopped at it, and lose nothing otherwise. */
  lemma SplitLayersExact(r: seq<string>)
    ensures ClosesLayer(r, 0, |r| - 1) <==> |r| > 0 && Flatten(SplitLayers(r)) == r[..|r| - 1]
    ensures !ClosesLayer(r, 0, |r| - 1) <==> Flatten(SplitLayers(r)) == r
    ensures ClosesLayer(r, 0, |r| - 1) ==> IsLayerMarker(r[|r| - 1])
  {
    LayersFromExact(r, 0, 0);
    assert r[0..] == r;
    if |r| > 0 {
      assert r[0..|r| - 1] == r[..|r| - 1];
      assert |r[..|r| - 1]| != |r|;
    }
  }

  /** A lone marker is a layer of its own and is kept. */
  lemma OneMarkerKept()
    ensures Flatten(SplitLayers([LayerMarker])) == [LayerMarker]
  {
    var r := [LayerMarker];
    assert IsLayerMarker(r[0]);
    assert NextMarker(r, 1) == 1;
    assert !ClosesLayer(r, 0, 0);
    SplitLayersExact(r);
  }

  /** Of two markers in a row, the second closes the first layer and is
      dropped. */
  lemma TwoMarkersDropOne()
    ensures Flatten(SplitLayers([LayerMarker, LayerMarker])) == [LayerMarker]
  {
    var r := [LayerMarker, LayerMarker];
    assert IsLayerMarker(r[1]);
    assert NextMarker(r, 1) == 1;
    assert ClosesLayer(r, 0, 1);
    SplitLayersExact(r);
    assert r[..1] == [LayerMarker];
  }

  /** Of three markers in a row, the second closes the first layer and
      starts the next one, which holds the third: all are kept. */
  lemma ThreeMarkersKept()
    ensures Flatten(SplitLayers([LayerMarker, LayerMarker, LayerMarker])) == [LayerMarker, LayerMarker, LayerMarker]
  {
    var r := [LayerMarker, LayerMarker, LayerMarker];
    assert IsLayerMarker(r[1]) && IsLayerMarker(r[2]);
    assert NextMarker(r, 1) == 1;
    assert NextMarker(r, 3) == 3;
    assert !ClosesLayer(r, 2, 2);
    assert !ClosesLayer(r, 0, 2);
    SplitLayersExact(r);
  }

  /** A marker that is the last line after a line that is not a marker ends
      the layer before it: building from any layer start before it, some
      layer's scan stops there. */
  lemma {:induction false} LastMarkerCloses(r: seq<string>, p: nat)
    requires |r| >= 2 && p <= |r| - 2 && AtLayerStart(r, p)
    requires IsLayerMarker(r[|r| - 1]) && !IsLayerMarker(r[|r| - 2])
    ensures ClosesLayer(r, p, |r| - 1)
    decreases |r| - p
  {
    var e := NextMarker(r, p + 1);
    assert e <= |r| - 1 by {
      NextMarkerSkips(r, p + 1);
    }
    if e < |r| - 1 {
      assert e + 1 <= |r| - 2 by {
        assert IsLayerMarker(r[e]);
      }
      LastMarkerCloses(r, e + 1);
    }
  }

  /** Such a marker is dropped, and every other line is kept. */
  lemma DropLastMarker(r: seq<string>)
    requires |r| >= 2 && IsLayerMarker(r[|r| - 1]) && !IsLayerMarker(r[|r| - 2])
    ensures Flatten(SplitLayers(r)) == r[..|r| - 1]
  {
    LastMarkerCloses(r, 0);
    SplitLayersExact(r);
  }

  /** The shape of a layer built after a stop: it starts with the marker,
      holds at least two lines, and has no marker past its second line. */
  predicate LaterLayerShape(l: seq<string>) {
    |l| >= 2 && IsLayerMarker(l[0]) && forall j :: 2 <= j < |l| ==> !IsLayerMarker(l[j])
  }

  /** The shape of the first layer: at least one line, and no marker after
      its first line. */
  predicate FirstLayerShape(l: seq<string>) {
    |l| >= 1 && forall j :: 1 <= j < |l| ==> !IsLayerMarker(l[j])
  }

  lemma {:induction false} LayersFromShape(r: seq<string>, p: nat)
    requires AtLayerStart(r, p)
    ensures var ls := LayersFrom(r, p);
      && (p == 0 && |ls| > 0 ==> FirstLayerShape(ls[0]))
      && (forall k :: 0 <= k < |ls| && (k > 0 || p > 0) ==> LaterLayerShape(ls[k]))
    decreases |r| - p
  {
    if p < |r| {
      var start := if p == 0 then 0 else p - 1;
      var e := NextMarker(r, p + 1);
      var rest := LayersFrom(r, e + 1);
      NextMarkerSkips(r, p + 1);
      if e < |r| {
        LayersFromShape(r, e + 1);
        assert forall k :: 0 <= k < |rest| ==> LaterLayerShape(rest[k]);
      } else {
        assert rest == [];
      }
      var ls := LayersFrom(r, p);
      assert ls == [r[start..e]] + rest;
      var l := r[start..e];
      assert forall j :: 0 <= j < |l| ==> l[j] == r[start + j];
      if p > 0 {
        assert LaterLayerShape(l);
      } else {
        assert FirstLayerShape(l);
      }
      forall k | 1 <= k < |ls| ensures LaterLayerShape(ls[k]) {
        assert ls[k] == rest[k - 1];
        assert LaterLayerShape(rest[k - 1]);
      }
    }
  }

  /** The first layer has the first-layer shape and every later one the
      later-layer shape; all layers begin with a marker when the region does. */
  lemma SplitLayersShape(r: seq<string>)
    ensures var ls := SplitLayers(r);
      && (|ls| > 0 ==> FirstLayerShape(ls[0]))
      && (forall k :: 1 <= k < |ls| ==> LaterLayerShape(ls[k]))
      && (|r| > 0 && IsLayerMarker(r[0]) ==> forall k :: 0 <= k < |ls| ==> IsLayerMarker(ls[k][0]))
  {
    LayersFromShape(r, 0);
    if |r| > 0 {
      assert SplitLayers(r)[0][0] == r[0];
    }
  }

  /** A marker appears in a layer other than as its first line only as the
      second line of a layer after the first: two consecutive markers go
      into the same layer. */
  lemma MarkerPositions(r: seq<string>, k: nat, j: nat)
    requires k < |SplitLayers(r)| && 1 <= j < |SplitLayers(r)[k]|
    requires IsLayerMarker(SplitLayers(r)[k][j])
    ensures k > 0 && j == 1
  {
    SplitLayersShape(r);
  }

  // ------------------------------------------------------------ whole files

  lemma Reassemble(lines: seq<string>, f: nat, o: nat)
    requires f <= o <= |lines|
    ensures lines[..f] + lines[f..o] + lines[o..] == lines
  {
  }

  lemma ReassembleDropped(lines: seq<string>, f: nat, o: nat)
    requires f < o <= |lines|
    ensures lines[..f] + lines[f..o - 1] + lines[o..] == lines[..o - 1] + lines[o..]
  {
    assert lines[..f] + lines[f..o - 1] == lines[..o - 1];
  }

  /** With a layer marker before the end marker, the intro, region and outro
      are the three consecutive slices of the input. */
  lemma PartsAreSlices(lines: seq<string>)
    requires 0 <= FindIndex(lines, LayerMarker) < FindIndex(lines, EndMarker)
    ensures var f := FindIndex(lines, LayerMarker); var o := FindIndex(lines, EndMarker);
      && IntroOf(lines) == lines[..f]
      && RegionOf(lines) == lines[f..o]
      && OutroOf(lines) == Some(lines[o..])
      && ParseOf(lines) == Some(lines[..f] + Flatten(SplitLayers(lines[f..o])) + lines[o..])
  {
    var f := FindIndex(lines, LayerMarker);
    var o := FindIndex(lines, EndMarker);
    if f == 0 {
      assert lines[f..] == lines;
    }
    assert lines[f..][..o - f] == lines[f..o];
  }

  /** The end marker never comes first among equal positions: a line is not
      both markers, so a layer marker before the end marker is strictly before. */
  lemma MarkerOrder(lines: seq<string>)
    requires 0 <= FindIndex(lines, LayerMarker) <= FindIndex(lines, EndMarker)
    ensures FindIndex(lines, LayerMarker) < FindIndex(lines, EndMarker)
  {
    MarkersDiffer(lines[FindIndex(lines, LayerMarker)]);
  }

  /** A layer marker and an end marker after it: `Parse` gives the input
      back, unless the line before the end marker is a layer marker that
      closed a layer, which is lost. */
  lemma ParseRoundTrip(lines: seq<string>)
    requires 0 <= FindIndex(lines, LayerMarker) < FindIndex(lines, EndMarker)
    ensures var o := FindIndex(lines, EndMarker);
      ParseOf(lines) == Some(lines)
      || (ParseOf(lines) == Some(lines[..o - 1] + lines[o..]) && IsLayerMarker(lines[o - 1]))
  {
    ParseRoundTripCases(lines);
  }

  /** The round trip is exact when the line before the end marker is not a
      layer marker. */
  lemma ParseRoundTripExact(lines: seq<string>)
    requires 0 <= FindIndex(lines, LayerMarker) < FindIndex(lines, EndMarker)
    requires !IsLayerMarker(lines[FindIndex(lines, EndMarker) - 1])
    ensures ParseOf(lines) == Some(lines)
  {
    ParseRoundTrip(lines);
  }

  /** A layer marker just before the end marker, after a line that is no
      layer marker, is lost by the round trip. */
  lemma ParseDropsMarker(lines: seq<string>)
    requires 0 <= FindIndex(lines, LayerMarker) <= FindIndex(lines, EndMarker) - 2
    requires IsLayerMarker(lines[FindIndex(lines, EndMarker) - 1])
    requires !IsLayerMarker(lines[FindIndex(lines, EndMarker) - 2])
    ensures var o := FindIndex(lines, EndMarker); ParseOf(lines) == Some(lines[..o - 1] + lines[o..])
    ensures ParseOf(lines) != Some(lines)
  {
    var f := FindIndex(lines, LayerMarker);
    var o := FindIndex(lines, EndMarker);
    PartsAreSlices(lines);
    SlicesDropped(lines, f, o);
  }

  lemma SlicesDropped(lines: seq<string>, f: nat, o: nat)
    requires f + 2 <= o <= |lines|
    requires IsLayerMarker(lines[o - 1]) && !IsLayerMarker(lines[o - 2])
    ensures lines[..f] + Flatten(SplitLayers(lines[f..o])) + lines[o..] == lines[..o - 1] + lines[o..]
    ensures |lines[..o - 1] + lines[o..]| == |lines| - 1
  {
    var r := lines[f..o];
    assert r[|r| - 1] == lines[o - 1] && r[|r| - 2] == lines[o - 2];
    DropLastMarker(r);
    assert r[..|r| - 1] == lines[f..o - 1];
    ReassembleDropped(lines, f, o);
  }

  /** The exact round trip: `Parse` gives the input back, except the line
      before the end marker exactly when a layer's scan stopped at it. */
  lemma ParseRoundTripCases(lines: seq<string>)
    requires 0 <= FindIndex(lines, LayerMarker) < FindIndex(lines, EndMarker)
    ensures var f := FindIndex(lines, LayerMarker); var o := FindIndex(lines, EndMarker);
      var r := lines[f..o];
      && (ClosesLayer(r, 0, |r| - 1) ==> IsLayerMarker(lines[o - 1]) && ParseOf(lines) == Some(lines[..o - 1] + lines[o..]))
      && (!ClosesLayer(r, 0, |r| - 1) ==> ParseOf(lines) == Some(lines))
  {
    PartsAreSlices(lines);
    SlicesCases(lines, FindIndex(lines, LayerMarker), FindIndex(lines, EndMarker), ParseOf(lines));
  }

  /** The same cases for the file put back together from its slices at
      `f` and `o`. */
  lemma SlicesCases(lines: seq<string>, f: nat, o: nat, parsed: Option<seq<string>>)
    requires f < o <= |lines|
    requires parsed == Some(lines[..f] + Flatten(SplitLayers(lines[f..o])) + lines[o..])
    ensures var r := lines[f..o];
      && (ClosesLayer(r, 0, |r| - 1) ==> IsLayerMarker(lines[o - 1]) && parsed == Some(lines[..o - 1] + lines[o..]))
      && (!ClosesLayer(r, 0, |r| - 1) ==> parsed == Some(lines))
  {
    RegionExact(lines, f, o);
    var r := lines[f..o];
    SlicesExact(lines, f, o, Flatten(SplitLayers(r)), ClosesLayer(r, 0, |r| - 1));
  }

  /** `SplitLayersExact` on the region between positions `f` and `o`. */
  lemma RegionExact(lines: seq<string>, f: nat, o: nat)
    requires f < o <= |lines|
    ensures var r := lines[f..o]; var flat := Flatten(SplitLayers(r));
      && (ClosesLayer(r, 0, |r| - 1) ==> IsLayerMarker(lines[o - 1]) && flat == lines[f..o - 1])
      && (!ClosesLayer(r, 0, |r| - 1) ==> flat == lines[f..o])
  {
    var r := lines[f..o];
    SplitLayersExact(r);
    if ClosesLayer(r, 0, |r| - 1) {
      assert r[..|r| - 1] == lines[f..o - 1];
      assert r[|r| - 1] == lines[o - 1];
    }
  }

  /** The slices around the layers, with or without the dropped line. */
  lemma SlicesExact(lines: seq<string>, f: nat, o: nat, flat: seq<string>, closes: bool)
    requires f < o <= |lines|
    requires closes ==> flat == lines[f..o - 1]
    requires !closes ==> flat == lines[f..o]
    ensures closes ==> lines[..f] + flat + lines[o..] == lines[..o - 1] + lines[o..]
    ensures !closes ==> lines[..f] + flat + lines[o..] == lines
  {
    if closes {
      ReassembleDropped(lines, f, o);
    } else {
      Reassemble(lines, f, o);
    }
  }

  /** Without an end marker the outro is null and `Parse` throws. */
  lemma ParseWithoutEndMarker(lines: seq<string>)
    requires FindIndex(lines, EndMarker) == -1
    ensures OutroOf(lines).None? && ParseOf(lines).None?
  {
  }

  lemma {:induction false} NextMarkerNone(r: seq<string>, from: nat)
    requires from <= |r|
    requires forall q :: from <= q < |r| ==> !IsLayerMarker(r[q])
    ensures NextMarker(r, from) == |r|
    decreases |r| - from
  {
    if from < |r| {
      NextMarkerNone(r, from + 1);
    }
  }

  /** Without a layer marker, `Take(-1)` makes the intro empty and
      `Skip(-1)` keeps the whole file, so the end-marker line is emitted
      twice: once as the last line of the only layer, once by the outro. */
  lemma ParseWithoutLayerMarker(lines: seq<string>)
    requires FindIndex(lines, LayerMarker) == -1 && FindIndex(lines, EndMarker) >= 0
    ensures var o := FindIndex(lines, EndMarker);
      && IntroOf(lines) == []
      && SplitLayers(RegionOf(lines)) == [lines[..o + 1]]
      && ParseOf(lines) == Some(lines[..o + 1] + lines[o..])
  {
    var o := FindIndex(lines, EndMarker);
    var r := lines[..o + 1];
    assert lines[..|lines|] == lines;
    assert RegionOf(lines) == r;
    assert OutroOf(lines) == Some(lines[o..]) by {
      assert lines[0..] == lines;
    }
    assert forall q :: 0 <= q < |r| ==> !IsLayerMarker(r[q]) by {
      assert forall q :: 0 <= q < |r| ==> r[q] == lines[q];
    }
    NextMarkerNone(r, 1);
    assert r[0..|r|] == r;
    assert LayersFrom(r, |r| + 1) == [];
    assert SplitLayers(r) == [r] + [];
    var none: seq<seq<string>> := [];
    FlattenCons(r, none);
    assert [r] + none == [r];
    assert Flatten([r]) == r;
    assert IntroOf(lines) + Flatten([r]) + lines[o..] == r + lines[o..];
  }

  /** An end marker before every layer marker leaves no layers, and `Parse`
      repeats the lines between the two markers. */
  lemma ParseEndBeforeLayers(lines: seq<string>)
    requires 0 <= FindIndex(lines, EndMarker) < FindIndex(lines, LayerMarker)
    ensures var f := FindIndex(lines, LayerMarker); var o := FindIndex(lines, EndMarker);
      && SplitLayers(RegionOf(lines)) == []
      && ParseOf(lines) == Some(lines[..f] + lines[o..])
  {
    var f := FindIndex(lines, LayerMarker);
    var o := FindIndex(lines, EndMarker);
    assert lines[0..] == lines;
    assert OutroOf(lines) == Some(lines[o..]);
    assert IntroOf(lines) == lines[..f];
    assert RegionOf(lines) == [];
    var none: seq<seq<string>> := [];
    assert SplitLayers([]) == none;
    assert Flatten(none) == [];
    assert lines[..f] + [] + lines[o..] == lines[..f] + lines[o..];
  }

  // ------------------------------------------------------------ the class

  /** The current lines of each layer. */
  function LinesOf(ls: seq<Layer>): (r: seq<seq<string>>)
    reads set l | l in ls
    ensures |r| == |ls|
    ensures forall i :: 0 <= i < |ls| ==> r[i] == ls[i].AllLines
  {
    if |ls| == 0 then [] else LinesOf(ls[..|ls| - 1]) + [ls[|ls| - 1].AllLines]
  }

  /** No layer object occurs twice. */
  predicate Distinct(ls: seq<Layer>) {
    forall i, j :: 0 <= i < j < |ls| ==> ls[i] != ls[j]
  }

  /** One turn of the enumerator loop: the layer from the current start to
      the next marker `e` is built, and the enumerator stands at `e + 1`. */
  lemma EnumeratorStep(r: seq<string>, p: nat, e: nat, lineList: seq<string>,
                       done: seq<seq<string>>, whole: seq<seq<string>>)
    requires p < |r| && e == NextMarker(r, p + 1)
    requires lineList == r[(if p == 0 then 0 else p - 1)..e]
    requires done + LayersFrom(r, p) == whole
    ensures (done + [lineList]) + LayersFrom(r, e + 1) == whole
  {
    var rest := LayersFrom(r, e + 1);
    assert LayersFrom(r, p) == [lineList] + rest;
    SnocThenRest(done, lineList, rest);
  }

  lemma SnocThenRest(done: seq<seq<string>>, x: seq<string>, rest: seq<seq<string>>)
    ensures (done + [x]) + rest == done + ([x] + rest)
  {
  }

  /** The inner `do`-`while` of the enumerator loop: the lines from `start`
      up to the next layer marker at or after `from`. */
  method CollectLayer(r: seq<string>, start: nat, from: nat, collected: seq<string>)
    returns (lineList: seq<string>, p: nat)
    requires start < from <= |r| && collected == r[start..from]
    ensures p == NextMarker(r, from) && lineList == r[start..p]
  {
    lineList, p := collected, from;
    while p < |r| && !IsLayerMarker(r[p])
      invariant from <= p <= |r|
      invariant lineList == r[start..p]
      invariant NextMarker(r, p) == NextMarker(r, from)
    {
      assert r[start..p] + [r[p]] == r[start..p + 1];
      lineList := lineList + [r[p]];
      p := p + 1;
    }
  }

  /** `l` was built from `lines`: it holds them, and its declared height and
      `Z` are read from them. */
  ghost predicate BuiltFrom(l: Layer, lines: seq<string>, num: Numerics)
    reads l
  {
    && l.AllLines == lines && l.num == num
    && l.LayerZ == DeclaredValue(lines, ZPrefix, num)
    && l.LayerHeight == DeclaredValue(lines, HeightPrefix, num)
  }

  /** One turn of the enumerator loop: the lines up to the next marker and a
      fresh layer built from them. */
  method NextLayer(r: seq<string>, p: nat, lineList: seq<string>, num: Numerics)
    returns (layer: Layer, chunk: seq<string>, e: nat)
    requires p < |r|
    requires p == 0 ==> lineList == []
    requires 0 < p ==> lineList == [r[p - 1]]
    ensures e == NextMarker(r, p + 1) && chunk == r[(if p == 0 then 0 else p - 1)..e]
    ensures fresh(layer) && BuiltFrom(layer, chunk, num)
  {
    var start := if p == 0 then 0 else p - 1;
    // do { Add(Current) } while (MoveNext() && !Current.StartsWith(marker))
    assert lineList + [r[p]] == r[start..p + 1];
    chunk, e := CollectLayer(r, start, p + 1, lineList + [r[p]]);
    layer := new Layer(chunk, num);
  }

  /** The enumerator loop of the constructor: collects each layer's lines
      and builds a fresh layer from them. */
  method BuildLayers(r: seq<string>, num: Numerics) returns (layers: seq<Layer>)
    ensures LinesOf(layers) == SplitLayers(r)
    ensures Distinct(layers)
    ensures forall l :: l in layers ==> fresh(l)
    ensures forall i :: 0 <= i < |layers| ==> BuiltFrom(layers[i], layers[i].AllLines, num)
  {
    layers := [];
    ghost var chunks: seq<seq<string>> := [];
    ghost var whole := SplitLayers(r);
    var lineList: seq<string> := [];
    // `p` is the enumerator's position after the outer `MoveNext`.
    var p := 0;
    while p < |r|
      invariant p == 0 ==> lineList == []
      invariant AtLayerStart(r, p) && (0 < p <= |r| ==> lineList == [r[p - 1]])
      invariant chunks + LayersFrom(r, p) == whole
      invariant Built(layers, chunks, num)
      invariant forall l :: l in layers ==> fresh(l)
      decreases |r| - p
    {
      layers, chunks, lineList, p := BuildStep(r, p, lineList, num, layers, chunks, whole);
    }
    assert chunks + [] == chunks;
    assert LinesOf(layers) == chunks;
  }

  /** Distinct layers, each built from its chunk of lines. */
  ghost predicate Built(layers: seq<Layer>, chunks: seq<seq<string>>, num: Numerics)
    reads set l | l in layers
  {
    && |chunks| == |layers| && Distinct(layers)
    && forall i :: 0 <= i < |layers| ==> BuiltFrom(layers[i], chunks[i], num)
  }

  /** One turn of the enumerator loop with its bookkeeping: one more layer,
      and the enumerator just past the marker that ended it. */
  method BuildStep(r: seq<string>, p: nat, lineList: seq<string>, num: Numerics, layers: seq<Layer>,
                   ghost chunks: seq<seq<string>>, ghost whole: seq<seq<string>>)
    returns (layers': seq<Layer>, ghost chunks': seq<seq<string>>, lineList': seq<string>, p': nat)
    requires p < |r|
    requires p == 0 ==> lineList == []
    requires AtLayerStart(r, p) && (0 < p ==> lineList == [r[p - 1]])
    requires chunks + LayersFrom(r, p) == whole
    requires Built(layers, chunks, num)
    ensures p < p'
    ensures AtLayerStart(r, p') && (p' <= |r| ==> lineList' == [r[p' - 1]])
    ensures chunks' + LayersFrom(r, p') == whole
    ensures Built(layers', chunks', num)
    ensures forall l :: l in layers' ==> l in layers || fresh(l)
  {
    var layer, chunk, e := NextLayer(r, p, lineList, num);
    layers' := layers + [layer];
    chunks' := chunks + [chunk];
    // Clear(); Add(Current): past the end the line is never used
    lineList' := if e < |r| then [r[e]] else [];
    p' := e + 1;
    assert AtLayerStart(r, p') by {
      assert e < |r| ==> IsLayerMarker(r[e]);
    }
    EnumeratorStep(r, p, e, chunk, chunks, whole);
    BuiltSnoc(layers, chunks, layer, chunk, num);
  }

  /** A new layer built from the next chunk extends what is built. */
  lemma BuiltSnoc(layers: seq<Layer>, chunks: seq<seq<string>>, layer: Layer, chunk: seq<string>, num: Numerics)
    requires Built(layers, chunks, num) && BuiltFrom(layer, chunk, num) && layer !in layers
    ensures Built(layers + [layer], chunks + [chunk], num)
  {
    var layers', chunks' := layers + [layer], chunks + [chunk];
    assert forall i :: 0 <= i < |layers| ==> layers'[i] == layers[i] && chunks'[i] == chunks[i];
  }

  class ParsedFile {
    const Intro: seq<string>
    const Layers: seq<Layer>
    const Outro: Option<seq<string>>

    /** The split of the input into intro, fresh layers and outro. */
    constructor(lines: seq<string>, num: Numerics)
      ensures Intro == IntroOf(lines) && Outro == OutroOf(lines)
      ensures LinesOf(Layers) == SplitLayers(RegionOf(lines))
      ensures Distinct(Layers)
      ensures forall l :: l in Layers ==> fresh(l)
      ensures forall i :: 0 <= i < |Layers| ==> BuiltFrom(Layers[i], Layers[i].AllLines, num)
    {
      var firstLayer := FindIndex(lines, LayerMarker);
      Intro := Take(lines, firstLayer);
      var outroStart := FindIndex(lines, EndMarker);
      var clearList := Skip(lines, firstLayer);
      if outroStart > -1 {
        Outro := Some(Skip(lines, outroStart));
        clearList := Take(clearList, outroStart - firstLayer);
      } else {
        Outro := None;
      }
      var layers := BuildLayers(clearList, num);
      Layers := layers;
    }

    /** `Parse()`: the intro, every layer's current lines and the outro, in
        order; `None` where the source dereferences the null outro. */
    method Parse() returns (r: Option<seq<string>>)
      ensures Outro.None? ==> r.None?
      ensures Outro.Some? ==> r == Some(Intro + Flatten(LinesOf(Layers)) + Outro.value)
    {
      var lines := Intro;
      var i := 0;
      while i < |Layers|
        invariant 0 <= i <= |Layers|
        invariant lines == Intro + Flatten(LinesOf(Layers[..i]))
      {
        assert LinesOf(Layers[..i + 1]) == LinesOf(Layers[..i]) + [Layers[i].AllLines] by {
          assert Layers[..i + 1][..i] == Layers[..i];
        }
        FlattenAppend(LinesOf(Layers[..i]), [Layers[i].AllLines]);
        FlattenCons(Layers[i].AllLines, []);
        assert [Layers[i].AllLines] + [] == [Layers[i].AllLines];
        lines := lines + Layers[i].AllLines;
        i := i + 1;
      }
      assert Layers[..i] == Layers;
      if Outro.None? {
        return None;
      }
      return Some(lines + Outro.value);
    }
  }
}
