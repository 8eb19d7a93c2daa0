/**
 * `Tools` of Tools/Tools.cs: joining each single-extrusion layer to the next
 * with one connecting move, and turning runs of single-extrusion layers into
 * a vase by ramping the Z of their moves up by a weighted share of the layer
 * height.
 *
 * Each operation is a pure function on `LayerView`s (the part of a layer's
 * state it reads) and a method on `Layer` objects proved to compute it. The
 * exceptions of the source, and a NaN or infinity it would write into the
 * file, are `Fail` outcomes; a turn of the `VaseLayers` loop that changes no
 * loop variable, which the source repeats forever, is `Fail(Hangs)`.
 */
module Tools {
  import opened Wrappers
  import opened ParserHelpers
  import opened Moves
  import opened Layers
  import Documents

  datatype Failure =
    | BadMoveLine      // the parsing constructor of a move throws
    | IndexOutOfRange  // a list index past the end
    | MissingValue     // `.Value` of an absent coordinate
    | NonFinite        // a division by zero would write NaN or infinity
    | Hangs            // a loop turn that changes nothing, repeated forever

  datatype Outcome<T> = Ok(value: T) | Fail(failure: Failure)

  /** Try `i` throws `f` and every earlier try returned. */
  predicate FirstFault<T>(os: seq<Outcome<T>>, i: int, f: Failure) {
    && 0 <= i < |os| && os[i] == Fail(f)
    && forall j :: 0 <= j < i ==> os[j].Ok?
  }

  /** A loop over tries in which the first one that throws ends the loop:
      the value of every try, or the first exception. */
  function Tries<T>(os: seq<Outcome<T>>): (r: Outcome<seq<T>>)
    ensures r.Ok? <==> forall i :: 0 <= i < |os| ==> os[i].Ok?
    ensures r.Ok? ==> |r.value| == |os| && forall i :: 0 <= i < |os| ==> os[i] == Ok(r.value[i])
  {
    if |os| == 0 then Ok([])
    else
      match Tries(os[..|os| - 1])
      case Fail(f) => Fail(f)
      case Ok(prev) =>
        match os[|os| - 1]
        case Fail(f) => Fail(f)
        case Ok(x) => Ok(prev + [x])
  }

  /** The exception is that of the first try that throws. */
  lemma {:induction false} TriesFault<T>(os: seq<Outcome<T>>)
    requires Tries(os).Fail?
    ensures exists i :: FirstFault(os, i, Tries(os).failure)
  {
    var front := os[..|os| - 1];
    if Tries(front).Fail? {
      TriesFault(front);
      var i :| FirstFault(front, i, Tries(front).failure);
      assert FirstFault(os, i, Tries(os).failure);
    } else {
      assert FirstFault(os, |os| - 1, Tries(os).failure);
    }
  }

  /** Once a try has thrown, the later tries change nothing. */
  lemma {:induction false} TriesFailStays<T>(os: seq<Outcome<T>>, k: nat)
    requires k <= |os| && Tries(os[..k]).Fail?
    ensures Tries(os) == Tries(os[..k])
    decreases |os| - k
  {
    if k < |os| {
      TriesSnoc(os[..k], os[k]);
      assert os[..k + 1] == os[..k] + [os[k]];
      TriesFailStays(os, k + 1);
    } else {
      assert os[..k] == os;
    }
  }

  /** One more try: the loop goes on with its value, or stops with its
      exception. */
  lemma TriesSnoc<T>(os: seq<Outcome<T>>, o: Outcome<T>)
    ensures Tries(os).Fail? ==> Tries(os + [o]) == Tries(os)
    ensures Tries(os).Ok? && o.Fail? ==> Tries(os + [o]) == Fail(o.failure)
    ensures Tries(os).Ok? && o.Ok? ==> Tries(os + [o]) == Ok(Tries(os).value + [o.value])
  {
    assert (os + [o])[..|os|] == os;
  }

  /** What the tools read of a layer: its lines, its declared Z and height,
      and the number conversions it parses with. */
  datatype LayerView = LayerView(lines: seq<string>, z: real, height: real, num: Numerics)

  function ViewOf(l: Layer): LayerView
    reads l
  {
    LayerView(l.AllLines, l.LayerZ, l.LayerHeight, l.num)
  }

  /** `GetAllMoveCommands(true)`. */
  function Moves2D(v: LayerView): Option<seq<MoveCommand>> {
    Projection(v.lines, true, v.num)
  }

  /** `IsSingleExtrusion()`. */
  function Single(v: LayerView): Option<bool> {
    SingleExtrusionOf(v.lines, v.num)
  }

  // ------------------------------------------------------------- connecting

  const ConnectComment := " Connecting to next layer!"
  const MinConnection: real := 0.0001

  /** The move appended to `a`: the target's position, the computed feed,
      and the speed of `a`'s last move. */
  function ConnectingMove(target: MoveCommand, feed: real, last: MoveCommand): MoveCommand {
    MoveCommand(-1, target.X, target.Y, target.Z, Some(feed), last.F, Some(ConnectComment))
  }

  /** The E value of the connecting move. With relative E: the last E per
      unit length of `a`'s last segment, times the multiplier and the
      connection length. With absolute E: the previous E minus the last E,
      per unit length of that segment, times the multiplier and the
      connection length, added to the last E (so the move retracts when E
      was increasing). */
  function Feed(relative: bool, last2: MoveCommand, last: MoveCommand, dist: real,
                multiplier: real, distance: real): real
    requires last.E.Some? && (relative || last2.E.Some?) && dist != 0.0
  {
    var feedRate := (if relative then last.E.value / dist else (last2.E.value - last.E.value) / dist) * multiplier;
    if relative then feedRate * distance else last.E.value + feedRate * distance
  }

  /** The last and the second-to-last 2D move of a layer's moves. */
  function Last(ms: seq<MoveCommand>): MoveCommand
    requires |ms| >= 1
  {
    ms[|ms| - 1]
  }

  function SecondLast(ms: seq<MoveCommand>): MoveCommand
    requires |ms| >= 2
  {
    ms[|ms| - 2]
  }

  /** `ConnectSingleExtrusionLayers(a, b, relative, maxDistance, multiplier)`
      on the layers' state: `Ok(None)` for `false`, `Ok(Some(line))` for
      `true` with the line appended to `a`. */
  function Connection(a: LayerView, b: LayerView, relative: bool, maxDistance: real, multiplier: real)
    : (r: Outcome<Option<string>>)
    ensures Single(a).None? ==> r == Fail(BadMoveLine)
    ensures Single(a) == Some(false) ==> r == Ok(None)
    ensures Single(a) == Some(true) && Single(b).None? ==> r == Fail(BadMoveLine)
    ensures Single(a) == Some(true) && Single(b) == Some(false) ==> r == Ok(None)
    ensures r == Fail(IndexOutOfRange) <==>
      Single(a) == Some(true) && Single(b) == Some(true) && |Moves2D(a).value| < 2
    ensures r == Fail(MissingValue) <==>
      && Single(a) == Some(true) && Single(b) == Some(true) && |Moves2D(a).value| >= 2
      && !relative && SecondLast(Moves2D(a).value).E.None?
    ensures r.Ok? && r.value.Some? ==>
      && Single(a) == Some(true) && Single(b) == Some(true)
      && |Moves2D(a).value| >= 2 && |Moves2D(b).value| >= 1
      && MinConnection <= GetDistance(Last(Moves2D(a).value), Moves2D(b).value[0], a.num) <= maxDistance
  {
    match Single(a)
    case None => Fail(BadMoveLine)
    case Some(sa) =>
      if !sa then Ok(None)
      else
        match Single(b)
        case None => Fail(BadMoveLine)
        case Some(sb) =>
          if !sb then Ok(None)
          else
            var am := Moves2D(a).value;
            var bm := Moves2D(b).value;
            SingleExtrusionLastExtrudes(am);
            SingleExtrusionLastExtrudes(bm);
            if |am| < 2 then Fail(IndexOutOfRange)
            else if !relative && SecondLast(am).E.None? then Fail(MissingValue)
            else
              var multiplier := if a.z < 8.0 then a.z else multiplier;
              var dist := GetDistance(SecondLast(am), Last(am), a.num);
              // Every layer of a parsed file shares one `num`, so `a.num` serves for `b`'s move too.
              var distance := GetDistance(Last(am), bm[0], a.num);
              if distance > maxDistance || distance < MinConnection then Ok(None)
              else if dist == 0.0 then Fail(NonFinite)
              else
                var feed := Feed(relative, SecondLast(am), Last(am), dist, multiplier, distance);
                Ok(Some(Serialize(ConnectingMove(bm[0], feed, Last(am)), a.num)))
  }

  /** Once both layers are single extrusion and `a` has the two moves (and,
      with absolute E, the E value) the feed needs, the connection is made
      exactly when its length is within [0.0001, maxDistance]; a zero-length
      last segment of `a` then makes the feed non-finite. */
  lemma ConnectionDistanceGate(a: LayerView, b: LayerView, relative: bool, maxDistance: real, multiplier: real)
    requires Single(a) == Some(true) && Single(b) == Some(true)
    requires |Moves2D(a).value| >= 2
    requires relative || SecondLast(Moves2D(a).value).E.Some?
    ensures |Moves2D(b).value| >= 1
    ensures var am := Moves2D(a).value;
      var distance := GetDistance(Last(am), Moves2D(b).value[0], a.num);
      var inRange := MinConnection <= distance <= maxDistance;
      var c := Connection(a, b, relative, maxDistance, multiplier);
      && (c.Ok? && c.value.Some? <==> inRange && GetDistance(SecondLast(am), Last(am), a.num) != 0.0)
      && (c == Ok(None) <==> !inRange)
      && (c.Fail? <==> inRange && GetDistance(SecondLast(am), Last(am), a.num) == 0.0)
  {
    SingleExtrusionLastExtrudes(Moves2D(b).value);
  }

  /** The appended line reads back as a single 2D move: the target's X, Y
      and Z, the feed as E, the speed of `a`'s last move and the comment.
      So `a` gains exactly that move at the end of its moves and stays
      single extrusion. */
  lemma ConnectionAppends(a: LayerView, b: LayerView, relative: bool, maxDistance: real, multiplier: real)
    requires FormatReadable(a.num)
    requires Connection(a, b, relative, maxDistance, multiplier).Ok?
    requires Connection(a, b, relative, maxDistance, multiplier).value.Some?
    ensures var line := Connection(a, b, relative, maxDistance, multiplier).value.value;
      var am := Moves2D(a).value;
      var target := Moves2D(b).value[0];
      var multiplier' := if a.z < 8.0 then a.z else multiplier;
      var dist := GetDistance(SecondLast(am), Last(am), a.num);
      var distance := GetDistance(Last(am), target, a.num);
      var feed := Feed(relative, SecondLast(am), Last(am), dist, multiplier', distance);
      var move := MoveCommand(|a.lines|, RereadField(target.X, a.num), RereadField(target.Y, a.num),
                              RereadField(target.Z, a.num), Some(Reread(feed, a.num)),
                              RereadField(Last(am).F, a.num), Some(ConnectComment));
      && Moves2D(a.(lines := a.lines + [line])) == Some(am + [move])
      && Single(a.(lines := a.lines + [line])) == Some(true)
  {
    var line := Connection(a, b, relative, maxDistance, multiplier).value.value;
    var am := Moves2D(a).value;
    var bm := Moves2D(b).value;
    SingleExtrusionLastExtrudes(am);
    SingleExtrusionLastExtrudes(bm);
    var target := bm[0];
    var multiplier' := if a.z < 8.0 then a.z else multiplier;
    var dist := GetDistance(SecondLast(am), Last(am), a.num);
    var distance := GetDistance(Last(am), target, a.num);
    var feed := Feed(relative, SecondLast(am), Last(am), dist, multiplier', distance);
    assert line == Serialize(ConnectingMove(target, feed, Last(am)), a.num);
    ConnectingLineReads(target, feed, Last(am), |a.lines|, a.num);
    var move := MoveCommand(|a.lines|, RereadField(target.X, a.num), RereadField(target.Y, a.num),
                            RereadField(target.Z, a.num), Some(Reread(feed, a.num)),
                            RereadField(Last(am).F, a.num), Some(ConnectComment));
    ProjectionIndices(b.lines, true, b.num);
    ProjectionSnoc(a.lines, line, move, true, a.num);
    ExtrusionExtends(am, move);
  }

  /** An extruding move after a single-extrusion run keeps it one run. */
  lemma ExtrusionExtends(ms: seq<MoveCommand>, move: MoveCommand)
    requires exists f :: ExtrusionStartsAt(ms, f)
    requires move.E.Some?
    ensures exists f :: ExtrusionStartsAt(ms + [move], f)
  {
    var f :| ExtrusionStartsAt(ms, f);
    assert ExtrusionStartsAt(ms + [move], f);
  }

  /** The connecting line parses back as a move with the target's
      coordinates, the feed as E, the last move's speed and the comment. */
  lemma ConnectingLineReads(target: MoveCommand, feed: real, last: MoveCommand, lineIndex: int, num: Numerics)
    requires FormatReadable(num)
    ensures ParseLine(Serialize(ConnectingMove(target, feed, last), num), lineIndex, num)
      == Some(MoveCommand(lineIndex, RereadField(target.X, num), RereadField(target.Y, num),
                          RereadField(target.Z, num), Some(Reread(feed, num)),
                          RereadField(last.F, num), Some(ConnectComment)))
  {
    SerializeRoundTrip(ConnectingMove(target, feed, last), lineIndex, num);
    ConnectCommentKept();
  }

  /** The connecting comment is not blank, so printing keeps it. */
  lemma ConnectCommentKept()
    ensures KeptComment(Some(ConnectComment)) == Some(ConnectComment)
  {
    assert ConnectComment[1] == 'C';
  }

  /** The list overload tries the pairs (i, i + 1) for i < Count - 2. */
  function PairCount(n: int): nat {
    if n < 2 then 0 else n - 2
  }

  /** The first `k` tries of the list overload: each pair (i, i + 1) with
      relative E, 2 as the largest distance and 2 as the multiplier, on the
      layers as they were before (try i appends only to layer i, which no
      earlier try reads). */
  function ConnectTries(vs: seq<LayerView>, k: nat): (r: seq<Outcome<Option<string>>>)
    requires k <= PairCount(|vs|)
    ensures |r| == k
  {
    if k == 0 then [] else ConnectTries(vs, k - 1) + [Connection(vs[k - 1], vs[k], true, 2.0, 2.0)]
  }

  lemma {:induction false} ConnectTriesAt(vs: seq<LayerView>, k: nat, i: nat)
    requires i < k <= PairCount(|vs|)
    ensures ConnectTries(vs, k)[i] == Connection(vs[i], vs[i + 1], true, 2.0, 2.0)
  {
    if i < k - 1 {
      ConnectTriesAt(vs, k - 1, i);
    }
  }

  /** The number of connections made. */
  function Successes(outs: seq<Option<string>>): nat {
    if |outs| == 0 then 0
    else Successes(outs[..|outs| - 1]) + (if outs[|outs| - 1].Some? then 1 else 0)
  }

  lemma {:induction false} SuccessesBound(outs: seq<Option<string>>)
    ensures Successes(outs) <= |outs|
  {
    if |outs| > 0 {
      SuccessesBound(outs[..|outs| - 1]);
    }
  }

  /** A layer after a try that returned `o`: it gains the line, if any. */
  function Appended(v: LayerView, o: Option<string>): LayerView {
    if o.Some? then v.(lines := v.lines + [o.value]) else v
  }

  /** The layers after the tries: layer i gains the line of try i, if any. */
  function Attach(vs: seq<LayerView>, outs: seq<Option<string>>): (r: seq<LayerView>)
    requires |outs| <= |vs|
    ensures |r| == |vs|
    ensures forall j :: 0 <= j < |vs| ==> r[j] == if j < |outs| then Appended(vs[j], outs[j]) else vs[j]
  {
    seq(|vs|, j requires 0 <= j < |vs| => if j < |outs| then Appended(vs[j], outs[j]) else vs[j])
  }

  /** The list overload `ConnectSingleExtrusionLayers(layers)`: the count of
      connections made and the layers after them. */
  function ConnectAllOf(vs: seq<LayerView>): (r: Outcome<(int, seq<LayerView>)>)
    ensures r.Ok? ==> |r.value.1| == |vs|
  {
    match Tries(ConnectTries(vs, PairCount(|vs|)))
    case Fail(f) => Fail(f)
    case Ok(outs) => Ok((Successes(outs), Attach(vs, outs)))
  }

  /** At most Count - 2 connections are made; only the first Count - 2
      layers can gain a line, so the last pair is never connected; each of
      them gains the line its try returned. */
  lemma ConnectAllBound(vs: seq<LayerView>)
    requires ConnectAllOf(vs).Ok?
    ensures 0 <= ConnectAllOf(vs).value.0 <= PairCount(|vs|)
    ensures |ConnectAllOf(vs).value.1| == |vs|
    ensures forall j :: PairCount(|vs|) <= j < |vs| ==> ConnectAllOf(vs).value.1[j] == vs[j]
    ensures forall j :: 0 <= j < PairCount(|vs|) ==>
      var c := Connection(vs[j], vs[j + 1], true, 2.0, 2.0);
      && c.Ok?
      && ConnectAllOf(vs).value.1[j].lines == vs[j].lines + (if c.value.Some? then [c.value.value] else [])
  {
    var n := PairCount(|vs|);
    var tries := ConnectTries(vs, n);
    var outs := Tries(tries).value;
    var ws := Attach(vs, outs);
    assert ConnectAllOf(vs) == Ok((Successes(outs) as int, ws));
    forall j | 0 <= j < n
      ensures var c := Connection(vs[j], vs[j + 1], true, 2.0, 2.0);
        c.Ok? && ws[j].lines == vs[j].lines + (if c.value.Some? then [c.value.value] else [])
    {
      ConnectTriesAt(vs, n, j);
      assert tries[j] == Ok(outs[j]);
    }
    SuccessesBound(outs);
  }

  /** `ConnectSingleExtrusionLayers(a, b, ...)`: appends the connecting line
      to `a` when the connection is made, and nothing otherwise. */
  method ConnectSingleExtrusionLayers(a: Layer, b: Layer, relative: bool, maxDistance: real, multiplier: real)
    returns (r: Outcome<bool>)
    modifies a
    ensures var c := old(Connection(ViewOf(a), ViewOf(b), relative, maxDistance, multiplier));
      && (c.Fail? ==> r == Fail(c.failure) && a.AllLines == old(a.AllLines))
      && (c.Ok? ==> r == Ok(c.value.Some?))
      && (c == Ok(None) ==> a.AllLines == old(a.AllLines))
      && (c.Ok? && c.value.Some? ==> a.AllLines == old(a.AllLines) + [c.value.value])
  {
    var sa := a.IsSingleExtrusion();
    if sa.None? {
      return Fail(BadMoveLine);
    }
    if !sa.value {
      return Ok(false);
    }
    var sb := b.IsSingleExtrusion();
    if sb.None? {
      return Fail(BadMoveLine);
    }
    if !sb.value {
      return Ok(false);
    }
    var mult := multiplier;
    if a.LayerZ < 8.0 {
      mult := a.LayerZ;
    }
    var aCommands := a.GetAllMoveCommands(true);
    var bCommands := b.GetAllMoveCommands(true);
    var am, bm := aCommands.value, bCommands.value;
    SingleExtrusionLastExtrudes(am);
    SingleExtrusionLastExtrudes(bm);
    if |am| < 2 {
      return Fail(IndexOutOfRange);
    }
    var aLast, aLast2 := am[|am| - 1], am[|am| - 2];
    var dist := GetDistance(aLast2, aLast, a.num);
    if !relative && aLast2.E.None? {
      return Fail(MissingValue);
    }
    var target := bm[0];
    var distance := GetDistance(aLast, target, a.num);
    if distance > maxDistance {
      return Ok(false);
    } else if distance < MinConnection {
      return Ok(false);
    }
    if dist == 0.0 {
      return Fail(NonFinite);
    }
    var feed := Feed(relative, aLast2, aLast, dist, mult, distance);
    var line := Serialize(ConnectingMove(target, feed, aLast), a.num);
    a.AllLines := a.AllLines + [line];
    return Ok(true);
  }

  /** The list overload: tries each pair (i, i + 1) with i < Count - 2 with
      relative E, 2 as the largest distance and 2 as the multiplier, and
      counts the connections made. */
  method ConnectAllSingleExtrusionLayers(layers: seq<Layer>, ghost before: seq<LayerView>) returns (r: Outcome<int>)
    requires Documents.Distinct(layers)
    requires |before| == |layers| && forall j :: 0 <= j < |layers| ==> ViewOf(layers[j]) == before[j]
    modifies set l | l in layers
    ensures var c := ConnectAllOf(before);
      && (c.Fail? ==> r == Fail(c.failure))
      && (c.Ok? ==> r == Ok(c.value.0) && forall j :: 0 <= j < |layers| ==> ViewOf(layers[j]) == c.value.1[j])
  {
    ConnectTriesAll(before);
    r := ConnectPairs(layers, before, ConnectTries(before, PairCount(|layers|)));
  }

  /** The loop of the list overload, given its tries as values. */
  method ConnectPairs(layers: seq<Layer>, ghost before: seq<LayerView>, ghost tries: seq<Outcome<Option<string>>>)
    returns (r: Outcome<int>)
    requires Documents.Distinct(layers)
    requires |before| == |layers| && forall j :: 0 <= j < |layers| ==> ViewOf(layers[j]) == before[j]
    requires ConnectTriesOf(tries, before)
    modifies set l | l in layers
    ensures var t := Tries(tries);
      && (t.Fail? ==> r == Fail(t.failure))
      && (t.Ok? ==> && r == Ok(Successes(t.value)) && |t.value| <= |layers|
                    && forall j :: 0 <= j < |layers| ==> ViewOf(layers[j]) == Attach(before, t.value)[j])
  {
    var count := 0;
    ghost var outs: seq<Option<string>> := [];
    var i := 0;
    while i < |layers| - 2
      invariant 0 <= i <= PairCount(|layers|)
      invariant Tries(tries[..i]) == Ok(outs)
      invariant count == Successes(outs)
      invariant forall j :: 0 <= j < i ==> ViewOf(layers[j]) == Appended(before[j], outs[j])
      invariant forall j :: i <= j < |layers| ==> ViewOf(layers[j]) == before[j]
    {
      var ok;
      ok, outs := ConnectStep(layers, i, before, tries, outs);
      if ok.Fail? {
        return Fail(ok.failure);
      }
      if ok.value {
        count := count + 1;
      }
      i := i + 1;
    }
    assert tries[..i] == tries;
    forall j | 0 <= j < |layers|
      ensures ViewOf(layers[j]) == Attach(before, outs)[j]
    {
    }
    return Ok(count);
  }

  /** The tries of the list overload as values: try k connects the pair
      (k, k + 1). */
  ghost predicate ConnectTriesOf(tries: seq<Outcome<Option<string>>>, vs: seq<LayerView>) {
    && |tries| == PairCount(|vs|)
    && forall k {:trigger Connection(vs[k], vs[k + 1], true, 2.0, 2.0)} :: 0 <= k < |tries| ==>
         tries[k] == Connection(vs[k], vs[k + 1], true, 2.0, 2.0)
  }

  lemma ConnectTriesAll(vs: seq<LayerView>)
    ensures ConnectTriesOf(ConnectTries(vs, PairCount(|vs|)), vs)
  {
    forall k | 0 <= k < PairCount(|vs|)
      ensures ConnectTries(vs, PairCount(|vs|))[k] == Connection(vs[k], vs[k + 1], true, 2.0, 2.0)
    {
      ConnectTriesAt(vs, PairCount(|vs|), k);
    }
  }

  /** One turn of the list overload's loop, with the loop's bookkeeping:
      the outcomes so far grow by this try's, or the whole loop fails. */
  method ConnectStep(layers: seq<Layer>, i: int, ghost before: seq<LayerView>,
                     ghost tries: seq<Outcome<Option<string>>>, ghost outs: seq<Option<string>>)
    returns (ok: Outcome<bool>, ghost outs': seq<Option<string>>)
    requires Documents.Distinct(layers)
    requires |before| == |layers| && 0 <= i < |layers| - 2 && ConnectTriesOf(tries, before)
    requires Tries(tries[..i]) == Ok(outs)
    requires forall j :: 0 <= j < i ==> ViewOf(layers[j]) == Appended(before[j], outs[j])
    requires forall j :: i <= j < |layers| ==> ViewOf(layers[j]) == before[j]
    modifies layers[i]
    ensures ok.Fail? ==> Tries(tries) == Fail(ok.failure)
    ensures ok.Ok? ==>
      && Tries(tries[..i + 1]) == Ok(outs')
      && Successes(outs') == Successes(outs) + (if ok.value then 1 else 0)
      && (forall j :: 0 <= j < i + 1 ==> ViewOf(layers[j]) == Appended(before[j], outs'[j]))
      && (forall j :: i + 1 <= j < |layers| ==> ViewOf(layers[j]) == before[j])
  {
    ok := ConnectPair(layers, i, before, tries);
    assert tries[..i + 1] == tries[..i] + [tries[i]];
    TriesSnoc(tries[..i], tries[i]);
    if ok.Fail? {
      TriesFailStays(tries, i + 1);
      outs' := outs;
      return;
    }
    forall j | 0 <= j < |layers| && j != i
      ensures ViewOf(layers[j]) == old(ViewOf(layers[j]))
    {
      assert layers[j] != layers[i];
    }
    outs' := outs + [tries[i].value];
    assert outs'[..|outs|] == outs;
    assert forall j :: 0 <= j < i ==> outs'[j] == outs[j];
  }

  /** One turn of the list overload's loop: the pair (i, i + 1) is
      connected as its try says, or the loop stops with the exception. */
  method ConnectPair(layers: seq<Layer>, i: int, ghost before: seq<LayerView>,
                     ghost tries: seq<Outcome<Option<string>>>) returns (ok: Outcome<bool>)
    requires 0 <= i < |layers| - 2 && |before| == |layers|
    requires ViewOf(layers[i]) == before[i] && ViewOf(layers[i + 1]) == before[i + 1]
    modifies layers[i]
    ensures ConnectTriesOf(tries, before) ==>
      && (tries[i].Fail? ==> ok == Fail(tries[i].failure))
      && (tries[i].Ok? ==> ok == Ok(tries[i].value.Some?) && ViewOf(layers[i]) == Appended(before[i], tries[i].value))
  {
    ok := ConnectSingleExtrusionLayers(layers[i], layers[i + 1], true, 2.0, 2.0);
  }

  // ---------------------------------------------------------------- weights

  /** `Math.Min(i, count - (i + 1))`: the distance to the nearer end. */
  function EdgeDistance(i: int, count: int): (d: int)
    ensures d <= i && d <= count - (i + 1)
    ensures d == i || d == count - (i + 1)
  {
    if i < count - (i + 1) then i else count - (i + 1)
  }

  /** `Math.Clamp(x, 0, 1)`. */
  function Clamp(x: real): (r: real)
    ensures 0.0 <= r <= 1.0
    ensures 0.0 <= x <= 1.0 ==> r == x
    ensures x < 0.0 ==> r == 0.0
    ensures x > 1.0 ==> r == 1.0
  {
    if x < 0.0 then 0.0 else if x > 1.0 then 1.0 else x
  }

  /** The weight of layer `i` of a group of `count` layers:
      `Math.Clamp((float)edgeDistance / transitionLayerCount, 0, 1)`. With a
      zero transition count the division gives infinity, clamped to 1, or
      NaN for an end layer, which is `None`. */
  function Weight(i: int, count: int, transition: int): (w: Option<real>)
    ensures w.None? <==> transition == 0 && EdgeDistance(i, count) == 0
    ensures w.Some? ==> 0.0 <= w.value <= 1.0
  {
    var edge := EdgeDistance(i, count);
    if transition == 0 then
      if edge == 0 then None else if edge > 0 then Some(1.0) else Some(0.0)
    else Some(Clamp(edge as real / transition as real))
  }

  /** The ramp is symmetric: a layer and its mirror image get the same weight. */
  lemma WeightSymmetric(i: int, count: int, transition: int)
    ensures Weight(i, count, transition) == Weight(count - 1 - i, count, transition)
  {
    assert EdgeDistance(i, count) == EdgeDistance(count - 1 - i, count);
  }

  /** Both end layers of a group get weight 0; a layer at least
      `transition` layers from both ends gets the full weight 1. */
  lemma WeightRamp(i: int, count: int, transition: int)
    requires transition != 0 && 0 <= i < count
    ensures Weight(0, count, transition) == Some(0.0)
    ensures Weight(count - 1, count, transition) == Some(0.0)
    ensures 0 < transition <= EdgeDistance(i, count) ==> Weight(i, count, transition) == Some(1.0)
  {
    if 0 < transition <= EdgeDistance(i, count) {
      var t := transition as real;
      DivideMonotone(t, EdgeDistance(i, count) as real, t);
      DivideSelf(t);
    }
  }

  // ------------------------------------------------------------- vase layer

  /** Moves after the first that lack Z: the ones `VaseLayer` rewrites. */
  predicate MissingZ(cms: seq<MoveCommand>) {
    exists i :: 1 <= i < |cms| && cms[i].Z.None?
  }

  /** Every move from the second up to move `n` has its own Z. */
  predicate HasZUpTo(cms: seq<MoveCommand>, n: nat) {
    forall j :: 1 <= j <= n && j < |cms| ==> cms[j].Z.Some?
  }

  /** The progress of move `i`: the path length up to it over the total. */
  function Progress(cms: seq<MoveCommand>, i: nat, total: real, num: Numerics): real
    requires i < |cms| && total != 0.0
  {
    PathLength(cms[..i + 1], num) / total
  }

  /** Move `i` with the Z of the ramp: start Z plus the rise times progress. */
  function Ramped(cms: seq<MoveCommand>, i: nat, startZ: real, rise: real, total: real, num: Numerics): MoveCommand
    requires i < |cms| && total != 0.0
  {
    cms[i].(Z := Some(RampZ(startZ, rise, Progress(cms, i, total, num))))
  }

  /** The Z the ramp gives at a progress. */
  function RampZ(startZ: real, rise: real, progress: real): real {
    startZ + rise * progress
  }

  /** How far a layer's ramp climbs: its height times the weight (the
      weight is only read once a move is rewritten). */
  function Rise(height: real, weight: Option<real>): real {
    height * weight.GetOr(0.0)
  }

  /** The lines after the loop of `VaseLayer` handled the moves 1..n. */
  function Retarget(lines: seq<string>, cms: seq<MoveCommand>, n: nat, startZ: real, rise: real, total: real,
                    num: Numerics): (r: seq<string>)
    requires n < |cms|
    requires forall i :: 0 <= i < |cms| ==> 0 <= cms[i].LineIndex < |lines|
    requires total != 0.0 || forall i :: 1 <= i <= n ==> cms[i].Z.Some?
    ensures |r| == |lines|
  {
    if n == 0 then lines
    else
      var prev := Retarget(lines, cms, n - 1, startZ, rise, total, num);
      if cms[n].Z.Some? then prev
      else prev[cms[n].LineIndex := Serialize(Ramped(cms, n, startZ, rise, total, num), num)]
  }

  /** `VaseLayer(layer, weight)` on the layer's state. */
  function VaseLines(v: LayerView, weight: Option<real>): (r: Outcome<seq<string>>)
    ensures r == Fail(BadMoveLine) <==> Moves2D(v).None?
    ensures r == Fail(IndexOutOfRange) <==> Moves2D(v) == Some([])
    ensures r == Fail(NonFinite) <==>
      && Moves2D(v).Some? && |Moves2D(v).value| > 0 && MissingZ(Moves2D(v).value)
      && (weight.None? || PathLength(Moves2D(v).value, v.num) == 0.0)
    ensures r.Ok? ==> |r.value| == |v.lines|
  {
    match Moves2D(v)
    case None => Fail(BadMoveLine)
    case Some(cms) =>
      if |cms| == 0 then Fail(IndexOutOfRange)
      else
        var total := PathLength(cms, v.num);
        if MissingZ(cms) && (weight.None? || total == 0.0) then Fail(NonFinite)
        else
          ProjectionIndices(v.lines, true, v.num);
          Ok(Retarget(v.lines, cms, |cms| - 1, v.z, Rise(v.height, weight), total, v.num))
  }

  /** What the loop changes: the line of each move after the first that lacks
      Z becomes that move with the ramp's Z; every other line is kept. */
  lemma {:induction false} RetargetLines(lines: seq<string>, cms: seq<MoveCommand>, n: nat, startZ: real,
                                         rise: real, total: real, num: Numerics)
    requires n < |cms|
    requires forall i :: 0 <= i < |cms| ==> 0 <= cms[i].LineIndex < |lines|
    requires forall i, j :: 0 <= i < j < |cms| ==> cms[i].LineIndex < cms[j].LineIndex
    requires total != 0.0 || forall i :: 1 <= i <= n ==> cms[i].Z.Some?
    ensures var r := Retarget(lines, cms, n, startZ, rise, total, num);
      && (forall i :: 1 <= i <= n && cms[i].Z.None? ==>
            total != 0.0 && r[cms[i].LineIndex] == Serialize(Ramped(cms, i, startZ, rise, total, num), num))
      && (forall k :: 0 <= k < |lines| && (forall i :: 1 <= i <= n && cms[i].LineIndex == k ==> cms[i].Z.Some?) ==>
            r[k] == lines[k])
  {
    if n > 0 {
      RetargetLines(lines, cms, n - 1, startZ, rise, total, num);
    }
  }

  /** `VaseLayer` rewrites exactly the lines of the 2D moves after the first
      that lack Z, each to that move with Z = LayerZ + LayerHeight * weight
      * progress, and leaves every other line unchanged. */
  lemma VaseLayerRewrites(v: LayerView, weight: Option<real>)
    requires VaseLines(v, weight).Ok?
    ensures var cms := Moves2D(v).value;
      var total := PathLength(cms, v.num);
      var r := VaseLines(v, weight).value;
      && (forall i :: 1 <= i < |cms| && cms[i].Z.None? ==>
            && weight.Some? && total != 0.0 && 0 <= cms[i].LineIndex < |r|
            && r[cms[i].LineIndex] == Serialize(Ramped(cms, i, v.z, Rise(v.height, weight), total, v.num), v.num))
      && (forall k :: 0 <= k < |v.lines| && (forall i :: 1 <= i < |cms| && cms[i].LineIndex == k ==> cms[i].Z.Some?) ==>
            r[k] == v.lines[k])
  {
    var cms := Moves2D(v).value;
    var total := PathLength(cms, v.num);
    ProjectionIndices(v.lines, true, v.num);
    assert MissingZ(cms) ==> weight.Some? && total != 0.0;
    RewritesOf(v.lines, cms, VaseLines(v, weight).value, weight.Some?, v.z, Rise(v.height, weight), total, v.num);
  }

  /** The lines the loop of `VaseLayer` leaves, once it has handled every
      move: `defined` says whether the weight is a number. */
  lemma RewritesOf(lines: seq<string>, cms: seq<MoveCommand>, r: seq<string>, defined: bool,
                   startZ: real, rise: real, total: real, num: Numerics)
    requires |cms| > 0
    requires forall i :: 0 <= i < |cms| ==> 0 <= cms[i].LineIndex < |lines|
    requires forall i, j :: 0 <= i < j < |cms| ==> cms[i].LineIndex < cms[j].LineIndex
    requires MissingZ(cms) ==> defined && total != 0.0
    requires r == Retarget(lines, cms, |cms| - 1, startZ, rise, total, num)
    ensures forall i :: 1 <= i < |cms| && cms[i].Z.None? ==>
      && defined && total != 0.0 && 0 <= cms[i].LineIndex < |r|
      && r[cms[i].LineIndex] == Serialize(Ramped(cms, i, startZ, rise, total, num), num)
    ensures forall k :: 0 <= k < |lines| && (forall i :: 1 <= i < |cms| && cms[i].LineIndex == k ==> cms[i].Z.Some?) ==>
      r[k] == lines[k]
  {
    RetargetLines(lines, cms, |cms| - 1, startZ, rise, total, num);
    forall i | 1 <= i < |cms| && cms[i].Z.None?
      ensures defined && total != 0.0
    {
      assert MissingZ(cms);
    }
  }

  /** When no move needs a ramp that cannot be computed, `VaseLayer`
      succeeds with the lines the loop leaves. */
  lemma VaseLinesRamp(v: LayerView, weight: Option<real>, cms: seq<MoveCommand>)
    requires Moves2D(v) == Some(cms) && |cms| > 0
    requires forall i :: 0 <= i < |cms| ==> 0 <= cms[i].LineIndex < |v.lines|
    requires MissingZ(cms) ==> weight.Some? && PathLength(cms, v.num) != 0.0
    ensures VaseLines(v, weight)
      == Ok(Retarget(v.lines, cms, |cms| - 1, v.z, Rise(v.height, weight), PathLength(cms, v.num), v.num))
  {
  }

  /** The progress never falls, stays within [0, 1] and reaches 1 at the
      last move. */
  lemma ProgressRamp(cms: seq<MoveCommand>, i: nat, j: nat, num: Numerics)
    requires SqrtNonNegative(num)
    requires i <= j < |cms| && PathLength(cms, num) != 0.0
    ensures var total := PathLength(cms, num);
      0.0 <= Progress(cms, i, total, num) <= Progress(cms, j, total, num) <= 1.0
    ensures Progress(cms, |cms| - 1, PathLength(cms, num), num) == 1.0
  {
    var total := PathLength(cms, num);
    var x, y := PathLength(cms[..i + 1], num), PathLength(cms[..j + 1], num);
    assert 0.0 <= x <= y <= total by {
      PrefixMonotone(cms, i + 1, j + 1, num);
      PrefixMonotone(cms, j + 1, |cms|, num);
      assert cms[..|cms|] == cms;
    }
    DivideMonotone(x, y, total);
    DivideMonotone(y, total, total);
    DivideSelf(total);
    assert Progress(cms, i, total, num) == x / total;
    assert Progress(cms, j, total, num) == y / total;
    assert Progress(cms, |cms| - 1, total, num) == total / total by {
      assert cms[..|cms|] == cms;
    }
  }

  lemma DivideSelf(t: real)
    requires t != 0.0
    ensures t / t == 1.0
  {
  }

  /** A longer prefix of a path is at least as long. */
  lemma PrefixMonotone(cms: seq<MoveCommand>, i: nat, j: nat, num: Numerics)
    requires SqrtNonNegative(num)
    requires i <= j <= |cms|
    ensures 0.0 <= PathLength(cms[..i], num) <= PathLength(cms[..j], num)
  {
    PathLengthMonotone(cms[..j], i, num);
    assert cms[..j][..i] == cms[..i];
  }

  lemma DivideMonotone(x: real, y: real, t: real)
    requires 0.0 <= x <= y && 0.0 < t
    ensures 0.0 <= x / t <= y / t
  {
    assert y / t - x / t == (y - x) / t;
  }

  /** The method: one pass over the 2D moves, adding up the distance walked
      and rewriting each move after the first that lacks Z. */
  method VaseLayer(layer: Layer, weight: Option<real>) returns (fault: Option<Failure>)
    modifies layer
    ensures var v := old(VaseLines(ViewOf(layer), weight));
      && (v.Fail? ==> fault == Some(v.failure) && layer.AllLines == old(layer.AllLines))
      && (v.Ok? ==> fault.None? && layer.AllLines == v.value)
  {
    var commands := layer.GetAllMoveCommands(true);
    if commands.None? {
      return Some(BadMoveLine);
    }
    var cms := commands.value;
    if |cms| == 0 {
      return Some(IndexOutOfRange);
    }
    ghost var view := ViewOf(layer);
    ProjectionIndices(view.lines, true, layer.num);
    var totalLength := Moves.GetLength(cms, layer.num);
    fault := RampMoves(layer, cms, weight, totalLength);
    if fault.None? {
      VaseLinesRamp(view, weight, cms);
    }
  }

  /** The loop of `VaseLayer` over the 2D moves `cms` of the layer. */
  method RampMoves(layer: Layer, cms: seq<MoveCommand>, weight: Option<real>, totalLength: real)
    returns (fault: Option<Failure>)
    requires |cms| > 0 && totalLength == PathLength(cms, layer.num)
    requires forall i :: 0 <= i < |cms| ==> 0 <= cms[i].LineIndex < |layer.AllLines|
    modifies layer
    ensures fault == Some(NonFinite) <==> MissingZ(cms) && (weight.None? || totalLength == 0.0)
    ensures fault.None? || fault == Some(NonFinite)
    ensures fault.Some? ==> layer.AllLines == old(layer.AllLines)
    ensures fault.None? ==>
      layer.AllLines == Retarget(old(layer.AllLines), cms, |cms| - 1, layer.LayerZ, Rise(layer.LayerHeight, weight),
                                 totalLength, layer.num)
  {
    ghost var lines := layer.AllLines;
    var startZ := layer.LayerZ;
    // Only used once a move is rewritten, which faults first without a weight.
    var rise := Rise(layer.LayerHeight, weight);
    var totalMovement := 0.0;
    var i := 0;
    while i < |cms| - 1
      invariant 0 <= i <= |cms| - 1
      invariant totalMovement == PathLength(cms[..i + 1], layer.num)
      invariant weight.None? || totalLength == 0.0 ==> HasZUpTo(cms, i) && layer.AllLines == lines
      invariant layer.AllLines == Retarget(lines, cms, i, startZ, rise, totalLength, layer.num)
    {
      fault, totalMovement := RampTurn(layer, cms, i, weight, totalLength, startZ, rise, totalMovement, lines);
      if fault.Some? {
        return;
      }
      i := i + 1;
    }
    assert weight.None? || totalLength == 0.0 ==> !MissingZ(cms);
    return None;
  }

  /** One turn of that loop: the distance walked grows by the next segment,
      and the next move, when it lacks Z, is rewritten or faults. */
  method RampTurn(layer: Layer, cms: seq<MoveCommand>, i: nat, weight: Option<real>, totalLength: real,
                  startZ: real, rise: real, totalMovement: real, ghost lines: seq<string>)
    returns (fault: Option<Failure>, totalMovement': real)
    requires i < |cms| - 1 && totalLength == PathLength(cms, layer.num)
    requires forall j :: 0 <= j < |cms| ==> 0 <= cms[j].LineIndex < |lines|
    requires totalMovement == PathLength(cms[..i + 1], layer.num)
    requires weight.None? || totalLength == 0.0 ==> HasZUpTo(cms, i)
    requires layer.AllLines == Retarget(lines, cms, i, startZ, rise, totalLength, layer.num)
    modifies layer
    ensures fault.Some? ==> fault == Some(NonFinite) && MissingZ(cms) && (weight.None? || totalLength == 0.0)
    ensures fault.Some? || weight.None? || totalLength == 0.0 ==> layer.AllLines == old(layer.AllLines)
    ensures fault.None? ==>
      && totalMovement' == PathLength(cms[..i + 2], layer.num)
      && (weight.None? || totalLength == 0.0 ==> HasZUpTo(cms, i + 1))
      && layer.AllLines == Retarget(lines, cms, i + 1, startZ, rise, totalLength, layer.num)
  {
    assert cms[..i + 2][..i + 1] == cms[..i + 1];
    totalMovement' := totalMovement + GetDistance(cms[i], cms[i + 1], layer.num);
    var to := cms[i + 1];
    if to.Z.None? {
      if weight.None? || totalLength == 0.0 {
        assert MissingZ(cms) by {
          assert 1 <= i + 1 < |cms| && cms[i + 1].Z.None?;
        }
        return Some(NonFinite), totalMovement';
      }
      var progress := totalMovement' / totalLength;
      RampMove(layer, cms, i + 1, startZ, rise, totalLength, progress, lines);
    }
    return None, totalMovement';
  }

  /** One rewrite of that loop: move `n` gets the ramp's Z at `progress`. */
  method RampMove(layer: Layer, cms: seq<MoveCommand>, n: nat, startZ: real, rise: real, totalLength: real,
                  progress: real, ghost lines: seq<string>)
    requires 0 < n < |cms| && cms[n].Z.None? && totalLength != 0.0
    requires progress == Progress(cms, n, totalLength, layer.num)
    requires forall i :: 0 <= i < |cms| ==> 0 <= cms[i].LineIndex < |lines|
    requires layer.AllLines == Retarget(lines, cms, n - 1, startZ, rise, totalLength, layer.num)
    modifies layer
    ensures layer.AllLines == Retarget(lines, cms, n, startZ, rise, totalLength, layer.num)
  {
    var to := cms[n];
    assert to.(Z := Some(RampZ(startZ, rise, progress))) == Ramped(cms, n, startZ, rise, totalLength, layer.num);
    var ok := layer.Update(to.(Z := Some(RampZ(startZ, rise, progress))));
  }

  // --------------------------------------------------------- vase a group

  /** The first `k` tries of `VaseLayersInternal`: each layer of the group
      ramped with its weight. */
  function VaseTries(vs: seq<LayerView>, transition: int, k: nat): (r: seq<Outcome<seq<string>>>)
    requires k <= |vs|
    ensures |r| == k
  {
    if k == 0 then [] else VaseTries(vs, transition, k - 1) + [VaseLines(vs[k - 1], Weight(k - 1, |vs|, transition))]
  }

  lemma {:induction false} VaseTriesAt(vs: seq<LayerView>, transition: int, k: nat, i: nat)
    requires i < k <= |vs|
    ensures VaseTries(vs, transition, k)[i] == VaseLines(vs[i], Weight(i, |vs|, transition))
  {
    if i < k - 1 {
      VaseTriesAt(vs, transition, k - 1, i);
    }
  }

  /** `VaseLayersInternal` on a group: the new lines of each layer, or the
      first fault. */
  function VaseGroup(vs: seq<LayerView>, transition: int): Outcome<seq<seq<string>>> {
    Tries(VaseTries(vs, transition, |vs|))
  }

  /** `VaseGroup` as the step the group finder takes at each group. */
  function VaseGroupOf(transition: int): (r: seq<LayerView> -> Outcome<seq<seq<string>>>)
    ensures forall g :: r(g) == VaseGroup(g, transition)
  {
    g => VaseGroup(g, transition)
  }

  /** `VaseLayersInternal(group, transition, align)` without the alignment:
      each layer of the group is ramped with its weight. */
  method VaseLayersInternal(group: seq<Layer>, transition: int, ghost before: seq<LayerView>)
    returns (fault: Option<Failure>)
    requires Documents.Distinct(group)
    requires |before| == |group| && forall j :: 0 <= j < |group| ==> ViewOf(group[j]) == before[j]
    modifies set l | l in group
    ensures var g := VaseGroup(before, transition);
      && (g.Fail? ==> fault == Some(g.failure))
      && (g.Ok? ==> fault.None? && forall j :: 0 <= j < |group| ==> ViewOf(group[j]) == before[j].(lines := g.value[j]))
  {
    VaseTriesAll(before, transition);
    fault := VaseEach(group, transition, before, VaseTries(before, transition, |before|));
  }

  /** The tries of `VaseLayersInternal` as values: try k ramps layer k with
      its weight. */
  ghost predicate VaseTriesOf(tries: seq<Outcome<seq<string>>>, vs: seq<LayerView>, transition: int) {
    && |tries| == |vs|
    && forall k {:trigger VaseLines(vs[k], Weight(k, |vs|, transition))} :: 0 <= k < |tries| ==>
         tries[k] == VaseLines(vs[k], Weight(k, |vs|, transition))
  }

  lemma VaseTriesAll(vs: seq<LayerView>, transition: int)
    ensures VaseTriesOf(VaseTries(vs, transition, |vs|), vs, transition)
  {
    forall k | 0 <= k < |vs|
      ensures VaseTries(vs, transition, |vs|)[k] == VaseLines(vs[k], Weight(k, |vs|, transition))
    {
      VaseTriesAt(vs, transition, |vs|, k);
    }
  }

  /** The loop of `VaseLayersInternal`, given its tries as values. */
  method VaseEach(group: seq<Layer>, transition: int, ghost before: seq<LayerView>,
                  ghost tries: seq<Outcome<seq<string>>>) returns (fault: Option<Failure>)
    requires Documents.Distinct(group)
    requires |before| == |group| && forall j :: 0 <= j < |group| ==> ViewOf(group[j]) == before[j]
    requires VaseTriesOf(tries, before, transition)
    modifies set l | l in group
    ensures var t := Tries(tries);
      && (t.Fail? ==> fault == Some(t.failure))
      && (t.Ok? ==> fault.None? && forall j :: 0 <= j < |group| ==> ViewOf(group[j]) == before[j].(lines := t.value[j]))
  {
    ghost var done: seq<seq<string>> := [];
    var count := |group|;
    var i := 0;
    while i < count
      invariant 0 <= i <= count
      invariant Tries(tries[..i]) == Ok(done)
      invariant forall j :: 0 <= j < i ==> ViewOf(group[j]) == before[j].(lines := done[j])
      invariant forall j :: i <= j < count ==> ViewOf(group[j]) == before[j]
    {
      fault, done := VaseStep(group, i, transition, before, tries, done);
      if fault.Some? {
        return;
      }
      i := i + 1;
    }
    assert tries[..i] == tries;
    fault := None;
  }

  /** One turn of that loop, with the loop's bookkeeping: the new lines so
      far grow by this try's, or the whole loop fails. */
  method VaseStep(group: seq<Layer>, i: int, transition: int, ghost before: seq<LayerView>,
                  ghost tries: seq<Outcome<seq<string>>>, ghost done: seq<seq<string>>)
    returns (fault: Option<Failure>, ghost done': seq<seq<string>>)
    requires Documents.Distinct(group)
    requires |before| == |group| && 0 <= i < |group| && VaseTriesOf(tries, before, transition)
    requires Tries(tries[..i]) == Ok(done)
    requires forall j :: 0 <= j < i ==> ViewOf(group[j]) == before[j].(lines := done[j])
    requires forall j :: i <= j < |group| ==> ViewOf(group[j]) == before[j]
    modifies group[i]
    ensures fault.Some? ==> Tries(tries) == Fail(fault.value)
    ensures fault.None? ==>
      && Tries(tries[..i + 1]) == Ok(done')
      && (forall j :: 0 <= j < i + 1 ==> ViewOf(group[j]) == before[j].(lines := done'[j]))
      && (forall j :: i + 1 <= j < |group| ==> ViewOf(group[j]) == before[j])
  {
    var weight := Weight(i, |group|, transition);
    fault := VaseOne(group, i, weight, transition, before, tries);
    assert tries[..i + 1] == tries[..i] + [tries[i]];
    TriesSnoc(tries[..i], tries[i]);
    if fault.Some? {
      TriesFailStays(tries, i + 1);
      done' := done;
      return;
    }
    forall j | 0 <= j < |group| && j != i
      ensures ViewOf(group[j]) == old(ViewOf(group[j]))
    {
      assert group[j] != group[i];
    }
    done' := done + [tries[i].value];
    assert forall j :: 0 <= j < i ==> done'[j] == done[j];
  }

  /** One turn of that loop: layer `i` is ramped as its try says. */
  method VaseOne(group: seq<Layer>, i: int, weight: Option<real>, transition: int, ghost before: seq<LayerView>,
                 ghost tries: seq<Outcome<seq<string>>>) returns (fault: Option<Failure>)
    requires 0 <= i < |group| && |before| == |group| && ViewOf(group[i]) == before[i]
    requires weight == Weight(i, |group|, transition)
    modifies group[i]
    ensures VaseTriesOf(tries, before, transition) ==>
      && (tries[i].Fail? ==> fault == Some(tries[i].failure))
      && (tries[i].Ok? ==> fault.None? && ViewOf(group[i]) == before[i].(lines := tries[i].value))
  {
    fault := VaseLayer(group[i], weight);
  }

  // ------------------------------------------------------- the group finder

  /** What one turn of the `VaseLayers` loop does: move the start on, grow
      the group's end, change nothing (or only the end), or vase the group
      from the start to `end`. */
  datatype Turn = NextStart | GrowTo(end: int) | Idle(end: int) | Process(end: int)

  /** The single-extrusion test of each layer. */
  function Flags(vs: seq<LayerView>): (r: seq<Option<bool>>)
    ensures |r| == |vs|
  {
    seq(|vs|, i requires 0 <= i < |vs| => Single(vs[i]))
  }

  /** One turn of the loop at start `gs` and end `ge`, given the
      single-extrusion test of each layer. */
  function Step(flags: seq<Option<bool>>, transition: int, gs: int, ge: int): (r: Outcome<Turn>)
    requires 0 <= gs < |flags| && 0 <= ge < |flags|
    ensures r == Ok(NextStart) <==> flags[gs] == Some(false)
    ensures r.Ok? && r.value.GrowTo? ==> ge < r.value.end < |flags| && gs < r.value.end
    ensures r.Ok? && r.value.Idle? ==>
      (ge >= gs && r.value.end == ge) || (ge < gs && r.value.end == gs + 1)
    ensures r.Ok? && r.value.Process? ==>
      && flags[gs] == Some(true) && r.value.end - gs > transition * 2
      && ge <= r.value.end <= |flags| && gs <= r.value.end
  {
    match flags[gs]
    case None => Fail(BadMoveLine)
    case Some(s) =>
      if !s then Ok(NextStart)
      else
        var end := if ge < gs then gs + 1 else ge;
        if end + 1 < |flags| && flags[end + 1].None? then Fail(BadMoveLine)
        else if end + 1 < |flags| && flags[end + 1] == Some(true) then Ok(GrowTo(end + 1))
        else if end - gs > transition * 2 then Ok(Process(end))
        else Ok(Idle(end))
  }

  /** The layers with those from `start` on given new lines. */
  function Relined(vs: seq<LayerView>, start: int, newLines: seq<seq<string>>): (r: seq<LayerView>)
    requires 0 <= start
    ensures |r| == |vs|
    ensures forall j :: 0 <= j < |vs| ==>
      r[j] == if start <= j < start + |newLines| then vs[j].(lines := newLines[j - start]) else vs[j]
  {
    seq(|vs|, j requires 0 <= j < |vs| =>
      if start <= j < start + |newLines| then vs[j].(lines := newLines[j - start]) else vs[j])
  }

  /** The `VaseLayers` loop from start `gs` and end `ge`, with the groups
      already vased: the groups and the layers at the end of the loop.
      `flags` are the single-extrusion tests of the layers as they were
      before the loop: the loop only tests layers at or after `gs`, which
      no vased group has changed. */
  function VaseFrom(vs: seq<LayerView>, flags: seq<Option<bool>>, vase: seq<LayerView> -> Outcome<seq<seq<string>>>,
                    transition: int, gs: int, ge: int, groups: seq<(int, int)>)
    : (r: Outcome<(seq<(int, int)>, seq<LayerView>)>)
    requires |flags| == |vs| && 0 <= gs <= |vs| && 0 <= ge <= |vs|
    ensures r.Ok? ==> |r.value.1| == |vs|
    decreases 2 * |vs| - gs - ge
  {
    if gs >= |vs| || ge >= |vs| then Ok((groups, vs))
    else
      match Step(flags, transition, gs, ge)
      case Fail(f) => Fail(f)
      case Ok(turn) =>
        match turn
        case NextStart => VaseFrom(vs, flags, vase, transition, gs + 1, ge, groups)
        case GrowTo(e) => VaseFrom(vs, flags, vase, transition, gs, e, groups)
        case Idle(e) => if e == ge then Fail(Hangs) else VaseFrom(vs, flags, vase, transition, gs, e, groups)
        case Process(e) =>
          // the log line reads `layers[groupEnd]`
          if e >= |vs| then Fail(IndexOutOfRange)
          else
            match vase(vs[gs..e + 1])
            case Fail(f) => Fail(f)
            case Ok(newLines) =>
              VaseFrom(Relined(vs, gs, newLines), flags, vase, transition, e + 1, e, groups + [(gs, e)])
  }

  /** The total of `VaseLayers`: the sizes of the groups vased. */
  function GroupSizes(groups: seq<(int, int)>): int {
    if |groups| == 0 then 0
    else GroupSizes(groups[..|groups| - 1]) + (groups[|groups| - 1].1 - groups[|groups| - 1].0 + 1)
  }

  function Counted(o: Outcome<(seq<(int, int)>, seq<LayerView>)>): (r: Outcome<(int, seq<LayerView>)>)
    ensures o.Fail? ==> r == Fail(o.failure)
    ensures o.Ok? ==> r.Ok? && r.value.1 == o.value.1
  {
    match o
    case Fail(f) => Fail(f)
    case Ok(found) => Ok((GroupSizes(found.0), found.1))
  }

  /** The `VaseLayers` loop over `vs`. */
  function VaseAll(vs: seq<LayerView>, transition: int): (r: Outcome<(int, seq<LayerView>)>)
    ensures r.Ok? ==> |r.value.1| == |vs|
  {
    Counted(VaseFrom(vs, Flags(vs), VaseGroupOf(transition), transition, 0, 0, []))
  }

  /** `VaseLayers(layers, transition, connect)`: the count it returns and the
      layers after it. */
  function VaseLayersOf(vs: seq<LayerView>, transition: int, connect: bool): (r: Outcome<(int, seq<LayerView>)>)
    ensures r.Ok? ==> |r.value.1| == |vs|
  {
    if connect then
      match ConnectAllOf(vs)
      case Fail(f) => Fail(f)
      case Ok(connected) =>
        if connected.0 < transition * 2 then Ok((0, connected.1))
        else VaseAll(connected.1, transition)
    else VaseAll(vs, transition)
  }

  /** The groups found: each starts at a single-extrusion layer at or after
      the start, ends inside the list after more than 2 * transition further
      layers, and lies wholly before the next one. */
  ghost predicate GroupsFound(flags: seq<Option<bool>>, transition: int, gs: int, news: seq<(int, int)>) {
    && (forall k :: 0 <= k < |news| ==>
          && 0 <= gs <= news[k].0 <= news[k].1 < |flags| && news[k].1 - news[k].0 > transition * 2
          && flags[news[k].0] == Some(true))
    && (forall k, m :: 0 <= k < m < |news| ==> news[k].1 < news[m].0)
  }

  lemma GroupsFoundEarlier(flags: seq<Option<bool>>, transition: int, gs: int, gs': int, news: seq<(int, int)>)
    requires 0 <= gs <= gs' && GroupsFound(flags, transition, gs', news)
    ensures GroupsFound(flags, transition, gs, news)
  {
  }

  lemma GroupsFoundCons(flags: seq<Option<bool>>, transition: int, gs: int, e: int, news: seq<(int, int)>)
    requires 0 <= gs <= e < |flags| && e - gs > transition * 2 && flags[gs] == Some(true)
    requires GroupsFound(flags, transition, e + 1, news)
    ensures GroupsFound(flags, transition, gs, [(gs, e)] + news)
  {
    var all := [(gs, e)] + news;
    forall k | 0 < k < |all|
      ensures all[k] == news[k - 1] && e < all[k].0
    {
    }
  }

  lemma {:induction false} VaseGroupsShape(vs: seq<LayerView>, flags: seq<Option<bool>>, vase: seq<LayerView> -> Outcome<seq<seq<string>>>,
                                            transition: int, gs: int, ge: int, groups: seq<(int, int)>)
    requires |flags| == |vs| && 0 <= gs <= |vs| && 0 <= ge <= |vs|
    requires VaseFrom(vs, flags, vase, transition, gs, ge, groups).Ok?
    ensures var out := VaseFrom(vs, flags, vase, transition, gs, ge, groups).value.0;
      && |groups| <= |out| && out[..|groups|] == groups
      && GroupsFound(flags, transition, gs, out[|groups|..])
    decreases 2 * |vs| - gs - ge
  {
    if gs < |vs| && ge < |vs| {
      var turn := Step(flags, transition, gs, ge).value;
      match turn
      case NextStart =>
        VaseGroupsShape(vs, flags, vase, transition, gs + 1, ge, groups);
        var out := VaseFrom(vs, flags, vase, transition, gs + 1, ge, groups).value.0;
        GroupsFoundEarlier(flags, transition, gs, gs + 1, out[|groups|..]);
      case GrowTo(e) =>
        VaseGroupsShape(vs, flags, vase, transition, gs, e, groups);
      case Idle(e) =>
        VaseGroupsShape(vs, flags, vase, transition, gs, e, groups);
      case Process(e) =>
        var newLines := vase(vs[gs..e + 1]).value;
        var ws := Relined(vs, gs, newLines);
        var groups' := groups + [(gs, e)];
        VaseGroupsShape(ws, flags, vase, transition, e + 1, e, groups');
        var out := VaseFrom(ws, flags, vase, transition, e + 1, e, groups').value.0;
        assert out == VaseFrom(vs, flags, vase, transition, gs, ge, groups).value.0;
        assert out[..|groups|] == groups' [..|groups|] == groups;
        assert out[|groups|..] == [(gs, e)] + out[|groups'|..];
        GroupsFoundCons(flags, transition, gs, e, out[|groups'|..]);
    } else {
      assert VaseFrom(vs, flags, vase, transition, gs, ge, groups).value.0 == groups;
      assert groups[..|groups|] == groups;
    }
  }

  /** Ordered groups inside [lo, hi) hold at most hi - lo layers together. */
  lemma {:induction false} GroupSizesWithin(groups: seq<(int, int)>, lo: int, hi: int)
    requires forall k :: 0 <= k < |groups| ==> lo <= groups[k].0 <= groups[k].1 < hi
    requires forall k, m :: 0 <= k < m < |groups| ==> groups[k].1 < groups[m].0
    ensures 0 <= GroupSizes(groups)
    ensures |groups| > 0 ==> GroupSizes(groups) <= hi - lo
  {
    if |groups| > 0 {
      var last := groups[|groups| - 1];
      var front := groups[..|groups| - 1];
      GroupSizesWithin(front, lo, last.0);
    }
  }

  /** The `VaseLayers` loop vases only groups of more than 2 * transition + 1
      layers that start at a single-extrusion layer, never the same layer
      twice; so its count is at most the number of layers. */
  lemma VaseAllBound(vs: seq<LayerView>, transition: int)
    requires VaseAll(vs, transition).Ok?
    ensures 0 <= VaseAll(vs, transition).value.0 <= |vs|
  {
    VaseGroupsShape(vs, Flags(vs), VaseGroupOf(transition), transition, 0, 0, []);
    var out := VaseFrom(vs, Flags(vs), VaseGroupOf(transition), transition, 0, 0, []).value.0;
    assert out[0..] == out;
    GroupSizesWithin(out, 0, |vs|);
  }

  /** So the count `VaseLayers` returns is at most the number of layers. */
  lemma VaseCountBound(vs: seq<LayerView>, transition: int, connect: bool)
    requires VaseLayersOf(vs, transition, connect).Ok?
    ensures 0 <= VaseLayersOf(vs, transition, connect).value.0 <= |vs|
  {
    if !connect {
      VaseAllBound(vs, transition);
    } else if ConnectAllOf(vs).value.0 >= transition * 2 {
      VaseAllBound(ConnectAllOf(vs).value.1, transition);
    }
  }

  /** A single-extrusion layer whose run is too short (the next layer is
      absent or not single extrusion, and the group spans at most
      2 * transition layers past its start) stops every loop variable: the
      source loops forever there. */
  lemma ShortRunHangs(vs: seq<LayerView>, flags: seq<Option<bool>>, vase: seq<LayerView> -> Outcome<seq<seq<string>>>,
                      transition: int, gs: int, ge: int, groups: seq<(int, int)>)
    requires |flags| == |vs| && 0 <= gs <= ge < |vs|
    requires flags[gs] == Some(true)
    requires ge + 1 == |vs| || flags[ge + 1] == Some(false)
    requires ge - gs <= transition * 2
    ensures VaseFrom(vs, flags, vase, transition, gs, ge, groups) == Fail(Hangs)
  {
    assert Step(flags, transition, gs, ge) == Ok(Idle(ge));
  }

  /** A start that reaches the last layer, single extrusion, with the end
      behind it does not hang: the end jumps to the layer count. With a
      positive transition count the run is too short and the loop ends with
      nothing vased; otherwise the group is processed and the log line reads
      past the end of the list. */
  lemma LastLayerEndsLoop(vs: seq<LayerView>, flags: seq<Option<bool>>, vase: seq<LayerView> -> Outcome<seq<seq<string>>>,
                          transition: int, ge: int, groups: seq<(int, int)>)
    requires |flags| == |vs| && 0 <= ge < |vs| - 1
    requires flags[|vs| - 1] == Some(true)
    ensures transition >= 1 ==> VaseFrom(vs, flags, vase, transition, |vs| - 1, ge, groups) == Ok((groups, vs))
    ensures transition < 1 ==> VaseFrom(vs, flags, vase, transition, |vs| - 1, ge, groups) == Fail(IndexOutOfRange)
  {
    var gs := |vs| - 1;
    if transition >= 1 {
      assert Step(flags, transition, gs, ge) == Ok(Idle(gs + 1));
      assert VaseFrom(vs, flags, vase, transition, gs, gs + 1, groups) == Ok((groups, vs));
    } else {
      assert Step(flags, transition, gs, ge) == Ok(Process(gs + 1));
    }
  }

  /** Two layers, the first not single extrusion, with the transition count 4:
      the loop ends and `VaseLayers` returns 0. */
  lemma TwoLayersNoHang(vs: seq<LayerView>)
    requires |vs| == 2
    requires Flags(vs) == [Some(false), Some(true)]
    ensures VaseAll(vs, 4) == Ok((0, vs))
  {
    var flags, vase := Flags(vs), VaseGroupOf(4);
    assert Step(flags, 4, 0, 0) == Ok(NextStart);
    LastLayerEndsLoop(vs, flags, vase, 4, 0, []);
    assert VaseFrom(vs, flags, vase, 4, 0, 0, []) == Ok(([], vs));
  }

  /** When the start reaches a single-extrusion layer ahead of the end, the
      end jumps past the next layer without testing it: the turn does not
      depend on that layer's test at all. */
  lemma GroupEndUnchecked(flags: seq<Option<bool>>, transition: int, gs: int, ge: int, w: Option<bool>)
    requires 0 <= ge < gs && gs + 1 < |flags|
    requires flags[gs] == Some(true)
    ensures Step(flags[gs + 1 := w], transition, gs, ge) == Step(flags, transition, gs, ge)
  {
    assert flags[gs + 1 := w][gs] == flags[gs];
    if gs + 2 < |flags| {
      assert flags[gs + 1 := w][gs + 2] == flags[gs + 2];
    }
  }

  /** A turn that moves the start or the end on: the loop goes on from there. */
  lemma VaseFromMove(vs: seq<LayerView>, flags: seq<Option<bool>>, vase: seq<LayerView> -> Outcome<seq<seq<string>>>,
                     transition: int, gs: int, ge: int, groups: seq<(int, int)>, gs': int, ge': int)
    requires |flags| == |vs| && 0 <= gs < |vs| && 0 <= ge < |vs|
    requires var s := Step(flags, transition, gs, ge);
      || (s == Ok(NextStart) && gs' == gs + 1 && ge' == ge)
      || (s.Ok? && (s.value.GrowTo? || (s.value.Idle? && s.value.end != ge)) && gs' == gs && ge' == s.value.end)
    ensures 0 <= gs' <= |vs| && 0 <= ge' <= |vs|
    ensures VaseFrom(vs, flags, vase, transition, gs, ge, groups) == VaseFrom(vs, flags, vase, transition, gs', ge', groups)
  {
  }

  /** A turn that faults: the loop ends with the fault. */
  lemma VaseFromStops(vs: seq<LayerView>, flags: seq<Option<bool>>, vase: seq<LayerView> -> Outcome<seq<seq<string>>>,
                      transition: int, gs: int, ge: int, groups: seq<(int, int)>, f: Failure)
    requires |flags| == |vs| && 0 <= gs < |vs| && 0 <= ge < |vs|
    requires var s := Step(flags, transition, gs, ge);
      || s == Fail(f)
      || (s == Ok(Idle(ge)) && f == Hangs)
      || (s.Ok? && s.value.Process? && s.value.end >= |vs| && f == IndexOutOfRange)
      || (s.Ok? && s.value.Process? && s.value.end < |vs| && vase(vs[gs..s.value.end + 1]) == Fail(f))
    ensures VaseFrom(vs, flags, vase, transition, gs, ge, groups) == Fail(f)
  {
  }

  /** A turn that vases the group from `gs` to `e` goes on from `e + 1` with
      the new lines of the group. */
  lemma VaseFromProcess(vs: seq<LayerView>, flags: seq<Option<bool>>, vase: seq<LayerView> -> Outcome<seq<seq<string>>>,
                        transition: int, gs: int, ge: int, groups: seq<(int, int)>, e: int)
    requires |flags| == |vs| && 0 <= gs < |vs| && 0 <= ge < |vs|
    requires Step(flags, transition, gs, ge) == Ok(Process(e)) && e < |vs| && vase(vs[gs..e + 1]).Ok?
    ensures VaseFrom(vs, flags, vase, transition, gs, ge, groups)
         == VaseFrom(Relined(vs, gs, vase(vs[gs..e + 1]).value), flags, vase, transition, e + 1, e, groups + [(gs, e)])
  {
  }

  /** An instance: five layers whose single-extrusion tests are false, true,
      false, true, true, with transition 1. The group vased is layers 1..4,
      including layer 2, which is not single extrusion. */
  lemma NonSingleLayerVased(vs: seq<LayerView>)
    requires |vs| == 5
    requires Flags(vs) == [Some(false), Some(true), Some(false), Some(true), Some(true)]
    requires VaseGroup(vs[1..5], 1).Ok?
    ensures VaseAll(vs, 1) == Ok((4, Relined(vs, 1, VaseGroup(vs[1..5], 1).value)))
  {
    var flags, vase := Flags(vs), VaseGroupOf(1);
    assert Step(flags, 1, 0, 0) == Ok(NextStart);
    assert Step(flags, 1, 1, 0) == Ok(GrowTo(3));
    assert Step(flags, 1, 1, 3) == Ok(GrowTo(4));
    assert Step(flags, 1, 1, 4) == Ok(Process(4));
    assert vase(vs[1..5]) == VaseGroup(vs[1..5], 1);
    var ws := Relined(vs, 1, VaseGroup(vs[1..5], 1).value);
    assert VaseFrom(ws, flags, vase, 1, 5, 4, [(1, 4)]) == Ok(([(1, 4)], ws));
    assert VaseFrom(vs, flags, vase, 1, 1, 4, []) == VaseFrom(ws, flags, vase, 1, 5, 4, [(1, 4)]) by {
      VaseFromProcess(vs, flags, vase, 1, 1, 4, [], 4);
      assert [] + [(1, 4)] == [(1, 4)];
    }
    assert VaseFrom(vs, flags, vase, 1, 1, 3, []) == VaseFrom(vs, flags, vase, 1, 1, 4, []);
    assert VaseFrom(vs, flags, vase, 1, 1, 0, []) == VaseFrom(vs, flags, vase, 1, 1, 3, []);
    assert VaseFrom(vs, flags, vase, 1, 0, 0, []) == Ok(([(1, 4)], ws));
    assert GroupSizes([(1, 4)]) == 4;
  }

  /** With `connect`, too few connections make `VaseLayers` return 0, with
      the connecting lines already appended. */
  lemma ConnectGate(vs: seq<LayerView>, transition: int)
    requires ConnectAllOf(vs).Ok? && ConnectAllOf(vs).value.0 < transition * 2
    ensures VaseLayersOf(vs, transition, true) == Ok((0, ConnectAllOf(vs).value.1))
  {
  }

  // ------------------------------------------------------------ the methods

  /** `flags` are the single-extrusion tests of `vs`. */
  ghost predicate TestsOf(flags: seq<Option<bool>>, vs: seq<LayerView>) {
    && |flags| == |vs|
    && forall k {:trigger Single(vs[k])} :: 0 <= k < |vs| ==> flags[k] == Single(vs[k])
  }

  /** `vase` is `VaseGroup` with `transition`. */
  ghost predicate GroupStepOf(vase: seq<LayerView> -> Outcome<seq<seq<string>>>, transition: int) {
    forall g {:trigger VaseGroup(g, transition)} :: vase(g) == VaseGroup(g, transition)
  }

  /** The tests one turn of the `VaseLayers` loop makes on layers it has not
      changed, and what the turn then does. */
  method NextTurn(layers: seq<Layer>, transition: int, groupStart: int, groupEnd: int,
                  ghost before: seq<LayerView>, ghost flags: seq<Option<bool>>)
    returns (turn: Outcome<Turn>)
    requires 0 <= groupStart < |layers| && 0 <= groupEnd < |layers| && |before| == |layers|
    requires forall j :: groupStart <= j < |layers| ==> ViewOf(layers[j]) == before[j]
    ensures TestsOf(flags, before) ==> turn == Step(flags, transition, groupStart, groupEnd)
  {
    var single := layers[groupStart].IsSingleExtrusion();
    assert single == Single(before[groupStart]);
    if single.None? {
      return Fail(BadMoveLine);
    }
    if !single.value {
      return Ok(NextStart);
    }
    var end := groupEnd;
    if end < groupStart {
      end := groupStart + 1;
    }
    if end + 1 < |layers| {
      var next := layers[end + 1].IsSingleExtrusion();
      assert next == Single(before[end + 1]);
      if next.None? {
        return Fail(BadMoveLine);
      }
      if next.value {
        return Ok(GrowTo(end + 1));
      }
    }
    if end - groupStart > transition * 2 {
      return Ok(Process(end));
    }
    return Ok(Idle(end));
  }

  /** `VaseLayersInternal(layers.Skip(start).Take(count), transition, align)`
      without the alignment: the layers from `start` on get the new lines of
      the group, the others are unchanged. */
  method VaseSlice(layers: seq<Layer>, start: int, count: int, transition: int, ghost cur: seq<LayerView>,
                   ghost vase: seq<LayerView> -> Outcome<seq<seq<string>>>)
    returns (fault: Option<Failure>)
    requires Documents.Distinct(layers) && 0 <= start && 0 <= count && start + count <= |layers|
    requires |cur| == |layers| && forall j :: 0 <= j < |layers| ==> ViewOf(layers[j]) == cur[j]
    requires GroupStepOf(vase, transition)
    modifies set j | start <= j < start + count :: layers[j]
    ensures var g := vase(cur[start..start + count]);
      && (g.Fail? ==> fault == Some(g.failure))
      && (g.Ok? ==> && fault.None? && |g.value| == count
                    && forall j :: 0 <= j < |layers| ==> ViewOf(layers[j]) == Relined(cur, start, g.value)[j])
  {
    var group := layers[start..start + count];
    DistinctSlice(layers, start, start + count);
    ghost var views := cur[start..start + count];
    assert forall j :: 0 <= j < |group| ==> ViewOf(group[j]) == views[j];
    ghost var g := VaseGroup(views, transition);
    assert vase(views) == g;
    label Before:
    fault := VaseLayersInternal(group, transition, views);
    if fault.Some? {
      return;
    }
    forall j | 0 <= j < |layers|
      ensures ViewOf(layers[j]) == Relined(cur, start, g.value)[j]
    {
      if start <= j < start + count {
        assert layers[j] == group[j - start];
      } else {
        OutsideSlice(layers, start, start + count, j);
        assert ViewOf(layers[j]) == old@Before(ViewOf(layers[j]));
      }
    }
  }

  /** The run-finding loop of `VaseLayers`, given the single-extrusion tests
      of the layers and the group step as `VaseFrom` takes them. */
  method VaseGroups(layers: seq<Layer>, transition: int, ghost before: seq<LayerView>,
                    ghost flags: seq<Option<bool>>, ghost vase: seq<LayerView> -> Outcome<seq<seq<string>>>)
    returns (r: Outcome<int>)
    requires Documents.Distinct(layers)
    requires |before| == |layers| && forall j :: 0 <= j < |layers| ==> ViewOf(layers[j]) == before[j]
    requires TestsOf(flags, before) && GroupStepOf(vase, transition)
    modifies set l | l in layers
    ensures var v := Counted(VaseFrom(before, flags, vase, transition, 0, 0, []));
      && (v.Fail? ==> r == Fail(v.failure))
      && (v.Ok? ==> r == Ok(v.value.0) && forall j :: 0 <= j < |layers| ==> ViewOf(layers[j]) == v.value.1[j])
  {
    var total := 0;
    ghost var groups: seq<(int, int)> := [];
    ghost var cur := before;
    var groupStart, groupEnd := 0, 0;
    while groupStart < |layers| && groupEnd < |layers|
      invariant 0 <= groupStart <= |layers| && 0 <= groupEnd <= |layers|
      invariant |cur| == |layers| && forall j :: 0 <= j < |layers| ==> ViewOf(layers[j]) == cur[j]
      invariant forall j :: groupStart <= j < |layers| ==> cur[j] == before[j]
      invariant VaseFrom(cur, flags, vase, transition, groupStart, groupEnd, groups)
             == VaseFrom(before, flags, vase, transition, 0, 0, [])
      invariant total == GroupSizes(groups)
      decreases 2 * |layers| - groupStart - groupEnd
    {
      var turn := NextTurn(layers, transition, groupStart, groupEnd, before, flags);
      match turn
      case Fail(f) =>
        VaseFromStops(cur, flags, vase, transition, groupStart, groupEnd, groups, f);
        return Fail(f);
      case Ok(NextStart) =>
        VaseFromMove(cur, flags, vase, transition, groupStart, groupEnd, groups, groupStart + 1, groupEnd);
        groupStart := groupStart + 1;
      case Ok(GrowTo(e)) =>
        VaseFromMove(cur, flags, vase, transition, groupStart, groupEnd, groups, groupStart, e);
        groupEnd := e;
      case Ok(Idle(e)) =>
        if e == groupEnd {
          // no loop variable changes: the source repeats this turn forever
          VaseFromStops(cur, flags, vase, transition, groupStart, groupEnd, groups, Hangs);
          return Fail(Hangs);
        }
        VaseFromMove(cur, flags, vase, transition, groupStart, groupEnd, groups, groupStart, e);
        groupEnd := e;
      case Ok(Process(e)) =>
        if e >= |layers| {
          // the log line reads `layers[groupEnd]`
          VaseFromStops(cur, flags, vase, transition, groupStart, groupEnd, groups, IndexOutOfRange);
          return Fail(IndexOutOfRange);
        }
        var count := e - groupStart + 1;
        var fault;
        fault, cur, groups := VaseProcess(layers, transition, groupStart, groupEnd, e, before, flags, vase, cur, groups);
        if fault.Some? {
          return Fail(fault.value);
        }
        groupStart, groupEnd := e + 1, e;
        total := total + count;
    }
    return Ok(total);
  }

  /** A turn of that loop that vases the group from the start to `e`, with
      the loop's bookkeeping: the loop goes on after the group with its new
      lines and one more group, or ends with the group's fault. */
  method VaseProcess(layers: seq<Layer>, transition: int, groupStart: int, groupEnd: int, e: int,
                     ghost before: seq<LayerView>, ghost flags: seq<Option<bool>>,
                     ghost vase: seq<LayerView> -> Outcome<seq<seq<string>>>,
                     ghost cur: seq<LayerView>, ghost groups: seq<(int, int)>)
    returns (fault: Option<Failure>, ghost cur': seq<LayerView>, ghost groups': seq<(int, int)>)
    requires Documents.Distinct(layers) && GroupStepOf(vase, transition)
    requires 0 <= groupStart < |layers| && 0 <= groupEnd < |layers| && e < |layers|
    requires |flags| == |layers| && Step(flags, transition, groupStart, groupEnd) == Ok(Process(e))
    requires |cur| == |layers| && forall j :: 0 <= j < |layers| ==> ViewOf(layers[j]) == cur[j]
    requires |before| == |layers| && forall j :: groupStart <= j < |layers| ==> cur[j] == before[j]
    modifies set l | l in layers
    ensures fault.Some? ==> VaseFrom(cur, flags, vase, transition, groupStart, groupEnd, groups) == Fail(fault.value)
    ensures fault.None? ==>
      && |cur'| == |layers| && (forall j :: 0 <= j < |layers| ==> ViewOf(layers[j]) == cur'[j])
      && (forall j :: e + 1 <= j < |layers| ==> cur'[j] == before[j])
      && VaseFrom(cur', flags, vase, transition, e + 1, e, groups')
         == VaseFrom(cur, flags, vase, transition, groupStart, groupEnd, groups)
      && GroupSizes(groups') == GroupSizes(groups) + (e - groupStart + 1)
  {
    var count := e - groupStart + 1;
    ghost var views := cur[groupStart..e + 1];
    assert cur[groupStart..groupStart + count] == views;
    cur', groups' := cur, groups;
    fault := VaseSlice(layers, groupStart, count, transition, cur, vase);
    if fault.Some? {
      VaseFromStops(cur, flags, vase, transition, groupStart, groupEnd, groups, fault.value);
      return;
    }
    VaseFromProcess(cur, flags, vase, transition, groupStart, groupEnd, groups, e);
    assert (groups + [(groupStart, e)])[..|groups|] == groups;
    groups' := groups + [(groupStart, e)];
    cur' := Relined(cur, groupStart, vase(views).value);
  }

  lemma DistinctSlice(layers: seq<Layer>, lo: int, hi: int)
    requires Documents.Distinct(layers) && 0 <= lo <= hi <= |layers|
    ensures Documents.Distinct(layers[lo..hi])
  {
    forall i, j | 0 <= i < j < hi - lo
      ensures layers[lo..hi][i] != layers[lo..hi][j]
    {
      assert layers[lo..hi][i] == layers[lo + i] && layers[lo..hi][j] == layers[lo + j];
    }
  }

  lemma OutsideSlice(layers: seq<Layer>, lo: int, hi: int, j: int)
    requires Documents.Distinct(layers) && 0 <= lo <= hi <= |layers|
    requires 0 <= j < |layers| && !(lo <= j < hi)
    ensures layers[j] !in layers[lo..hi]
  {
    forall k | 0 <= k < hi - lo
      ensures layers[lo..hi][k] != layers[j]
    {
      assert layers[lo..hi][k] == layers[lo + k];
    }
  }

  /** `VaseLayers(layers, transitionLayerCount, connect, align)` without the
      alignment. */
  method VaseLayers(layers: seq<Layer>, transition: int, connect: bool, ghost before: seq<LayerView>)
    returns (r: Outcome<int>)
    requires Documents.Distinct(layers)
    requires |before| == |layers| && forall j :: 0 <= j < |layers| ==> ViewOf(layers[j]) == before[j]
    modifies set l | l in layers
    ensures var v := VaseLayersOf(before, transition, connect);
      && (v.Fail? ==> r == Fail(v.failure))
      && (v.Ok? ==> r == Ok(v.value.0) && forall j :: 0 <= j < |layers| ==> ViewOf(layers[j]) == v.value.1[j])
  {
    ghost var cur := before;
    if connect {
      var connected := ConnectAllSingleExtrusionLayers(layers, before);
      if connected.Fail? {
        return Fail(connected.failure);
      }
      cur := ConnectAllOf(before).value.1;
      if connected.value < transition * 2 {
        return Ok(0);
      }
    }
    r := VaseGroups(layers, transition, cur, Flags(cur), VaseGroupOf(transition));
  }
}
