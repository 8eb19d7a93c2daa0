/**
 * `Layer` of Common/FileController.cs: the lines of one printed layer, owned
 * and rewritten in place, the Z and height its slicer comments declare, and
 * the projection of those lines to the moves they hold.
 */
module Layers {
  import opened Wrappers
  import opened Text
  import opened ParserHelpers
  import opened Moves

  const ZPrefix := ";Z:"
  const HeightPrefix := ";HEIGHT:"

  // ------------------------------------------------------------ declarations

  /** `List.Find` with a prefix test: the first line that starts with `prefix`. */
  function FindLine(lines: seq<string>, prefix: string): (r: Option<nat>)
    ensures r.Some? ==> r.value < |lines| && StartsWith(lines[r.value], prefix)
    ensures forall k :: 0 <= k < (if r.Some? then r.value else |lines|) ==> !StartsWith(lines[k], prefix)
  {
    if |lines| == 0 then None
    else if StartsWith(lines[0], prefix) then Some(0)
    else
      match FindLine(lines[1..], prefix)
      case None => None
      case Some(k) => Some(k + 1)
  }

  /** The number the first line starting with `prefix` carries after it. A layer without
      the declaration, or with text `float.TryParse` rejects, gets 0 (the
      field's default, and the value `TryParse` stores on failure). */
  function DeclaredValue(lines: seq<string>, prefix: string, num: Numerics): (r: real)
    ensures (forall i :: 0 <= i < |lines| ==> !StartsWith(lines[i], prefix)) ==> r == 0.0
    ensures forall k ::
      (0 <= k < |lines| && StartsWith(lines[k], prefix) && forall j :: 0 <= j < k ==> !StartsWith(lines[j], prefix))
      ==> r == num.parse(lines[k][|prefix|..]).GetOr(0.0)
  {
    match FindLine(lines, prefix)
    case None => 0.0
    case Some(k) => num.parse(lines[k][|prefix|..]).GetOr(0.0)
  }

  // -------------------------------------------------------------- projection

  /** Line `i` is returned by `GetAllMoveCommands(only2D)`. */
  predicate Selected(lines: seq<string>, i: int, only2D: bool, num: Numerics) {
    && 0 <= i < |lines|
    && IsMoveCommand(lines[i])
    && ParseLine(lines[i], i, num).Some?
    && (!only2D || ParseLine(lines[i], i, num).value.Can2D())
  }

  /** Line `i` passes the prefix test but its parsing constructor throws. */
  predicate Rejected(lines: seq<string>, i: int, num: Numerics) {
    0 <= i < |lines| && IsMoveCommand(lines[i]) && ParseLine(lines[i], i, num).None?
  }

  /** The moves of the first `k` lines, in line order; `None` where the
      source throws because a line starting "G1" is not a G1 move. */
  function ProjectPrefix(lines: seq<string>, k: nat, only2D: bool, num: Numerics): Option<seq<MoveCommand>>
    requires k <= |lines|
  {
    if k == 0 then Some([])
    else
      match ProjectPrefix(lines, k - 1, only2D, num)
      case None => None
      case Some(prev) =>
        if !IsMoveCommand(lines[k - 1]) then Some(prev)
        else
          match ParseLine(lines[k - 1], k - 1, num)
          case None => None
          case Some(c) => if !only2D || c.Can2D() then Some(prev + [c]) else Some(prev)
  }

  /** `GetAllMoveCommands(only2D)` as a function of the lines. */
  function Projection(lines: seq<string>, only2D: bool, num: Numerics): Option<seq<MoveCommand>> {
    ProjectPrefix(lines, |lines|, only2D, num)
  }

  /** The projection throws exactly when some line passes the prefix test
      without being a G1 move. */
  lemma {:induction false} ProjectPrefixFault(lines: seq<string>, k: nat, only2D: bool, num: Numerics)
    requires k <= |lines|
    ensures ProjectPrefix(lines, k, only2D, num).None? <==> exists i :: 0 <= i < k && Rejected(lines, i, num)
  {
    if k > 0 {
      ProjectPrefixFault(lines, k - 1, only2D, num);
      if ProjectPrefix(lines, k - 1, only2D, num).Some? && Rejected(lines, k - 1, num) {
        assert ProjectPrefix(lines, k, only2D, num).None?;
      }
    }
  }

  /** Every projected move is the parse of a selected line, at that line's index. */
  lemma {:induction false} ProjectPrefixSound(lines: seq<string>, k: nat, only2D: bool, num: Numerics)
    requires k <= |lines| && ProjectPrefix(lines, k, only2D, num).Some?
    ensures var ms := ProjectPrefix(lines, k, only2D, num).value;
      forall j :: 0 <= j < |ms| ==>
        && ms[j].LineIndex < k
        && Selected(lines, ms[j].LineIndex, only2D, num)
        && ms[j] == ParseLine(lines[ms[j].LineIndex], ms[j].LineIndex, num).value
  {
    if k > 0 {
      ProjectPrefixSound(lines, k - 1, only2D, num);
      var ms := ProjectPrefix(lines, k, only2D, num).value;
      var prev := ProjectPrefix(lines, k - 1, only2D, num).value;
      if |ms| > |prev| {
        var c := ParseLine(lines[k - 1], k - 1, num).value;
        assert ms == prev + [c];
        assert Selected(lines, k - 1, only2D, num);
        forall j | 0 <= j < |ms|
          ensures && ms[j].LineIndex < k
                  && Selected(lines, ms[j].LineIndex, only2D, num)
                  && ms[j] == ParseLine(lines[ms[j].LineIndex], ms[j].LineIndex, num).value
        {
          if j < |prev| {
            assert ms[j] == prev[j];
          }
        }
      } else {
        assert ms == prev;
      }
    }
  }

  /** The projected moves are in strictly increasing line order. */
  lemma {:induction false} ProjectPrefixOrdered(lines: seq<string>, k: nat, only2D: bool, num: Numerics)
    requires k <= |lines| && ProjectPrefix(lines, k, only2D, num).Some?
    ensures var ms := ProjectPrefix(lines, k, only2D, num).value;
      forall j1, j2 :: 0 <= j1 < j2 < |ms| ==> ms[j1].LineIndex < ms[j2].LineIndex
  {
    if k > 0 {
      ProjectPrefixOrdered(lines, k - 1, only2D, num);
      ProjectPrefixSound(lines, k - 1, only2D, num);
    }
  }

  /** One more line: its move is appended when it is selected. */
  lemma ProjectPrefixStep(lines: seq<string>, k: nat, only2D: bool, num: Numerics)
    requires 0 < k <= |lines| && ProjectPrefix(lines, k, only2D, num).Some?
    ensures ProjectPrefix(lines, k - 1, only2D, num).Some?
    ensures var ms := ProjectPrefix(lines, k, only2D, num).value;
      var prev := ProjectPrefix(lines, k - 1, only2D, num).value;
      if Selected(lines, k - 1, only2D, num) then ms == prev + [ParseLine(lines[k - 1], k - 1, num).value]
      else ms == prev
  {
  }

  /** Some move of `ms` comes from line `i`. */
  predicate Covers(ms: seq<MoveCommand>, i: int) {
    exists j :: 0 <= j < |ms| && ms[j].LineIndex == i
  }

  /** Appending at most a move of line `k - 1` keeps what was covered and
      covers that line if it was appended. */
  lemma CoversExtend(prev: seq<MoveCommand>, ms: seq<MoveCommand>, k: nat, appended: bool)
    requires appended ==> |ms| == |prev| + 1 && ms[..|prev|] == prev && ms[|prev|].LineIndex == k - 1
    requires !appended ==> ms == prev
    ensures forall i :: Covers(prev, i) ==> Covers(ms, i)
    ensures appended ==> Covers(ms, k - 1)
  {
    forall i | Covers(prev, i)
      ensures Covers(ms, i)
    {
      var j :| 0 <= j < |prev| && prev[j].LineIndex == i;
      assert ms[j] == prev[j];
    }
    if appended {
      assert ms[|prev|].LineIndex == k - 1;
    }
  }

  /** A selected line among the first `k` is projected. */
  lemma {:induction false} ProjectPrefixCovers(lines: seq<string>, k: nat, only2D: bool, num: Numerics, i: int)
    requires k <= |lines| && ProjectPrefix(lines, k, only2D, num).Some?
    requires 0 <= i < k && Selected(lines, i, only2D, num)
    ensures Covers(ProjectPrefix(lines, k, only2D, num).value, i)
  {
    ProjectPrefixStep(lines, k, only2D, num);
    var ms := ProjectPrefix(lines, k, only2D, num).value;
    var prev := ProjectPrefix(lines, k - 1, only2D, num).value;
    var appended := Selected(lines, k - 1, only2D, num);
    if appended {
      assert ms[..|prev|] == prev;
    }
    CoversExtend(prev, ms, k, appended);
    if i < k - 1 {
      ProjectPrefixCovers(lines, k - 1, only2D, num, i);
    }
  }

  /** Every selected line is projected. */
  lemma ProjectPrefixComplete(lines: seq<string>, k: nat, only2D: bool, num: Numerics)
    requires k <= |lines| && ProjectPrefix(lines, k, only2D, num).Some?
    ensures var ms := ProjectPrefix(lines, k, only2D, num).value;
      forall i :: 0 <= i < k && Selected(lines, i, only2D, num) ==> Covers(ms, i)
  {
    forall i | 0 <= i < k && Selected(lines, i, only2D, num)
      ensures Covers(ProjectPrefix(lines, k, only2D, num).value, i)
    {
      ProjectPrefixCovers(lines, k, only2D, num, i);
    }
  }

  /** `GetAllMoveCommands(only2D)`: one move per selected line, in line
      order, each carrying its line's index; nothing else. With `only2D`
      every move has X and Y. */
  lemma ProjectionCharacterized(lines: seq<string>, only2D: bool, num: Numerics)
    requires Projection(lines, only2D, num).Some?
    ensures var ms := Projection(lines, only2D, num).value;
      && (forall j :: 0 <= j < |ms| ==>
            && Selected(lines, ms[j].LineIndex, only2D, num)
            && ms[j] == ParseLine(lines[ms[j].LineIndex], ms[j].LineIndex, num).value)
      && (forall j1, j2 :: 0 <= j1 < j2 < |ms| ==> ms[j1].LineIndex < ms[j2].LineIndex)
      && (forall i :: Selected(lines, i, only2D, num) ==> exists j :: 0 <= j < |ms| && ms[j].LineIndex == i)
      && (only2D ==> forall j :: 0 <= j < |ms| ==> ms[j].Can2D())
  {
    ProjectPrefixSound(lines, |lines|, only2D, num);
    ProjectPrefixOrdered(lines, |lines|, only2D, num);
    ProjectPrefixComplete(lines, |lines|, only2D, num);
  }

  /** The line indices of a projection are inside the document and
      increasing, and a 2D projection holds 2D moves only. */
  lemma ProjectionIndices(lines: seq<string>, only2D: bool, num: Numerics)
    requires Projection(lines, only2D, num).Some?
    ensures var ms := Projection(lines, only2D, num).value;
      && (forall j :: 0 <= j < |ms| ==> 0 <= ms[j].LineIndex < |lines|)
      && (forall j1, j2 :: 0 <= j1 < j2 < |ms| ==> ms[j1].LineIndex < ms[j2].LineIndex)
      && (only2D ==> forall j :: 0 <= j < |ms| ==> ms[j].Can2D())
  {
    ProjectionCharacterized(lines, only2D, num);
  }

  /** Appending a line leaves the projection of the earlier lines alone. */
  lemma {:induction false} ProjectPrefixStable(lines: seq<string>, line: string, k: nat, only2D: bool, num: Numerics)
    requires k <= |lines|
    ensures ProjectPrefix(lines + [line], k, only2D, num) == ProjectPrefix(lines, k, only2D, num)
  {
    if k > 0 {
      ProjectPrefixStable(lines, line, k - 1, only2D, num);
      assert (lines + [line])[k - 1] == lines[k - 1];
    }
  }

  /** Appending a selected move line appends its move to the projection. */
  lemma ProjectionSnoc(lines: seq<string>, line: string, c: MoveCommand, only2D: bool, num: Numerics)
    requires Projection(lines, only2D, num).Some?
    requires ParseLine(line, |lines|, num) == Some(c) && (!only2D || c.Can2D())
    ensures Projection(lines + [line], only2D, num) == Some(Projection(lines, only2D, num).value + [c])
  {
    ProjectPrefixStable(lines, line, |lines|, only2D, num);
    ParsedLineIsMoveCommand(line, |lines|, num);
    assert (lines + [line])[|lines|] == line;
  }

  /** The projection faults exactly when some line is rejected. */
  lemma ProjectionFault(lines: seq<string>, only2D: bool, num: Numerics)
    ensures Projection(lines, only2D, num).None? <==> exists i :: Rejected(lines, i, num)
  {
    ProjectPrefixFault(lines, |lines|, only2D, num);
  }

  /** A "G10" line passes the prefix test but makes the projection throw. */
  lemma G10LineFaults(lines: seq<string>, i: nat, only2D: bool, num: Numerics)
    requires i < |lines| && StartsWith(lines[i], "G10")
    ensures Projection(lines, only2D, num).None?
  {
    var line := lines[i];
    assert IsMoveCommand(line) by {
      assert line[..2] == line[..3][..2];
      assert line[0] == 'G';
    }
    assert ParseLine(line, i, num).None? by {
      assert line[2] == line[..3][2] == '0';
      PrefixAcceptsMoreThanConstructor(line, i, num);
    }
    assert Rejected(lines, i, num);
    ProjectionFault(lines, only2D, num);
  }

  // -------------------------------------------------------- single extrusion

  /** `List.FindIndex(start, pred)` for "has E" (`hasE`) or "has no E". */
  function FindE(ms: seq<MoveCommand>, start: nat, hasE: bool): (r: int)
    requires start <= |ms|
    ensures r == -1 || start <= r < |ms|
    ensures r != -1 ==> ms[r].E.Some? == hasE
    ensures forall j :: start <= j < (if r == -1 then |ms| else r) ==> ms[j].E.Some? != hasE
    decreases |ms| - start
  {
    if start == |ms| then -1
    else if ms[start].E.Some? == hasE then start
    else FindE(ms, start + 1, hasE)
  }

  /** `IsSingleExtrusion` on the 2D moves: a first extruding move exists, and
      no move from there on lacks E. */
  predicate SingleExtrusion(ms: seq<MoveCommand>) {
    var first := FindE(ms, 0, true);
    first != -1 && FindE(ms, first, false) == -1
  }

  /** The moves before `f` do not extrude and the moves from `f` on do. */
  predicate ExtrusionStartsAt(ms: seq<MoveCommand>, f: int) {
    && 0 <= f < |ms|
    && (forall j :: 0 <= j < f ==> ms[j].E.None?)
    && (forall j :: f <= j < |ms| ==> ms[j].E.Some?)
  }

  /** Single extrusion is the E-presence pattern false* true+. */
  lemma SingleExtrusionPattern(ms: seq<MoveCommand>)
    ensures SingleExtrusion(ms) <==> exists f :: ExtrusionStartsAt(ms, f)
  {
    var first := FindE(ms, 0, true);
    if SingleExtrusion(ms) {
      assert ExtrusionStartsAt(ms, first);
    }
    if f :| ExtrusionStartsAt(ms, f) {
      assert ms[f].E.Some?;
      assert first == f;
    }
  }

  /** `IsSingleExtrusion` as a function of the lines: `None` where the
      projection throws; otherwise the pattern false* true+ on the 2D moves. */
  function SingleExtrusionOf(lines: seq<string>, num: Numerics): (r: Option<bool>)
    ensures r.None? <==> Projection(lines, true, num).None?
    ensures r.Some? ==> (r.value <==> exists f :: ExtrusionStartsAt(Projection(lines, true, num).value, f))
  {
    match Projection(lines, true, num)
    case None => None
    case Some(ms) => SingleExtrusionPattern(ms); Some(SingleExtrusion(ms))
  }

  /** A single-extrusion layer has a move, and its last move extrudes. */
  lemma SingleExtrusionLastExtrudes(ms: seq<MoveCommand>)
    requires SingleExtrusion(ms)
    ensures |ms| >= 1 && ms[|ms| - 1].E.Some?
  {
  }

  // ------------------------------------------------------------------ update

  /** `Update(command)` as a function of the lines: `None` where the list
      indexer throws (an index at or past the end). */
  function UpdateLines(lines: seq<string>, command: MoveCommand, num: Numerics): (r: Option<seq<string>>)
    ensures r.None? <==> command.LineIndex >= |lines|
    ensures r.Some? ==> |r.value| == |lines|
    ensures r.Some? ==> forall k :: 0 <= k < |lines| && k != command.LineIndex ==> r.value[k] == lines[k]
    ensures r.Some? && command.LineIndex >= 0 ==> r.value[command.LineIndex] == Serialize(command, num)
  {
    if command.LineIndex < 0 then Some(lines)
    else if command.LineIndex < |lines| then Some(lines[command.LineIndex := Serialize(command, num)])
    else None
  }

  // ------------------------------------------------------------------- class

  /** A layer: its lines, rewritten in place, and the Z and height its
      declarations state when it is built. */
  class Layer {
    var AllLines: seq<string>
    const LayerZ: real
    const LayerHeight: real
    const num: Numerics

    /** The lines are copied; Z and height come from the first ";Z:" and
        ";HEIGHT:" lines. */
    constructor(lines: seq<string>, num: Numerics)
      ensures AllLines == lines && this.num == num
      ensures LayerZ == DeclaredValue(lines, ZPrefix, num)
      ensures LayerHeight == DeclaredValue(lines, HeightPrefix, num)
    {
      AllLines := lines;
      this.num := num;
      LayerZ := DeclaredValue(lines, ZPrefix, num);
      LayerHeight := DeclaredValue(lines, HeightPrefix, num);
    }

    /** The current moves (`GetAllMoveCommands` as a function of the state). */
    function Commands(only2D: bool): Option<seq<MoveCommand>>
      reads this
    {
      Projection(AllLines, only2D, num)
    }

    /** `IsSingleExtrusion` on the current lines. */
    function IsSingleExtrusion(): Option<bool>
      reads this
    {
      SingleExtrusionOf(AllLines, num)
    }

    /** The loop over the lines that parses every line passing the prefix test. */
    method GetAllMoveCommands(onlyCan2D: bool) returns (r: Option<seq<MoveCommand>>)
      ensures r == Commands(onlyCan2D)
    {
      var newList: seq<MoveCommand> := [];
      var i := 0;
      while i < |AllLines|
        invariant 0 <= i <= |AllLines|
        invariant ProjectPrefix(AllLines, i, onlyCan2D, num) == Some(newList)
      {
        var line := AllLines[i];
        if IsMoveCommand(line) {
          var command := ParseMoveCommand(line, i, num);
          if command.None? {
            assert Rejected(AllLines, i, num);
            ProjectPrefixFault(AllLines, |AllLines|, onlyCan2D, num);
            return None;
          }
          if !onlyCan2D || command.value.Can2D() {
            newList := newList + [command.value];
          }
        }
        i := i + 1;
      }
      return Some(newList);
    }

    /** `GetLength`: the length of the path through the 2D moves. */
    method GetLength() returns (r: Option<real>)
      ensures Commands(true).None? ==> r.None?
      ensures Commands(true).Some? ==> r == Some(PathLength(Commands(true).value, num))
    {
      var commands := GetAllMoveCommands(true);
      if commands.None? {
        return None;
      }
      var length := Moves.GetLength(commands.value, num);
      return Some(length);
    }

    /** `Update(command)`: rewrites the command's own line with its text; a
        negative index (a built move) changes nothing. `false` where the
        source throws for an index past the end, with the lines unchanged. */
    method Update(command: MoveCommand) returns (ok: bool)
      modifies this
      ensures ok <==> UpdateLines(old(AllLines), command, num).Some?
      ensures AllLines == UpdateLines(old(AllLines), command, num).GetOr(old(AllLines))
    {
      if command.LineIndex >= 0 {
        if command.LineIndex >= |AllLines| {
          return false;
        }
        AllLines := AllLines[command.LineIndex := Serialize(command, num)];
      }
      return true;
    }
  }
}
