/**
 * `MoveCommand` of Common/FileController.cs: one linear move ("G1") with
 * optional X, Y, Z, E and F values and an optional trailing comment, the line
 * it came from, its parsing constructor, `ToString`, and the planar geometry
 * (`CreateVector2`, `GetDistance`, `GetLength`).
 *
 * A move is a value here. The source mutates the Z (and X/Y) of a parsed
 * command before writing it back; the model builds the changed value with a
 * datatype update instead.
 */
module Moves {
  import opened Wrappers
  import opened Text
  import opened ParserHelpers

  /** A G1 move. `LineIndex` is the position of its line in the layer, or -1
      for a move that was built rather than parsed; `None` is C#'s null. */
  datatype MoveCommand = MoveCommand(
    LineIndex: int,
    X: Option<real>, Y: Option<real>, Z: Option<real>,
    E: Option<real>, F: Option<real>,
    Comment: Option<string>)
  {
    /** `Can2D`: the move has both planar coordinates. */
    predicate Can2D() { X.Some? && Y.Some? }

    /** `Can3D`: the move has all three coordinates. */
    predicate Can3D() { X.Some? && Y.Some? && Z.Some? }
  }

  /** `IsMoveCommand`: the prefix test that selects the lines to parse. */
  predicate IsMoveCommand(line: string) {
    !IsBlank(line) && StartsWith(line, "G1")
  }

  // ---------------------------------------------------------------- parsing

  /** Position of the first token that starts with ';' (the comment), or the
      number of tokens when there is none. */
  function CommentTokenIndex(tokens: seq<string>): (r: nat)
    ensures r <= |tokens|
    ensures r < |tokens| ==> StartsWith(tokens[r], ";")
    ensures forall k :: 0 <= k < r ==> !StartsWith(tokens[k], ";")
  {
    if |tokens| == 0 then 0
    else if StartsWith(tokens[0], ";") then 0
    else
      var r := CommentTokenIndex(tokens[1..]);
      assert forall k :: 1 <= k < r + 1 ==> tokens[k] == tokens[1..][k - 1];
      r + 1
  }

  /** The tokens the constructor's loop looks at: all of them up to and
      including the first comment token. */
  function ScannedTokens(tokens: seq<string>): seq<string> {
    var c := CommentTokenIndex(tokens);
    if c < |tokens| then tokens[..c + 1] else tokens
  }

  /** The value of the last token with key `key` that parses, if any. */
  function LastValue(tokens: seq<string>, key: char, num: Numerics): Option<real> {
    if |tokens| == 0 then None
    else
      match TryParse(tokens[|tokens| - 1], num)
      case Some(kv) =>
        if kv.0 == key then Some(kv.1) else LastValue(tokens[..|tokens| - 1], key, num)
      case None => LastValue(tokens[..|tokens| - 1], key, num)
  }

  /** The parsing constructor `MoveCommand(string line, int lineIndex)`:
      `None` where the source throws `ArgumentException` (a blank line, or a
      first space-separated token other than "G1"). Every field holds the last
      parsable occurrence of its key before the comment token; the comment is
      the text after the line's first ';'. */
  function ParseLine(line: string, lineIndex: int, num: Numerics): (r: Option<MoveCommand>)
    ensures r.Some? <==> !IsBlank(line) && Split(line, ' ')[0] == "G1"
    ensures r.Some? ==> r.value.LineIndex == lineIndex
  {
    if IsBlank(line) then None
    else
      var tokens := Split(line, ' ');
      if tokens[0] != "G1" then None
      else
        var scanned := ScannedTokens(tokens);
        Some(MoveCommand(lineIndex,
          LastValue(scanned, 'X', num), LastValue(scanned, 'Y', num), LastValue(scanned, 'Z', num),
          LastValue(scanned, 'E', num), LastValue(scanned, 'F', num),
          if CommentTokenIndex(tokens) < |tokens| then Some(line[IndexOf(line, ';') + 1..]) else None))
  }

  /** The constructor's loop over the tokens, stopping after the first comment token. */
  method ParseMoveCommand(line: string, lineIndex: int, num: Numerics) returns (r: Option<MoveCommand>)
    ensures r == ParseLine(line, lineIndex, num)
  {
    if IsBlank(line) {
      return None;
    }
    var splitted := Split(line, ' ');
    if splitted[0] != "G1" {
      return None;
    }
    var x: Option<real>, y: Option<real>, z: Option<real> := None, None, None;
    var e: Option<real>, f: Option<real> := None, None;
    var comment := false;
    var i := 0;
    while i < |splitted| && !comment
      invariant 0 <= i <= |splitted|
      invariant comment ==> i == CommentTokenIndex(splitted) + 1
      invariant !comment ==> i <= CommentTokenIndex(splitted)
      invariant x == LastValue(splitted[..i], 'X', num) && y == LastValue(splitted[..i], 'Y', num)
      invariant z == LastValue(splitted[..i], 'Z', num) && e == LastValue(splitted[..i], 'E', num)
      invariant f == LastValue(splitted[..i], 'F', num)
    {
      var s := splitted[i];
      assert splitted[..i + 1][..i] == splitted[..i];
      assert splitted[..i + 1][i] == s;
      match TryParse(s, num) {
        case Some(kv) =>
          if kv.0 == 'X' { x := Some(kv.1); }
          else if kv.0 == 'Y' { y := Some(kv.1); }
          else if kv.0 == 'Z' { z := Some(kv.1); }
          else if kv.0 == 'E' { e := Some(kv.1); }
          else if kv.0 == 'F' { f := Some(kv.1); }
        case None =>
      }
      if StartsWith(s, ";") {
        comment := true;
      }
      i := i + 1;
    }
    assert splitted[..i] == ScannedTokens(splitted);
    var text: Option<string> := None;
    if comment {
      var index := IndexOf(line, ';');
      text := Some(line[index + 1..]);
    }
    r := Some(MoveCommand(lineIndex, x, y, z, e, f, text));
  }

  /** The first token is "G1" exactly when the line is "G1" or goes on with a space. */
  lemma FirstTokenIsG1(line: string)
    ensures Split(line, ' ')[0] == "G1" <==> StartsWith(line, "G1") && (|line| == 2 || line[2] == ' ')
  {
    SplitFirstIsPrefix(line, ' ');
    var i := IndexOf(line, ' ');
    if StartsWith(line, "G1") && |line| > 2 && line[2] == ' ' {
      assert line[0] != ' ' && line[1] != ' ';
      assert i == 2;
    }
    if i >= 0 && Split(line, ' ')[0] == "G1" {
      assert line[..i] == "G1";
      assert line[..2] == line[..i];
    }
  }

  /** `IsMoveCommand` accepts every line that starts with "G1", but the
      constructor rejects one whose third character is not a space ("G10",
      "G1\tX5"), which makes `GetAllMoveCommands` throw. */
  lemma PrefixAcceptsMoreThanConstructor(line: string, lineIndex: int, num: Numerics)
    requires IsMoveCommand(line)
    ensures ParseLine(line, lineIndex, num).Some? <==> |line| == 2 || line[2] == ' '
  {
    FirstTokenIsG1(line);
  }

  /** Every line the constructor accepts passes the prefix test. */
  lemma ParsedLineIsMoveCommand(line: string, lineIndex: int, num: Numerics)
    requires ParseLine(line, lineIndex, num).Some?
    ensures IsMoveCommand(line)
  {
    FirstTokenIsG1(line);
  }

  /** In a concatenation the later tokens override the earlier ones. */
  lemma {:induction false} LastValueAppend(a: seq<string>, b: seq<string>, key: char, num: Numerics)
    ensures LastValue(a + b, key, num)
         == if LastValue(b, key, num).Some? then LastValue(b, key, num) else LastValue(a, key, num)
    decreases |b|
  {
    if |b| == 0 {
      assert a + b == a;
    } else {
      assert (a + b)[..|a + b| - 1] == a + b[..|b| - 1];
      assert (a + b)[|a + b| - 1] == b[|b| - 1];
      LastValueAppend(a, b[..|b| - 1], key, num);
    }
  }

  /** A token whose key is not `key` contributes nothing to that key. */
  lemma LastValueOther(t: string, key: char, num: Numerics)
    requires |t| > 0 && t[0] != key
    ensures LastValue([t], key, num) == None
  {
    var none: seq<string> := []; assert [t][..0] == none;
  }

  lemma NotBlankPrefix(a: string, b: string)
    requires !IsBlank(a)
    ensures !IsBlank(a + b)
  {
    var i :| 0 <= i < |a| && !IsWhiteSpace(a[i]);
    assert (a + b)[i] == a[i];
  }

  lemma IndexOfAfter(a: string, b: string, c: char)
    requires c !in a && c in b
    ensures IndexOf(a + b, c) == |a| + IndexOf(b, c)
  {
    var j := IndexOf(b, c);
    assert (a + b)[|a| + j] == c;
  }

  lemma CommentTokenAt(t: seq<string>, u: seq<string>)
    requires forall k :: 0 <= k < |t| ==> !StartsWith(t[k], ";")
    requires |u| > 0 && StartsWith(u[0], ";")
    ensures CommentTokenIndex(t + u) == |t|
    ensures CommentTokenIndex(t) == |t|
  {
    assert (t + u)[|t|] == u[0];
  }

  lemma NoSemicolonNoComment(s: string)
    requires ';' !in s
    ensures !StartsWith(s, ";")
  {
    if |s| > 0 {
      assert s[0] in s;
    }
  }

  /** `ParseLine` of an accepted line, in terms of its scanned tokens. */
  lemma ParseLineUnfold(line: string, lineIndex: int, num: Numerics)
    requires !IsBlank(line) && Split(line, ' ')[0] == "G1"
    ensures var tokens := Split(line, ' '); var scanned := ScannedTokens(tokens);
      ParseLine(line, lineIndex, num) == Some(MoveCommand(lineIndex,
        LastValue(scanned, 'X', num), LastValue(scanned, 'Y', num), LastValue(scanned, 'Z', num),
        LastValue(scanned, 'E', num), LastValue(scanned, 'F', num),
        if CommentTokenIndex(tokens) < |tokens| then Some(line[IndexOf(line, ';') + 1..]) else None))
  {
  }

  /** The tokens of a line followed by " ;" and a comment. */
  lemma CommentTokens(a: string, comment: string)
    requires ';' !in a
    ensures var t := Split(a, ' ');
      && Split(a + " ;" + comment, ' ') == t + Split(";" + comment, ' ')
      && CommentTokenIndex(t) == |t|
      && ScannedTokens(t) == t
      && ScannedTokens(Split(a + " ;" + comment, ' ')) == t + [Split(";" + comment, ' ')[0]]
      && StartsWith(Split(";" + comment, ' ')[0], ";")
  {
    var rest := ";" + comment;
    var t := Split(a, ' ');
    var u := Split(rest, ' ');
    assert Split(a + " ;" + comment, ' ') == t + u by {
      assert a + " ;" + comment == a + [' '] + rest;
      SplitAppend(a, ' ', rest);
    }
    assert StartsWith(u[0], ";") by {
      SplitFirstPiece(rest, ' ');
      assert u[0][..1] == [u[0][0]];
    }
    assert forall k :: 0 <= k < |t| ==> !StartsWith(t[k], ";") by {
      SplitPiecesAvoid(a, ' ', ';');
      forall k | 0 <= k < |t| ensures !StartsWith(t[k], ";") {
        NoSemicolonNoComment(t[k]);
      }
    }
    CommentTokenAt(t, u);
    ScannedAt(t + u, |t|);
    PrefixThroughNext(t, u);
  }

  lemma ScannedAt(tokens: seq<string>, n: nat)
    requires n < |tokens| && CommentTokenIndex(tokens) == n
    ensures ScannedTokens(tokens) == tokens[..n + 1]
  {
  }

  lemma PrefixThroughNext(t: seq<string>, u: seq<string>)
    requires |u| > 0
    ensures (t + u)[..|t| + 1] == t + [u[0]]
  {
    assert (t + u)[|t|] == u[0];
    assert (t + u)[..|t|] == t;
  }

  /** The comment is the text after the " ;". */
  lemma CommentAfterMarker(a: string, comment: string)
    requires ';' !in a
    ensures var line := a + " ;" + comment; line[IndexOf(line, ';') + 1..] == comment
  {
    var marked := " ;" + comment;
    assert marked[0] == ' ' && marked[1] == ';';
    assert IndexOf(marked, ';') == 1;
    IndexOfAfter(a, marked, ';');
    var line := a + " ;" + comment;
    assert line == a + marked;
    assert line[|a| + 2..] == comment;
  }

  /** Scanning stops at the comment: what follows " ;" changes no field and
      becomes the comment verbatim. */
  lemma CommentStopsScan(a: string, comment: string, lineIndex: int, num: Numerics)
    requires ';' !in a
    requires ParseLine(a, lineIndex, num).Some?
    ensures ParseLine(a + " ;" + comment, lineIndex, num)
         == Some(ParseLine(a, lineIndex, num).value.(Comment := Some(comment)))
  {
    var line := a + " ;" + comment;
    NotBlankPrefix(a, " ;" + comment);
    CommentTokens(a, comment);
    var t := Split(a, ' ');
    var u0 := Split(";" + comment, ' ')[0];
    assert Split(line, ' ')[0] == t[0];
    forall key | key in "XYZEF" ensures LastValue(t + [u0], key, num) == LastValue(t, key, num) {
      LastValueAppend(t, [u0], key, num);
      LastValueOther(u0, key, num);
    }
    CommentAfterMarker(a, comment);
    ParseLineUnfold(a, lineIndex, num);
    ParseLineUnfold(line, lineIndex, num);
  }

  // ------------------------------------------------------------- serialising

  /** The text of one present field: the key followed by the formatted number. */
  function FieldToken(key: char, value: Option<real>, num: Numerics): seq<string> {
    match value
    case None => []
    case Some(v) => [[key] + num.format(v)]
  }

  /** "G1" and the present fields in the fixed order X, Y, Z, E, F. */
  function FieldTokens(c: MoveCommand, num: Numerics): seq<string> {
    ["G1"] + FieldToken('X', c.X, num) + FieldToken('Y', c.Y, num) + FieldToken('Z', c.Z, num)
      + FieldToken('E', c.E, num) + FieldToken('F', c.F, num)
  }

  /** " ;" and the comment, unless the comment is null or blank. */
  function CommentText(comment: Option<string>): string {
    if comment.Some? && !IsBlank(comment.value) then " ;" + comment.value else ""
  }

  /** `ToString`: the field tokens, each after one space, then the comment. */
  function Serialize(c: MoveCommand, num: Numerics): string {
    Join(FieldTokens(c, num), ' ') + CommentText(c.Comment)
  }

  /** The comment that survives printing: a blank one is dropped. */
  function KeptComment(comment: Option<string>): Option<string> {
    if comment.Some? && !IsBlank(comment.value) then comment else None
  }

  /** A present field after printing and parsing again. */
  function RereadField(value: Option<real>, num: Numerics): Option<real>
    requires FormatReadable(num)
  {
    match value
    case None => None
    case Some(v) => Some(Reread(v, num))
  }

  lemma FieldTokenValue(key: char, other: char, value: Option<real>, num: Numerics)
    requires FormatReadable(num) && !IsWhiteSpace(key)
    ensures LastValue(FieldToken(key, value, num), other, num)
         == if key == other then RereadField(value, num) else None
  {
    if value.Some? {
      var t := [key] + num.format(value.value);
      assert t[1..] == num.format(value.value);
      assert !IsBlank(t) by { assert !IsWhiteSpace(t[0]); }
      var none: seq<string> := []; assert [t][..0] == none;
    }
  }

  lemma FieldTokensShape(c: MoveCommand, num: Numerics)
    requires FormatReadable(num)
    ensures forall k :: 0 <= k < |FieldTokens(c, num)| ==>
      var t := FieldTokens(c, num)[k];
      |t| > 0 && ' ' !in t && ';' !in t && t[0] in "GXYZEF"
  {
    var x, y, z := FieldToken('X', c.X, num), FieldToken('Y', c.Y, num), FieldToken('Z', c.Z, num);
    var e, f := FieldToken('E', c.E, num), FieldToken('F', c.F, num);
    FieldTokenShaped('X', c.X, num);
    FieldTokenShaped('Y', c.Y, num);
    FieldTokenShaped('Z', c.Z, num);
    FieldTokenShaped('E', c.E, num);
    FieldTokenShaped('F', c.F, num);
    assert Shaped(["G1"]);
    ShapedAppend(["G1"], x);
    ShapedAppend(["G1"] + x, y);
    ShapedAppend(["G1"] + x + y, z);
    ShapedAppend(["G1"] + x + y + z, e);
    ShapedAppend(["G1"] + x + y + z + e, f);
  }

  /** Every token is non-empty, has no space and no ';', and starts with a
      field key or the 'G' of "G1". */
  predicate Shaped(ts: seq<string>) {
    forall k :: 0 <= k < |ts| ==> |ts[k]| > 0 && ' ' !in ts[k] && ';' !in ts[k] && ts[k][0] in "GXYZEF"
  }

  lemma ShapedAppend(a: seq<string>, b: seq<string>)
    requires Shaped(a) && Shaped(b)
    ensures Shaped(a + b)
  {
    forall k | 0 <= k < |a + b|
      ensures |(a + b)[k]| > 0 && ' ' !in (a + b)[k] && ';' !in (a + b)[k] && (a + b)[k][0] in "GXYZEF"
    {
      if k < |a| {
        assert (a + b)[k] == a[k];
      } else {
        assert (a + b)[k] == b[k - |a|];
      }
    }
  }

  lemma FieldTokenShaped(key: char, value: Option<real>, num: Numerics)
    requires FormatReadable(num) && key in "XYZEF"
    ensures Shaped(FieldToken(key, value, num))
  {
    if value.Some? {
      var t := [key] + num.format(value.value);
      assert FieldToken(key, value, num) == [t];
      assert |num.format(value.value)| > 0 && ' ' !in num.format(value.value) && ';' !in num.format(value.value);
      assert t[0] == key;
    }
  }

  lemma FieldTokensValues(c: MoveCommand, key: char, num: Numerics)
    requires FormatReadable(num)
    requires key in "XYZEF"
    ensures LastValue(FieldTokens(c, num), key, num) ==
      match key
      case 'X' => RereadField(c.X, num)
      case 'Y' => RereadField(c.Y, num)
      case 'Z' => RereadField(c.Z, num)
      case 'E' => RereadField(c.E, num)
      case _ => RereadField(c.F, num)
  {
    var g := ["G1"];
    var tx := FieldToken('X', c.X, num);
    var ty := FieldToken('Y', c.Y, num);
    var tz := FieldToken('Z', c.Z, num);
    var te := FieldToken('E', c.E, num);
    var tf := FieldToken('F', c.F, num);
    LastValueOther("G1", key, num);
    LastValueAppend(g, tx, key, num);
    LastValueAppend(g + tx, ty, key, num);
    LastValueAppend(g + tx + ty, tz, key, num);
    LastValueAppend(g + tx + ty + tz, te, key, num);
    LastValueAppend(g + tx + ty + tz + te, tf, key, num);
    FieldTokenValue('X', key, c.X, num);
    FieldTokenValue('Y', key, c.Y, num);
    FieldTokenValue('Z', key, c.Z, num);
    FieldTokenValue('E', key, c.E, num);
    FieldTokenValue('F', key, c.F, num);
  }

  lemma {:induction false} JoinAvoids(pieces: seq<string>, sep: char, c: char)
    requires |pieces| >= 1 && sep != c
    requires forall k :: 0 <= k < |pieces| ==> c !in pieces[k]
    ensures c !in Join(pieces, sep)
  {
    if |pieces| > 1 {
      JoinAvoids(pieces[1..], sep, c);
    }
  }

  /** The printed fields alone parse back to the same present fields, no comment. */
  lemma FieldsRoundTrip(c: MoveCommand, lineIndex: int, num: Numerics)
    requires FormatReadable(num)
    ensures ';' !in Join(FieldTokens(c, num), ' ')
    ensures ParseLine(Join(FieldTokens(c, num), ' '), lineIndex, num)
         == Some(MoveCommand(lineIndex, RereadField(c.X, num), RereadField(c.Y, num),
                             RereadField(c.Z, num), RereadField(c.E, num), RereadField(c.F, num), None))
  {
    var toks := FieldTokens(c, num);
    var line := Join(toks, ' ');
    FieldTokensShape(c, num);
    JoinAvoids(toks, ' ', ';');
    SplitOfJoin(toks, ' ');
    assert toks[0] == "G1";
    assert line[0] == 'G' by {
      if |toks| > 1 { assert line == toks[0] + [' '] + Join(toks[1..], ' '); }
    }
    assert !IsBlank(line) by { assert !IsWhiteSpace(line[0]); }
    forall k | 0 <= k < |toks| ensures !StartsWith(toks[k], ";") {
      NoSemicolonNoComment(toks[k]);
    }
    assert CommentTokenIndex(toks) == |toks|;
    assert ScannedTokens(toks) == toks;
    FieldTokensValues(c, 'X', num);
    FieldTokensValues(c, 'Y', num);
    FieldTokensValues(c, 'Z', num);
    FieldTokensValues(c, 'E', num);
    FieldTokensValues(c, 'F', num);
  }

  /** Round trip of `ToString`: parsing the printed move gives back the same
      present fields (each as the parser reads the formatted number) and the
      comment, unless that was blank. */
  lemma SerializeRoundTrip(c: MoveCommand, lineIndex: int, num: Numerics)
    requires FormatReadable(num)
    ensures ParseLine(Serialize(c, num), lineIndex, num)
         == Some(MoveCommand(lineIndex, RereadField(c.X, num), RereadField(c.Y, num),
                             RereadField(c.Z, num), RereadField(c.E, num), RereadField(c.F, num),
                             KeptComment(c.Comment)))
  {
    var fields := Join(FieldTokens(c, num), ' ');
    FieldsRoundTrip(c, lineIndex, num);
    if c.Comment.Some? && !IsBlank(c.Comment.value) {
      assert Serialize(c, num) == fields + " ;" + c.Comment.value;
      CommentStopsScan(fields, c.Comment.value, lineIndex, num);
    } else {
      assert Serialize(c, num) == fields + "";
      assert fields + "" == fields;
    }
  }

  // ---------------------------------------------------------------- geometry

  /** `CreateVector2`: the planar displacement from `from` to `to`; an axis
      missing on either side contributes zero. */
  function CreateVector2(from: MoveCommand, to: MoveCommand): (real, real) {
    (if to.X.Some? && from.X.Some? then to.X.value - from.X.value else 0.0,
     if to.Y.Some? && from.Y.Some? then to.Y.value - from.Y.value else 0.0)
  }

  /** The squared length of a displacement. */
  function SquaredLength(v: (real, real)): real {
    v.0 * v.0 + v.1 * v.1
  }

  /** `GetDistance`: the length of that displacement. */
  function GetDistance(a: MoveCommand, b: MoveCommand, num: Numerics): real {
    num.sqrt(SquaredLength(CreateVector2(a, b)))
  }

  /** Reversing a displacement negates it. */
  lemma VectorAntisymmetric(a: MoveCommand, b: MoveCommand)
    ensures CreateVector2(b, a) == (-CreateVector2(a, b).0, -CreateVector2(a, b).1)
  {
  }

  lemma SquareSumNonNegative(x: real, y: real)
    ensures 0.0 <= x * x + y * y
  {
    if x < 0.0 { assert x * x == (-x) * (-x); }
    if y < 0.0 { assert y * y == (-y) * (-y); }
  }

  /** The distance is symmetric and never negative. */
  lemma DistanceProperties(a: MoveCommand, b: MoveCommand, num: Numerics)
    requires SqrtNonNegative(num)
    ensures GetDistance(a, b, num) == GetDistance(b, a, num)
    ensures 0.0 <= GetDistance(a, b, num)
  {
    var v := CreateVector2(a, b);
    var w := CreateVector2(b, a);
    VectorAntisymmetric(a, b);
    assert w.0 * w.0 == v.0 * v.0 by { assert w.0 == -v.0; }
    assert w.1 * w.1 == v.1 * v.1 by { assert w.1 == -v.1; }
    assert SquaredLength(w) == SquaredLength(v);
    SquareSumNonNegative(v.0, v.1);
  }

  /** The length of a path: the sum of the distances between consecutive moves. */
  function PathLength(commands: seq<MoveCommand>, num: Numerics): real {
    if |commands| < 2 then 0.0
    else
      PathLength(commands[..|commands| - 1], num)
        + GetDistance(commands[|commands| - 2], commands[|commands| - 1], num)
  }

  /** `MoveCommand.GetLength`: the loop that adds up the segment lengths. */
  method GetLength(commands: seq<MoveCommand>, num: Numerics) returns (totalLength: real)
    ensures totalLength == PathLength(commands, num)
  {
    totalLength := 0.0;
    if |commands| == 0 {
      return;
    }
    var i := 0;
    while i < |commands| - 1
      invariant 0 <= i <= |commands| - 1
      invariant totalLength == PathLength(commands[..i + 1], num)
    {
      assert commands[..i + 2][..i + 1] == commands[..i + 1];
      totalLength := totalLength + GetDistance(commands[i], commands[i + 1], num);
      i := i + 1;
    }
    assert commands[..i + 1] == commands;
  }

  /** A path is never shorter than any of its prefixes, and never negative. */
  lemma {:induction false} PathLengthMonotone(commands: seq<MoveCommand>, j: nat, num: Numerics)
    requires SqrtNonNegative(num)
    requires j <= |commands|
    ensures 0.0 <= PathLength(commands[..j], num) <= PathLength(commands, num)
    decreases |commands|
  {
    if j < |commands| {
      var front := commands[..|commands| - 1];
      assert front[..j] == commands[..j];
      PathLengthMonotone(front, j, num);
      if |commands| >= 2 {
        DistanceProperties(commands[|commands| - 2], commands[|commands| - 1], num);
      }
    } else {
      assert commands[..j] == commands;
      if |commands| >= 2 {
        var front := commands[..|commands| - 1];
        PathLengthMonotone(front, |front|, num);
        assert front[..|front|] == front;
        DistanceProperties(commands[|commands| - 2], commands[|commands| - 1], num);
      }
    }
  }
}
