/**
 * The pieces of the .NET string library that the post-processor relies on:
 * `char.IsWhiteSpace`, `string.IsNullOrWhiteSpace`, ordinal `StartsWith`,
 * `IndexOf(char)`, `Split(char)` and `Replace(string, string)`.
 * Strings are sequences of characters; a null string is never split or scanned.
 */
module Text {

  /** `char.IsWhiteSpace`: the Unicode space separators, line and paragraph
      separators, and the control characters U+0009..U+000D and U+0085. */
  predicate IsWhiteSpace(c: char) {
    c == ' ' || ('\t' <= c <= '\r') || c == '\U{85}' || c == '\U{A0}' || c == '\U{1680}'
    || ('\U{2000}' <= c <= '\U{200A}') || c == '\U{2028}' || c == '\U{2029}'
    || c == '\U{202F}' || c == '\U{205F}' || c == '\U{3000}'
  }

  /** `string.IsNullOrWhiteSpace` for a non-null string: empty or only white space. */
  predicate IsBlank(s: string) {
    forall i :: 0 <= i < |s| ==> IsWhiteSpace(s[i])
  }

  /** Prefix test, character by character. */
  predicate StartsWith(s: string, prefix: string) {
    |prefix| <= |s| && s[..|prefix|] == prefix
  }

  /** `IndexOf(c)`: the first position of `c`, or -1. */
  function IndexOf(s: string, c: char): (r: int)
    ensures -1 <= r < |s|
    ensures r == -1 <==> c !in s
    ensures 0 <= r ==> s[r] == c && forall k :: 0 <= k < r ==> s[k] != c
  {
    if |s| == 0 then -1
    else if s[0] == c then 0
    else
      var k := IndexOf(s[1..], c);
      if k < 0 then -1 else k + 1
  }

  /** `Split(sep)`: the pieces between separators, empty pieces included. */
  function Split(s: string, sep: char): (r: seq<string>)
    ensures |r| >= 1
  {
    if |s| == 0 then [""]
    else
      var rest := Split(s[1..], sep);
      if s[0] == sep then [""] + rest else [[s[0]] + rest[0]] + rest[1..]
  }

  /** The pieces put back together with the separator between them. */
  function Join(pieces: seq<string>, sep: char): string
    requires |pieces| >= 1
  {
    if |pieces| == 1 then pieces[0] else pieces[0] + [sep] + Join(pieces[1..], sep)
  }

  /** Splitting around a separator splits each side on its own. */
  lemma {:induction false} SplitAppend(a: string, sep: char, b: string)
    ensures Split(a + [sep] + b, sep) == Split(a, sep) + Split(b, sep)
  {
    var s := a + [sep] + b;
    if |a| == 0 {
      assert s == [sep] + b;
      assert s[1..] == b;
    } else {
      assert s[0] == a[0];
      assert s[1..] == a[1..] + [sep] + b;
      SplitAppend(a[1..], sep, b);
      PiecesCons(a[0], sep, Split(a[1..], sep), Split(b, sep));
    }
  }

  /** The step of `Split` for a first character `c` before pieces `ra`,
      when `ra` is followed by more pieces `rb`. */
  lemma PiecesCons(c: char, sep: char, ra: seq<string>, rb: seq<string>)
    requires |ra| >= 1
    ensures var rab := ra + rb;
      (if c == sep then [""] + rab else [[c] + rab[0]] + rab[1..])
      == (if c == sep then [""] + ra else [[c] + ra[0]] + ra[1..]) + rb
  {
    var rab := ra + rb;
    if c != sep {
      assert rab[0] == ra[0] && rab[1..] == ra[1..] + rb;
    }
  }

  /** A string without separators is a single piece. */
  lemma {:induction false} SplitNone(a: string, sep: char)
    requires sep !in a
    ensures Split(a, sep) == [a]
  {
    if |a| > 0 {
      assert sep !in a[1..] by { assert forall k :: 0 <= k < |a| - 1 ==> a[1..][k] == a[k + 1]; }
      SplitNone(a[1..], sep);
      assert [a[0]] + a[1..] == a;
    }
  }

  /** A piece without separators followed by a separator splits off as one piece. */
  lemma SplitCons(a: string, sep: char, b: string)
    requires sep !in a
    ensures Split(a + [sep] + b, sep) == [a] + Split(b, sep)
  {
    SplitAppend(a, sep, b);
    SplitNone(a, sep);
  }

  /** Joining pieces that hold no separator and splitting again gives the pieces. */
  lemma {:induction false} SplitOfJoin(pieces: seq<string>, sep: char)
    requires |pieces| >= 1
    requires forall k :: 0 <= k < |pieces| ==> sep !in pieces[k]
    ensures Split(Join(pieces, sep), sep) == pieces
  {
    if |pieces| == 1 {
      SplitNone(pieces[0], sep);
    } else {
      SplitOfJoin(pieces[1..], sep);
      SplitCons(pieces[0], sep, Join(pieces[1..], sep));
    }
  }

  /** Joining one more piece appends a separator and the piece. */
  lemma {:induction false} JoinSnoc(pieces: seq<string>, last: string, sep: char)
    requires |pieces| >= 1
    ensures Join(pieces + [last], sep) == Join(pieces, sep) + [sep] + last
  {
    if |pieces| > 1 {
      assert (pieces + [last])[1..] == pieces[1..] + [last];
      JoinSnoc(pieces[1..], last, sep);
    }
  }

  /** A character that the string lacks is missing from every piece of it. */
  lemma {:induction false} SplitPiecesAvoid(s: string, sep: char, c: char)
    requires c !in s
    ensures forall k :: 0 <= k < |Split(s, sep)| ==> c !in Split(s, sep)[k]
  {
    if |s| > 0 {
      assert c !in s[1..] by { assert forall k :: 0 <= k < |s| - 1 ==> s[1..][k] == s[k + 1]; }
      SplitPiecesAvoid(s[1..], sep, c);
    }
  }

  /** The first piece starts with the first character when that is not a separator. */
  lemma SplitFirstPiece(s: string, sep: char)
    requires |s| > 0 && s[0] != sep
    ensures |Split(s, sep)[0]| > 0 && Split(s, sep)[0][0] == s[0]
  {
  }

  /** The first piece is the text before the first separator. */
  lemma {:induction false} SplitFirstIsPrefix(s: string, sep: char)
    ensures IndexOf(s, sep) < 0 ==> Split(s, sep)[0] == s
    ensures IndexOf(s, sep) >= 0 ==> Split(s, sep)[0] == s[..IndexOf(s, sep)]
  {
    if |s| > 0 && s[0] != sep {
      SplitFirstIsPrefix(s[1..], sep);
      var k := IndexOf(s[1..], sep);
      if k >= 0 {
        assert [s[0]] + s[1..][..k] == s[..k + 1];
      } else {
        assert [s[0]] + s[1..] == s;
      }
    }
  }

  /** `Replace("-.", "-0.")`: every occurrence, scanning left to right. */
  function ReplaceDashDot(s: string): (r: string)
    ensures |r| >= |s|
  {
    if |s| < 2 then s
    else if s[..2] == "-." then "-0." + ReplaceDashDot(s[2..])
    else [s[0]] + ReplaceDashDot(s[1..])
  }
}
