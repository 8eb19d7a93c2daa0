/**
 * `ParserHelpers` of Common/FileController.cs: the token splitter that turns
 * "X12.5" into the key 'X' and the number 12.5.
 *
 * The numeric text conversions are library calls whose code is not part of
 * this model: `float.TryParse` with `NumberStyles.Any` and the invariant
 * culture, the "0.#####" formatter used by `ToString`, and the square root
 * behind `Vector2.Length`. They are gathered in a `Numerics` record that
 * every parsing, printing and measuring member takes as an argument.
 */
module ParserHelpers {
  import opened Wrappers
  import opened Text

  /** The library calls the core relies on, as opaque total functions. */
  datatype Numerics = Numerics(
    parse: string -> Option<real>,   // float.TryParse(s, NumberStyles.Any, InvariantCulture)
    format: real -> string,          // AppendFormat("{0:0.#####}", v)
    sqrt: real -> real)              // the square root inside Vector2.Length

  /** What the round trip through the formatter needs of it: every rendered
      number is a non-empty run of characters without blanks or ';' that the
      parser reads back (after the leading-dot rewrite of `TryParse`). */
  ghost predicate FormatReadable(num: Numerics) {
    forall v: real {:trigger num.format(v)} ::
      |num.format(v)| > 0 && ' ' !in num.format(v) && ';' !in num.format(v)
      && num.parse(Normalize(num.format(v))).Some?
  }

  /** A square root never returns a negative length. */
  ghost predicate SqrtNonNegative(num: Numerics) {
    forall q: real {:trigger num.sqrt(q)} :: 0.0 <= q ==> 0.0 <= num.sqrt(q)
  }

  /** The value the parser reads back from the formatted text of `v`. */
  function Reread(v: real, num: Numerics): real
    requires FormatReadable(num)
  {
    num.parse(Normalize(num.format(v))).value
  }

  /** The rewrite before the number is parsed: a leading '.' gets a '0' in
      front of it, and a leading "-." turns every "-." into "-0.". */
  function Normalize(subs: string): (r: string)
    ensures |r| == 0 <==> |subs| == 0
    ensures StartsWith(subs, ".") ==> r == "0" + subs
    ensures StartsWith(subs, "-.") ==> r == "-0." + ReplaceDashDot(subs[2..])
    ensures !StartsWith(subs, ".") && !StartsWith(subs, "-.") ==> r == subs
  {
    var t := if StartsWith(subs, ".") then "0" + subs else subs;
    assert StartsWith(subs, ".") ==> t[0] == '0' && !StartsWith(t, "-.");
    if StartsWith(t, "-.") then ReplaceDashDot(t) else t
  }

  /** `TryParse(string, out string, out float)`: a token is accepted when it is
      not blank, has at least one character after its key, and the rest parses
      as a number; the key is its first character. */
  function TryParse(s: string, num: Numerics): (r: Option<(char, real)>)
    ensures r.Some? <==> !IsBlank(s) && |s| >= 2 && num.parse(Normalize(s[1..])).Some?
    ensures r.Some? ==> r.value == (s[0], num.parse(Normalize(s[1..])).value)
  {
    if IsBlank(s) then None
    else
      var subs := Normalize(s[1..]);
      if |subs| > 0 then
        match num.parse(subs)
        case Some(v) => Some((s[0], v))
        case None => None
      else None
  }

  /** A one-character token, or a blank one, is never a key/value pair. */
  lemma ShortTokenRejected(s: string, num: Numerics)
    requires |s| < 2 || IsBlank(s)
    ensures TryParse(s, num) == None
  {
  }
}
