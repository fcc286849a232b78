/**
 * How a primitive's text is written: quoted, with embedded quotes doubled,
 * exactly when it holds a double quote or a white-space character.
 */
module Quoting {

  /** `char.IsWhiteSpace`: the Unicode space, line and paragraph separators plus U+0009..U+000D and U+0085. */
  predicate IsWhiteSpace(c: char)
  {
    ('\U{0009}' <= c <= '\U{000D}') || c == ' ' || c == '\U{0085}' || c == '\U{00A0}' || c == '\U{1680}'
    || ('\U{2000}' <= c <= '\U{200A}') || c == '\U{2028}' || c == '\U{2029}' || c == '\U{202F}'
    || c == '\U{205F}' || c == '\U{3000}'
  }

  predicate ForcesQuoting(c: char)
  {
    c == '"' || IsWhiteSpace(c)
  }

  predicate NeedsQuotes(s: string)
  {
    exists i | 0 <= i < |s| :: ForcesQuoting(s[i])
  }

  /** `s.Replace("\"", "\"\"")`. */
  function DoubleQuotes(s: string): (r: string)
    ensures |r| >= |s|
    ensures r == [] <==> s == []
    ensures s != [] && s[0] == '"' ==> r[0] == '"'
  {
    if s == [] then [] else (if s[0] == '"' then "\"\"" else [s[0]]) + DoubleQuotes(s[1..])
  }

  /** The text `FormatAsPrimitive` writes for a primitive whose ToString() is `s`. */
  function Quote(s: string): (r: string)
    ensures NeedsQuotes(s) <==> (|r| >= 2 && r[0] == '"' && r[|r| - 1] == '"')
    ensures !NeedsQuotes(s) ==> r == s
  {
    if NeedsQuotes(s) then "\"" + DoubleQuotes(s) + "\"" else s
  }

  /** Collapses every `""` back to `"`. */
  function CollapseQuotes(t: string): string
  {
    if |t| >= 2 && t[0] == '"' && t[1] == '"' then "\"" + CollapseQuotes(t[2..])
    else if t == [] then []
    else [t[0]] + CollapseQuotes(t[1..])
  }

  /** Reads a written primitive back: strips the outer quotes, if any, and collapses doubled quotes. */
  function Unquote(r: string): string
  {
    if |r| >= 2 && r[0] == '"' && r[|r| - 1] == '"' then CollapseQuotes(r[1..|r| - 1]) else r
  }

  lemma {:induction false} CollapseUndoesDoubling(s: string)
    ensures CollapseQuotes(DoubleQuotes(s)) == s
  {
    if s != [] {
      CollapseUndoesDoubling(s[1..]);
      var rest := DoubleQuotes(s[1..]);
      if s[0] == '"' {
        assert DoubleQuotes(s) == "\"\"" + rest;
        assert ("\"\"" + rest)[2..] == rest;
      } else {
        assert DoubleQuotes(s) == [s[0]] + rest;
        assert ([s[0]] + rest)[1..] == rest;
      }
    }
  }

  /** Reading back what `FormatAsPrimitive` wrote recovers the primitive's text. */
  lemma QuoteRoundTrip(s: string)
    ensures Unquote(Quote(s)) == s
  {
    if NeedsQuotes(s) {
      var r := Quote(s);
      assert r[1..|r| - 1] == DoubleQuotes(s);
      CollapseUndoesDoubling(s);
    }
  }

  /** Two primitives that print the same had the same text. */
  lemma QuoteInjective(s: string, t: string)
    requires Quote(s) == Quote(t)
    ensures s == t
  {
    QuoteRoundTrip(s);
    QuoteRoundTrip(t);
  }
}
