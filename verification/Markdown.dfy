/** The Markdown block parser and HTML escaping (`app/src/lib/mdsvex.ts`). */
module Markdown {
  import opened Text

  // ---------------------------------------------------------------------
  // escapeHtml
  // ---------------------------------------------------------------------

  /** `s.replaceAll(c, r)` for a single character. */
  function ReplaceAll(s: string, c: char, r: string): string {
    if s == "" then "" else (if s[0] == c then r else [s[0]]) + ReplaceAll(s[1..], c, r)
  }

  /** The five passes, in the source's order. */
  function EscapeHtml(s: string): string {
    ReplaceAll(ReplaceAll(ReplaceAll(ReplaceAll(ReplaceAll(s, '&', "&amp;"), '<', "&lt;"), '>', "&gt;"), '"',
                          "&quot;"), '\'', "&#39;")
  }

  /** The same as one substitution per character. */
  function EscapeChar(c: char): string {
    if c == '&' then "&amp;" else if c == '<' then "&lt;" else if c == '>' then "&gt;"
    else if c == '"' then "&quot;" else if c == '\'' then "&#39;" else [c]
  }

  function EscapeEach(s: string): string {
    if s == "" then "" else EscapeChar(s[0]) + EscapeEach(s[1..])
  }

  lemma {:induction false} ReplaceConcat(a: string, b: string, c: char, r: string)
    ensures ReplaceAll(a + b, c, r) == ReplaceAll(a, c, r) + ReplaceAll(b, c, r)
  {
    if a == "" {
      assert a + b == b;
    } else {
      ReplaceConcat(a[1..], b, c, r);
      assert (a + b)[1..] == a[1..] + b;
    }
  }

  lemma {:induction false} ReplaceNone(s: string, c: char, r: string)
    requires c !in s
    ensures ReplaceAll(s, c, r) == s
  {
    if s != "" {
      ReplaceNone(s[1..], c, r);
    }
  }

  lemma ReplaceOne(c: char, r: string)
    ensures ReplaceAll([c], c, r) == r
  {
    assert [c][1..] == "";
    assert ReplaceAll("", c, r) == "";
  }

  lemma EscapeConcat(a: string, b: string)
    ensures EscapeHtml(a + b) == EscapeHtml(a) + EscapeHtml(b)
  {
    ReplaceConcat(a, b, '&', "&amp;");
    var a1, b1 := ReplaceAll(a, '&', "&amp;"), ReplaceAll(b, '&', "&amp;");
    ReplaceConcat(a1, b1, '<', "&lt;");
    var a2, b2 := ReplaceAll(a1, '<', "&lt;"), ReplaceAll(b1, '<', "&lt;");
    ReplaceConcat(a2, b2, '>', "&gt;");
    var a3, b3 := ReplaceAll(a2, '>', "&gt;"), ReplaceAll(b2, '>', "&gt;");
    ReplaceConcat(a3, b3, '"', "&quot;");
    ReplaceConcat(ReplaceAll(a3, '"', "&quot;"), ReplaceAll(b3, '"', "&quot;"), '\'', "&#39;");
  }

  /** A later pass never touches what an earlier one produced. */
  lemma EscapeOne(c: char)
    ensures EscapeHtml([c]) == EscapeChar(c)
  {
    if c == '&' {
      ReplaceOne(c, "&amp;");
      LaterPasses("&amp;");
    } else {
      ReplaceNone([c], '&', "&amp;");
      if c == '<' {
        ReplaceOne(c, "&lt;");
        LaterPasses("&lt;");
      } else {
        ReplaceNone([c], '<', "&lt;");
        if c == '>' {
          ReplaceOne(c, "&gt;");
          LaterPasses("&gt;");
        } else {
          ReplaceNone([c], '>', "&gt;");
          if c == '"' {
            ReplaceOne(c, "&quot;");
            LaterPasses("&quot;");
          } else {
            ReplaceNone([c], '"', "&quot;");
            if c == '\'' {
              ReplaceOne(c, "&#39;");
            } else {
              ReplaceNone([c], '\'', "&#39;");
            }
          }
        }
      }
    }
  }

  lemma LaterPasses(s: string)
    requires '<' !in s && '>' !in s && '"' !in s && '\'' !in s
    ensures ReplaceAll(s, '<', "&lt;") == s && ReplaceAll(s, '>', "&gt;") == s
    ensures ReplaceAll(s, '"', "&quot;") == s && ReplaceAll(s, '\'', "&#39;") == s
  {
    ReplaceNone(s, '<', "&lt;");
    ReplaceNone(s, '>', "&gt;");
    ReplaceNone(s, '"', "&quot;");
    ReplaceNone(s, '\'', "&#39;");
  }

  /** The five passes are one simultaneous substitution. */
  lemma {:induction false} EscapeIsSimultaneous(s: string)
    ensures EscapeHtml(s) == EscapeEach(s)
  {
    if s == "" {
      LaterPasses("");
    } else {
      assert s == [s[0]] + s[1..];
      EscapeConcat([s[0]], s[1..]);
      EscapeOne(s[0]);
      EscapeIsSimultaneous(s[1..]);
    }
  }

  /** Which entity starts here, told by its first letter, and how long it is. */
  function Entity(s: string): (char, nat)
    requires s != ""
  {
    if |s| >= 5 && s[0] == '&' && s[1] == 'a' then ('&', 5)
    else if |s| >= 4 && s[0] == '&' && s[1] == 'l' then ('<', 4)
    else if |s| >= 4 && s[0] == '&' && s[1] == 'g' then ('>', 4)
    else if |s| >= 6 && s[0] == '&' && s[1] == 'q' then ('"', 6)
    else if |s| >= 5 && s[0] == '&' && s[1] == '#' then ('\'', 5)
    else (s[0], 1)
  }

  /** Reads the entities back. */
  function Unescape(s: string): string
    decreases |s|
  {
    if s == "" then "" else [Entity(s).0] + Unescape(s[Entity(s).1..])
  }

  lemma UnescapeStep(c: char, rest: string)
    ensures Unescape(EscapeChar(c) + rest) == [c] + Unescape(rest)
  {
    var e, t := EscapeChar(c), EscapeChar(c) + rest;
    assert t[0] == e[0] && (|e| > 1 ==> t[1] == e[1]);
    assert Entity(t) == (c, |e|);
    assert t[|e|..] == rest;
  }

  /** Escaping loses nothing: it can be undone, so it is injective. */
  lemma {:induction false} EscapeRoundTrip(s: string)
    ensures Unescape(EscapeHtml(s)) == s
  {
    EscapeIsSimultaneous(s);
    if s != "" {
      EscapeIsSimultaneous(s[1..]);
      EscapeRoundTrip(s[1..]);
      UnescapeStep(s[0], EscapeEach(s[1..]));
    }
  }

  /** And leaves no character that could open a tag or close an attribute. */
  lemma {:induction false} EscapedIsInert(s: string)
    ensures forall i :: 0 <= i < |EscapeHtml(s)| ==> EscapeHtml(s)[i] !in {'<', '>', '"', '\''}
  {
    EscapeIsSimultaneous(s);
    if s != "" {
      EscapeIsSimultaneous(s[1..]);
      EscapedIsInert(s[1..]);
    }
  }

  lemma EscapeInjective(s: string, t: string)
    requires EscapeHtml(s) == EscapeHtml(t)
    ensures s == t
  {
    EscapeRoundTrip(s);
    EscapeRoundTrip(t);
  }
}
