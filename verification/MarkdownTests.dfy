/** The line tests are the source's regular expressions: each is compared with the
    expression it stands for, under the ordinary meaning of regular expressions. */
module MarkdownTests {
  import opened Wrappers
  import opened Text
  import opened MarkdownBlocks
  import opened MarkdownMeaning

  /** A character class and how often it may occur: `lo` to `hi` times, or without limit. */
  datatype Part = Part(class_: char -> bool, lo: nat, hi: Option<nat>)

  type Regex = seq<Part>

  predicate All(class_: char -> bool, s: string) {
    forall i :: 0 <= i < |s| ==> class_(s[i])
  }

  /** The part takes the first `n` characters. */
  predicate TakesFirst(p: Part, s: string, n: nat) {
    p.lo <= n <= |s| && (p.hi.Some? ==> n <= p.hi.value) && All(p.class_, s[..n])
  }

  /** `^…$`: some way of cutting the text into the parts. */
  ghost predicate Matches(re: Regex, s: string) {
    if re == [] then s == "" else exists n: nat :: TakesFirst(re[0], s, n) && Matches(re[1..], s[n..])
  }

  function Is(c: char): char -> bool {
    (x: char) => x == c
  }

  function One(c: char): Part {
    Part(Is(c), 1, Some(1))
  }

  function Class(class_: char -> bool, lo: nat): Part {
    Part(class_, lo, None)
  }

  function Once(class_: char -> bool): Part {
    Part(class_, 1, Some(1))
  }

  /** What follows when an expression is not anchored at its end. */
  function Anything(): Part {
    Class((x: char) => true, 0)
  }

  const SPACE: char -> bool := (x: char) => IsSpace(x)
  const DIGIT: char -> bool := (x: char) => IsDigit(x)
  const DOT: char -> bool := (x: char) => !IsTerminator(x)

  const ALT: char -> bool := (x: char) => x != ']'
  const URL: char -> bool := (x: char) => x != ')'

  // The expressions, in the order of the source.

  const HASHED: Regex := [Part(Is('#'), 1, Some(6)), Once(SPACE), Anything()]
  const HEADING: Regex := [Part(Is('#'), 1, Some(6)), Class(SPACE, 1), Class(DOT, 0)]
  const RULE: Regex := [Class((x: char) => x in {'-', '*', '_'}, 3)]
  const IMAGE: Regex := [One('!'), One('['), Class(ALT, 0), One(']'), One('('), Class(URL, 1), One(')')]
  const PIPE_ROW: Regex := [One('|'), Class(DOT, 1), One('|')]
  const SEPARATOR: Regex := [One('|'), Class((x: char) => IsSpace(x) || x in {':', '|', '-'}, 1), One('|')]
  const QUOTE: Regex := [One('>'), Part(SPACE, 0, Some(1)), Anything()]
  const BULLET: Regex := [Once((x: char) => x in {'-', '*', '+'}), Once(SPACE), Anything()]
  const NUMBERED: Regex := [Class(DIGIT, 1), Once((x: char) => x in {'.', ')'}), Once(SPACE), Anything()]

  // ---------------------------------------------------------------------
  // Matching, part by part
  // ---------------------------------------------------------------------

  lemma {:induction false} Cons(p: Part, re: Regex, s: string, n: nat)
    requires TakesFirst(p, s, n) && Matches(re, s[n..])
    ensures Matches([p] + re, s)
  {
    assert ([p] + re)[0] == p && ([p] + re)[1..] == re;
  }

  lemma {:induction false} Uncons(p: Part, re: Regex, s: string) returns (n: nat)
    requires Matches([p] + re, s)
    ensures TakesFirst(p, s, n) && Matches(re, s[n..])
  {
    assert ([p] + re)[0] == p && ([p] + re)[1..] == re;
    n :| TakesFirst(([p] + re)[0], s, n) && Matches(([p] + re)[1..], s[n..]);
  }

  /** One character of a class at the front. */
  lemma {:induction false} OnceIff(class_: char -> bool, re: Regex, s: string)
    ensures Matches([Once(class_)] + re, s) <==> s != "" && class_(s[0]) && Matches(re, s[1..])
  {
    if Matches([Once(class_)] + re, s) {
      var n := Uncons(Once(class_), re, s);
      assert n == 1 && s[..1][0] == s[0];
    }
    if s != "" && class_(s[0]) && Matches(re, s[1..]) {
      Cons(Once(class_), re, s, 1);
    }
  }

  /** A class to the end. */
  lemma {:induction false} LastIff(class_: char -> bool, lo: nat, s: string)
    ensures Matches([Class(class_, lo)], s) <==> |s| >= lo && All(class_, s)
  {
    assert [Class(class_, lo)] + [] == [Class(class_, lo)];
    if Matches([Class(class_, lo)], s) {
      var n := Uncons(Class(class_, lo), [], s);
      assert s[..n] == s;
    }
    if |s| >= lo && All(class_, s) {
      assert s[..|s|] == s && s[|s|..] == "";
      Cons(Class(class_, lo), [], s, |s|);
    }
  }

  lemma {:induction false} EndIff(c: char, s: string)
    ensures Matches([One(c)], s) <==> s == [c]
  {
    OnceIff(Is(c), [], s);
    assert [One(c)] + [] == [One(c)];
    assert s != "" ==> s == [s[0]] + s[1..];
  }

  /** A class and then one character at the end. */
  lemma {:induction false} UpToLastIff(class_: char -> bool, lo: nat, c: char, s: string)
    ensures Matches([Class(class_, lo), One(c)], s) <==>
            |s| > lo && All(class_, s[..|s| - 1]) && s[|s| - 1] == c
  {
    assert [Class(class_, lo)] + [One(c)] == [Class(class_, lo), One(c)];
    if Matches([Class(class_, lo), One(c)], s) {
      var n := Uncons(Class(class_, lo), [One(c)], s);
      EndIff(c, s[n..]);
      assert |s[n..]| == 1 && s[n..][0] == s[n];
    }
    if |s| > lo && All(class_, s[..|s| - 1]) && s[|s| - 1] == c {
      EndIff(c, s[|s| - 1..]);
      Cons(Class(class_, lo), [One(c)], s, |s| - 1);
    }
  }

  lemma {:induction false} AnythingMatches(s: string)
    ensures Matches([Anything()], s)
  {
    LastIff((x: char) => true, 0, s);
  }

  // ---------------------------------------------------------------------
  // The tests
  // ---------------------------------------------------------------------

  lemma {:induction false} RuleIff(line: string)
    ensures IsRule(line) <==> Matches(RULE, Trim(line))
  {
    LastIff((x: char) => x in {'-', '*', '_'}, 3, Trim(line));
  }

  lemma {:induction false} BulletIff(line: string)
    ensures IsBullet(line) <==> Matches(BULLET, line)
  {
    var mark := (x: char) => x in {'-', '*', '+'};
    assert [Once(mark)] + ([Once(SPACE)] + [Anything()]) == BULLET;
    OnceIff(mark, [Once(SPACE)] + [Anything()], line);
    if line != "" {
      OnceIff(SPACE, [Anything()], line[1..]);
      if |line| >= 2 {
        AnythingMatches(line[1..][1..]);
      }
    }
  }

  lemma {:induction false} QuoteIff(line: string)
    ensures IsQuote(line) <==> Matches(QUOTE, line)
  {
    var rest := [Part(SPACE, 0, Some(1))] + [Anything()];
    assert [One('>')] + rest == QUOTE;
    OnceIff(Is('>'), rest, line);
    if line != "" {
      AnythingMatches(line[1..][0..]);
      Cons(Part(SPACE, 0, Some(1)), [Anything()], line[1..], 0);
    }
  }

  lemma {:induction false} PipeRowIff(line: string)
    ensures IsPipeRow(line) <==> Matches(PIPE_ROW, Trim(line))
  {
    var t := Trim(line);
    assert [One('|')] + [Class(DOT, 1), One('|')] == PIPE_ROW;
    OnceIff(Is('|'), [Class(DOT, 1), One('|')], t);
    if t != "" {
      UpToLastIff(DOT, 1, '|', t[1..]);
      assert |t| >= 2 ==> t[1..][..|t| - 2] == t[1..|t| - 1];
    }
  }

  lemma {:induction false} SeparatorIff(line: string)
    ensures IsSeparator(line) <==> Matches(SEPARATOR, Trim(line))
  {
    var t := Trim(line);
    var dash := (x: char) => IsSpace(x) || x in {':', '|', '-'};
    assert [One('|')] + [Class(dash, 1), One('|')] == SEPARATOR;
    OnceIff(Is('|'), [Class(dash, 1), One('|')], t);
    if t != "" {
      UpToLastIff(dash, 1, '|', t[1..]);
      assert |t| >= 2 ==> t[1..][..|t| - 2] == t[1..|t| - 1];
    }
  }

  lemma {:induction false} SkipDigitsAt(s: string, i: nat, n: nat)
    requires i <= n <= |s| && All(DIGIT, s[i..n]) && (n < |s| ==> !IsDigit(s[n]))
    ensures SkipDigits(s, i) == n
    decreases n - i
  {
    if i < n {
      assert s[i..n][0] == s[i] && s[i..n][1..] == s[i + 1..n];
      SkipDigitsAt(s, i + 1, n);
    }
  }

  /** A number's mark and one white space, and anything behind. */
  lemma {:induction false} AfterDigitsIff(s: string)
    ensures Matches([Once((x: char) => x in {'.', ')'}), Once(SPACE), Anything()], s) <==>
            |s| >= 2 && s[0] in {'.', ')'} && IsSpace(s[1])
  {
    var mark := (x: char) => x in {'.', ')'};
    assert [Once(mark)] + ([Once(SPACE)] + [Anything()]) == [Once(mark), Once(SPACE), Anything()];
    OnceIff(mark, [Once(SPACE)] + [Anything()], s);
    if s != "" {
      OnceIff(SPACE, [Anything()], s[1..]);
      if |s| >= 2 {
        AnythingMatches(s[1..][1..]);
      }
    }
  }

  lemma {:induction false} NumberedIff(line: string)
    ensures IsNumbered(line) <==> Matches(NUMBERED, line)
  {
    var rest := [Once((x: char) => x in {'.', ')'}), Once(SPACE), Anything()];
    assert [Class(DIGIT, 1)] + rest == NUMBERED;
    if Matches(NUMBERED, line) {
      var n := Uncons(Class(DIGIT, 1), rest, line);
      AfterDigitsIff(line[n..]);
      assert line[..n] == line[0..n] && line[n..][0] == line[n] && line[n..][1] == line[n + 1];
      SkipDigitsAt(line, 0, n);
    }
    if IsNumbered(line) {
      var n := SkipDigits(line, 0);
      SkipDigitsIs(line, 0);
      assert line[0..n] == line[..n];
      AfterDigitsIff(line[n..]);
      Cons(Class(DIGIT, 1), rest, line, n);
    }
  }

  lemma {:induction false} SkipCharIs(s: string, i: nat, c: char)
    requires i <= |s|
    ensures All(Is(c), s[i..SkipChar(s, i, c)])
    ensures SkipChar(s, i, c) < |s| ==> s[SkipChar(s, i, c)] != c
    decreases |s| - i
  {
    if i < |s| && s[i] == c {
      SkipCharIs(s, i + 1, c);
      assert s[i..SkipChar(s, i, c)] == [s[i]] + s[i + 1..SkipChar(s, i, c)];
    }
  }

  lemma {:induction false} SkipCharAt(s: string, i: nat, n: nat, c: char)
    requires i <= n <= |s| && All(Is(c), s[i..n]) && (n < |s| ==> s[n] != c)
    ensures SkipChar(s, i, c) == n
    decreases n - i
  {
    if i < n {
      assert s[i..n][0] == s[i] && s[i..n][1..] == s[i + 1..n];
      SkipCharAt(s, i + 1, n, c);
    }
  }

  /** Hash marks in front of something that does not begin with one. */
  lemma {:induction false} HashesMatch(re: Regex, s: string)
    requires 1 <= SkipChar(s, 0, '#') <= 6 && Matches(re, s[SkipChar(s, 0, '#')..])
    ensures Matches([Part(Is('#'), 1, Some(6))] + re, s)
  {
    var n := SkipChar(s, 0, '#');
    SkipCharIs(s, 0, '#');
    assert s[0..n] == s[..n];
    Cons(Part(Is('#'), 1, Some(6)), re, s, n);
  }

  lemma {:induction false} MatchHashes(re: Regex, s: string) returns (n: nat)
    requires Matches([Part(Is('#'), 1, Some(6))] + re, s)
    ensures 1 <= n <= 6 && n <= |s| && Matches(re, s[n..])
    ensures n < |s| && s[n] != '#' ==> n == SkipChar(s, 0, '#')
  {
    n := Uncons(Part(Is('#'), 1, Some(6)), re, s);
    assert s[0..n] == s[..n];
    if n < |s| && s[n] != '#' {
      SkipCharAt(s, 0, n, '#');
    }
  }

  lemma {:induction false} HashedIff(line: string)
    ensures IsHashed(line) <==> Matches(HASHED, line)
  {
    var rest := [Once(SPACE)] + [Anything()];
    assert [Part(Is('#'), 1, Some(6))] + rest == HASHED;
    if Matches(HASHED, line) {
      var n := MatchHashes(rest, line);
      OnceIff(SPACE, [Anything()], line[n..]);
    }
    if IsHashed(line) {
      var n := SkipChar(line, 0, '#');
      OnceIff(SPACE, [Anything()], line[n..]);
      AnythingMatches(line[n..][1..]);
      HashesMatch(rest, line);
    }
  }

  /** White space and then a line of text. */
  lemma {:induction false} SpacedMatches(s: string)
    requires s != "" && IsSpace(s[0]) && All(DOT, TrimStart(s))
    ensures Matches([Class(SPACE, 1), Class(DOT, 0)], s)
  {
    var a := TrimStartIs(s);
    assert a != "";
    assert [Class(SPACE, 1)] + [Class(DOT, 0)] == [Class(SPACE, 1), Class(DOT, 0)];
    assert s[..|a|] == a && s[|a|..] == TrimStart(s);
    LastIff(DOT, 0, TrimStart(s));
    Cons(Class(SPACE, 1), [Class(DOT, 0)], s, |a|);
  }

  lemma {:induction false} TrimStartSkips(s: string, n: nat)
    requires n <= |s| && All(SPACE, s[..n])
    ensures TrimStart(s) == TrimStart(s[n..])
  {
    if n > 0 {
      assert s[..n][0] == s[0] && s[1..][..n - 1] == s[..n][1..];
      TrimStartSkips(s[1..], n - 1);
      assert s[1..][n - 1..] == s[n..];
    } else {
      assert s[0..] == s;
    }
  }

  lemma {:induction false} MatchSpaced(s: string)
    requires Matches([Class(SPACE, 1), Class(DOT, 0)], s)
    ensures s != "" && IsSpace(s[0]) && All(DOT, TrimStart(s))
  {
    assert [Class(SPACE, 1)] + [Class(DOT, 0)] == [Class(SPACE, 1), Class(DOT, 0)];
    var n := Uncons(Class(SPACE, 1), [Class(DOT, 0)], s);
    LastIff(DOT, 0, s[n..]);
    assert s[..n][0] == s[0];
    TrimStartSkips(s, n);
    var a := TrimStartIs(s[n..]);
    forall i | 0 <= i < |TrimStart(s)| ensures DOT(TrimStart(s)[i]) {
      assert TrimStart(s)[i] == s[n..][|a| + i];
    }
  }

  lemma {:induction false} HeadingIff(line: string)
    ensures IsHeading(line) <==> Matches(HEADING, line)
  {
    var rest := [Class(SPACE, 1), Class(DOT, 0)];
    assert [Part(Is('#'), 1, Some(6))] + rest == HEADING;
    if Matches(HEADING, line) {
      var n := MatchHashes(rest, line);
      MatchSpaced(line[n..]);
      assert line[n..][0] == line[n];
    }
    if IsHeading(line) {
      SpacedMatches(line[SkipChar(line, 0, '#')..]);
      HashesMatch(rest, line);
    }
  }

  /** `](…)` at the end. */
  lemma {:induction false} TargetIff(s: string)
    ensures Matches([One(']'), One('('), Class(URL, 1), One(')')], s) <==>
            |s| >= 4 && s[0] == ']' && s[1] == '(' && s[|s| - 1] == ')' && All(URL, s[2..|s| - 1])
  {
    var url := [Class(URL, 1), One(')')];
    assert [One(']')] + ([One('(')] + url) == [One(']'), One('('), Class(URL, 1), One(')')];
    OnceIff(Is(']'), [One('(')] + url, s);
    if s != "" {
      OnceIff(Is('('), url, s[1..]);
      if |s| >= 2 {
        UpToLastIff(URL, 1, ')', s[1..][1..]);
        assert s[1..][1..] == s[2..] && (|s| >= 3 ==> s[2..][..|s| - 3] == s[2..|s| - 1]);
      }
    }
  }

  lemma {:induction false} ClosedIff(t: string, a: nat)
    requires 2 <= a <= |t|
    ensures IsImageClosedAt(t, a) <==>
            All(ALT, t[2..a]) && Matches([One(']'), One('('), Class(URL, 1), One(')')], t[a..])
  {
    TargetIff(t[a..]);
    if a + 4 <= |t| {
      assert t[a..][2..|t| - a - 1] == t[a + 2..|t| - 1];
    }
  }

  lemma {:induction false} AltIff(t: string)
    requires |t| >= 2
    ensures Matches([Class(ALT, 0)] + [One(']'), One('('), Class(URL, 1), One(')')], t[2..]) <==>
            exists a :: 2 <= a < |t| && IsImageClosedAt(t, a)
  {
    var target := [One(']'), One('('), Class(URL, 1), One(')')];
    if Matches([Class(ALT, 0)] + target, t[2..]) {
      var n := Uncons(Class(ALT, 0), target, t[2..]);
      assert t[2..][..n] == t[2..2 + n] && t[2..][n..] == t[2 + n..];
      ClosedIff(t, 2 + n);
    }
    if a :| 2 <= a < |t| && IsImageClosedAt(t, a) {
      ClosedIff(t, a);
      assert t[2..][..a - 2] == t[2..a] && t[2..][a - 2..] == t[a..];
      Cons(Class(ALT, 0), target, t[2..], a - 2);
    }
  }

  lemma {:induction false} OpeningIff(re: Regex, t: string)
    ensures Matches([One('!')] + ([One('[')] + re), t) <==> StartsWith(t, "![") && Matches(re, t[2..])
  {
    OpensIff(t);
    OnceIff(Is('!'), [One('[')] + re, t);
    if t != "" {
      OnceIff(Is('['), re, t[1..]);
      assert |t| >= 2 ==> t[1..][1..] == t[2..];
    }
  }

  lemma {:induction false} ImageIff(line: string)
    ensures IsImage(line) <==> Matches(IMAGE, Trim(line))
  {
    var alt := [Class(ALT, 0)] + [One(']'), One('('), Class(URL, 1), One(')')];
    assert [One('!')] + ([One('[')] + alt) == IMAGE;
    OpeningIff(alt, Trim(line));
    if StartsWith(Trim(line), "![") {
      AltIff(Trim(line));
    }
  }

  lemma {:induction false} OpensIff(t: string)
    ensures StartsWith(t, "![") <==> |t| >= 2 && t[0] == '!' && t[1] == '['
  {
    assert |t| >= 2 ==> t[..2] == [t[0], t[1]];
    assert "![" == ['!', '['];
  }

  /** A fence is white space and three backticks, and anything behind. */
  const FENCE: Regex := [Class(SPACE, 0), One('`'), One('`'), One('`'), Anything()]

  /** So many backticks, and anything behind. */
  function Ticks(k: nat): Regex {
    if k == 0 then [Anything()] else [One('`')] + Ticks(k - 1)
  }

  lemma {:induction false} TicksMatch(k: nat, s: string)
    ensures Matches(Ticks(k), s) <==> |s| >= k && forall i :: 0 <= i < k ==> s[i] == '`'
  {
    if k == 0 {
      AnythingMatches(s);
    } else {
      OnceIff(Is('`'), Ticks(k - 1), s);
      if s != "" {
        TicksMatch(k - 1, s[1..]);
        assert forall i :: 0 < i < k && i < |s| ==> s[1..][i - 1] == s[i];
      }
    }
  }

  lemma {:induction false} TicksIff(s: string)
    ensures Matches([One('`'), One('`'), One('`'), Anything()], s) <==> StartsWith(s, "```")
  {
    assert Ticks(0) == [Anything()] && Ticks(1) == [One('`'), Anything()];
    assert Ticks(3) == [One('`'), One('`'), One('`'), Anything()];
    TicksMatch(3, s);
    assert |s| >= 3 ==> s[..3] == [s[0], s[1], s[2]];
  }

  lemma {:induction false} TicksSurviveTrim(line: string)
    ensures StartsWith(TrimStart(line), "```") <==> IsFence(line)
  {
    var s := TrimStart(line);
    if StartsWith(s, "```") {
      assert s[..3][0] == s[0] && s[..3][1] == s[1] && s[..3][2] == s[2];
      TrimEndKeeps(s, 3);
    }
    if IsFence(line) {
      var b := TrimEndIs(s);
      assert s[..3] == Trim(line)[..3];
    }
  }

  lemma {:induction false} FenceIff(line: string)
    ensures IsFence(line) <==> Matches(FENCE, line)
  {
    var ticks := [One('`'), One('`'), One('`'), Anything()];
    assert [Class(SPACE, 0)] + ticks == FENCE;
    TicksSurviveTrim(line);
    if IsFence(line) {
      var a := TrimStartIs(line);
      assert line[..|a|] == a && line[|a|..] == TrimStart(line);
      TicksIff(TrimStart(line));
      Cons(Class(SPACE, 0), ticks, line, |a|);
    }
    if Matches(FENCE, line) {
      var n := Uncons(Class(SPACE, 0), ticks, line);
      TicksIff(line[n..]);
      TrimStartSkips(line, n);
      FenceLeads(line[n..], "```");
      TrimStartPrefix(line[n..]);
    }
  }

  /** The tests of the block loop are these expressions. */
  lemma {:induction false} TestsAreTheExpressions(line: string)
    ensures && (IsHashed(line) <==> Matches(HASHED, line)) && (IsHeading(line) <==> Matches(HEADING, line))
            && (IsRule(line) <==> Matches(RULE, Trim(line))) && (IsImage(line) <==> Matches(IMAGE, Trim(line)))
            && (IsPipeRow(line) <==> Matches(PIPE_ROW, Trim(line)))
            && (IsSeparator(line) <==> Matches(SEPARATOR, Trim(line))) && (IsQuote(line) <==> Matches(QUOTE, line))
            && (IsBullet(line) <==> Matches(BULLET, line)) && (IsNumbered(line) <==> Matches(NUMBERED, line))
            && (IsFence(line) <==> Matches(FENCE, line))
  {
    FenceIff(line);
    HashedIff(line);
    HeadingIff(line);
    RuleIff(line);
    ImageIff(line);
    PipeRowIff(line);
    SeparatorIff(line);
    QuoteIff(line);
    BulletIff(line);
    NumberedIff(line);
  }

  /** And so is the test that ends a paragraph. */
  lemma {:induction false} BoundaryIff(line: string)
    ensures IsBoundary(line) <==>
            || AllSpace(line) || Matches(HASHED, line) || StartsWith(line, "```") || Matches(QUOTE, line)
            || Matches(BULLET, line) || Matches(NUMBERED, line) || Matches(PIPE_ROW, Trim(line))
            || StartsWith(Trim(line), "![") || Matches(RULE, Trim(line))
  {
    TestsAreTheExpressions(line);
    BlankIff(line);
  }

  lemma {:induction false} BlankIff(line: string)
    ensures IsBlank(line) <==> AllSpace(line)
  {
    TrimIs(line);
    var a, b :| AllSpace(a) && AllSpace(b) && line == a + Trim(line) + b;
    if IsBlank(line) {
      assert line == a + b;
    } else {
      assert line[|a|] == Trim(line)[0];
    }
  }
}
