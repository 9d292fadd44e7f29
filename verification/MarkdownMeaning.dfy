/** What the block loop's tests accept and what a block keeps of its lines. */
module MarkdownMeaning {
  import opened Text
  import opened MarkdownBlocks

  // ---------------------------------------------------------------------
  // Trimming
  // ---------------------------------------------------------------------

  predicate AllSpace(s: string) {
    forall i :: 0 <= i < |s| ==> IsSpace(s[i])
  }

  /** `t` is `s` without the white space around it. */
  ghost predicate IsTrimmed(s: string, t: string) {
    && (exists a, b :: AllSpace(a) && AllSpace(b) && s == a + t + b)
    && (t != "" ==> !IsSpace(t[0]) && !IsSpace(t[|t| - 1]))
  }

  lemma {:induction false} TrimStartIs(s: string) returns (a: string)
    ensures AllSpace(a) && s == a + TrimStart(s) && (TrimStart(s) != "" ==> !IsSpace(TrimStart(s)[0]))
  {
    if s != "" && IsSpace(s[0]) {
      var rest := TrimStartIs(s[1..]);
      a := [s[0]] + rest;
    } else {
      a := "";
    }
  }

  lemma {:induction false} TrimEndIs(s: string) returns (b: string)
    ensures AllSpace(b) && s == TrimEnd(s) + b && (TrimEnd(s) != "" ==> !IsSpace(TrimEnd(s)[|TrimEnd(s)| - 1]))
  {
    if s != "" && IsSpace(s[|s| - 1]) {
      var rest := TrimEndIs(s[..|s| - 1]);
      b := rest + [s[|s| - 1]];
    } else {
      b := "";
    }
  }

  lemma TrimIs(s: string)
    ensures IsTrimmed(s, Trim(s))
  {
    var a := TrimStartIs(s);
    var b := TrimEndIs(TrimStart(s));
    assert s == a + Trim(s) + b;
    assert Trim(s) != "" ==> Trim(s)[0] == TrimStart(s)[0];
  }

  // ---------------------------------------------------------------------
  // Line endings
  // ---------------------------------------------------------------------

  /** The parts, with `sep` between them. */
  function Rejoin(parts: seq<string>, sep: string): string
    requires parts != []
  {
    if |parts| == 1 then parts[0] else parts[0] + sep + Rejoin(parts[1..], sep)
  }

  predicate Unbroken(s: string) {
    forall i :: 0 <= i < |s| - 1 ==> !(s[i] == '\r' && s[i + 1] == '\n')
  }

  /** Normalising replaces each line ending of two characters by the one, and nothing else. */
  lemma {:induction false} NormalizeIs(s: string) returns (parts: seq<string>)
    ensures parts != [] && forall i :: 0 <= i < |parts| ==> Unbroken(parts[i])
    ensures s == Rejoin(parts, "\r\n") && Normalize(s) == Rejoin(parts, "\n")
  {
    if |s| < 2 {
      parts := [s];
    } else if s[0] == '\r' && s[1] == '\n' {
      var rest := NormalizeIs(s[2..]);
      parts := [""] + rest;
      assert parts[1..] == rest && s == "\r\n" + s[2..];
    } else {
      var rest := NormalizeIs(s[1..]);
      parts := [[s[0]] + rest[0]] + rest[1..];
      assert s == [s[0]] + s[1..];
      FirstGrows(s[0], rest, "\r\n");
      FirstGrows(s[0], rest, "\n");
      assert s[1..] == Rejoin(rest, "\r\n");
      assert rest[0] != "" ==> s[1..][0] == rest[0][0];
    }
  }

  lemma FirstGrows(c: char, parts: seq<string>, sep: string)
    requires parts != []
    ensures Rejoin([[c] + parts[0]] + parts[1..], sep) == [c] + Rejoin(parts, sep)
  {
    var more := [[c] + parts[0]] + parts[1..];
    if |parts| > 1 {
      assert more[1..] == parts[1..];
      assert [c] + parts[0] + sep + Rejoin(parts[1..], sep) == [c] + (parts[0] + sep + Rejoin(parts[1..], sep));
    }
  }

  // ---------------------------------------------------------------------
  // What is kept of a line
  // ---------------------------------------------------------------------

  predicate AllDigits(s: string) {
    forall i :: 0 <= i < |s| ==> IsDigit(s[i])
  }

  /** A list mark: a bullet, or digits and a period or parenthesis; and one white space. */
  predicate IsMark(k: Kind, mark: string) {
    && |mark| >= 2 && IsSpace(mark[|mark| - 1])
    && if k.Bullets? then |mark| == 2 && mark[0] in {'-', '*', '+'}
       else |mark| >= 3 && AllDigits(mark[..|mark| - 2]) && mark[|mark| - 2] in {'.', ')'}
  }

  /** How a line and the piece kept of it are related. */
  ghost predicate Keeps(k: Kind, line: string, piece: string) {
    match k
    case Code => piece == line
    case Quote =>
      || (line == ">" + piece && (piece == "" || !IsSpace(piece[0])))
      || exists c :: IsSpace(c) && line == ['>', c] + piece
    case Bullets => exists mark, rest :: IsMark(k, mark) && line == mark + rest && IsTrimmed(rest, piece)
    case Numbers => exists mark, rest :: IsMark(k, mark) && line == mark + rest && IsTrimmed(rest, piece)
    case _ => IsTrimmed(line, piece)
  }

  lemma {:induction false} SkipDigitsIs(s: string, i: nat)
    requires i <= |s|
    ensures AllDigits(s[i..SkipDigits(s, i)])
    ensures SkipDigits(s, i) < |s| ==> !IsDigit(s[SkipDigits(s, i)])
    decreases |s| - i
  {
    if i < |s| && IsDigit(s[i]) {
      SkipDigitsIs(s, i + 1);
      assert s[i..SkipDigits(s, i)] == [s[i]] + s[i + 1..SkipDigits(s, i)];
    }
  }

  lemma QuoteKeeps(line: string)
    requires IsQuote(line)
    ensures Keeps(Quote, line, Piece(Quote, line))
  {
    assert line == ">" + line[1..];
    assert |line| >= 2 ==> line == ['>', line[1]] + line[2..];
  }

  lemma BulletKeeps(line: string)
    requires IsBullet(line)
    ensures Keeps(Bullets, line, Piece(Bullets, line))
  {
    TrimIs(line[2..]);
    assert IsMark(Bullets, line[..2]) && line == line[..2] + line[2..];
  }

  lemma NumberKeeps(line: string)
    requires IsNumbered(line)
    ensures Keeps(Numbers, line, Piece(Numbers, line))
  {
    var n := SkipDigits(line, 0) + 2;
    var mark, rest := line[..n], line[n..];
    SkipDigitsIs(line, 0);
    TrimIs(rest);
    assert mark[..n - 2] == line[0..n - 2];
    assert IsMark(Numbers, mark) && line == mark + rest;
  }

  /** Line `j` of the block at `i`, and what is kept of it. */
  ghost predicate KeptAt(lines: seq<string>, i: nat, j: nat)
    requires i < |lines|
  {
    var b := BlockAt(lines, i);
    |b.content| == b.to - i && (i + j < b.to ==> Keeps(b.kind, lines[i + j], b.content[j]))
  }

  lemma ListKept(lines: seq<string>, i: nat, j: nat)
    requires i < |lines| && KindAt(lines, i) in {Quote, Bullets, Numbers} && i + j < BlockAt(lines, i).to
    ensures KeptAt(lines, i, j)
  {
    var k, e := KindAt(lines, i), BlockAt(lines, i).to;
    RunIs(k, lines, i);
    PieceAt(k, lines, i, e, j);
    var line := lines[i + j];
    assert Continues(k, line);
    match k
    case Quote => QuoteKeeps(line);
    case Bullets => BulletKeeps(line);
    case Numbers => NumberKeeps(line);
  }

  lemma TableKept(lines: seq<string>, i: nat, j: nat)
    requires i < |lines| && KindAt(lines, i).Table? && i + j < BlockAt(lines, i).to
    ensures KeptAt(lines, i, j)
  {
    TrimIs(lines[i + j]);
    TableContent(lines, i, j);
  }

  lemma TableContent(lines: seq<string>, i: nat, j: nat)
    requires i < |lines| && KindAt(lines, i).Table? && i + j < BlockAt(lines, i).to
    ensures |BlockAt(lines, i).content| == BlockAt(lines, i).to - i &&
            BlockAt(lines, i).content[j] == Trim(lines[i + j])
  {
    var e := BlockAt(lines, i).to;
    var head, rows := [Trim(lines[i]), Trim(lines[i + 1])], Pieces(Table, lines, i + 2, e);
    assert BlockAt(lines, i).content == head + rows;
    if j >= 2 {
      PieceAt(Table, lines, i + 2, e, j - 2);
    }
  }

  lemma ParagraphKept(lines: seq<string>, i: nat, j: nat)
    requires i < |lines| && KindAt(lines, i).Paragraph? && i + j < BlockAt(lines, i).to
    ensures KeptAt(lines, i, j)
  {
    TrimIs(lines[i + j]);
    var e := RunEnd(Paragraph, lines, i);
    if e > i {
      PieceAt(Paragraph, lines, i, e, j);
    }
  }

  /** A block keeps a piece of each of its lines, in order: list items and quotes without
      their mark, everything else trimmed. Code blocks leave out the fences (`CodeIs`) and
      blank lines keep nothing. */
  lemma LinesAreKept(lines: seq<string>, i: nat, j: nat)
    requires i < |lines| && !KindAt(lines, i).Code? && !KindAt(lines, i).Blank? && i + j < BlockAt(lines, i).to
    ensures KeptAt(lines, i, j)
  {
    TrimIs(lines[i]);
    match KindAt(lines, i)
    case Quote => ListKept(lines, i, j);
    case Bullets => ListKept(lines, i, j);
    case Numbers => ListKept(lines, i, j);
    case Table => TableKept(lines, i, j);
    case Paragraph => ParagraphKept(lines, i, j);
    case _ =>
  }

  /** How far a block goes: lists, quotes and the rows of a table are maximal runs of lines that
      pass their test; headings, rules, images and blanks are one line. */
  lemma ExtentIs(lines: seq<string>, i: nat)
    requires i < |lines|
    ensures var b, k := BlockAt(lines, i), KindAt(lines, i);
            && (k.Quote? ==> Maximal(lines, i, b.to, (line: string) => IsQuote(line)))
            && (k.Bullets? ==> Maximal(lines, i, b.to, (line: string) => IsBullet(line)))
            && (k.Numbers? ==> Maximal(lines, i, b.to, (line: string) => IsNumbered(line)))
            && (k.Table? ==> i + 2 <= |lines| && Maximal(lines, i + 2, b.to, (line: string) => IsPipeRow(line)))
            && (k in {Heading, Rule, Image, Blank} ==> b.to == i + 1)
  {
    var k := KindAt(lines, i);
    if k.Table? {
      RunIs(k, lines, i + 2);
    } else {
      RunIs(k, lines, i);
    }
  }

  /** `lines[a..b]` pass, and the next line, if there is one, does not. */
  predicate Maximal(lines: seq<string>, a: nat, b: nat, passes: string -> bool) {
    && a <= b <= |lines| && (forall j :: a <= j < b ==> passes(lines[j])) && (b < |lines| ==> !passes(lines[b]))
  }

  // ---------------------------------------------------------------------
  // The branches exclude each other
  // ---------------------------------------------------------------------

  /** The test of a branch alone, whatever comes before it. A paragraph is what is left. */
  predicate Test(k: Kind, lines: seq<string>, i: nat)
    requires i < |lines|
  {
    var line := lines[i];
    match k
    case Blank => IsBlank(line)
    case Code => IsFence(line)
    case Heading => IsHeading(line)
    case Rule => IsRule(line)
    case Image => IsImage(line)
    case Table => IsPipeRow(line) && i + 1 < |lines| && IsSeparator(lines[i + 1])
    case Quote => IsQuote(line)
    case Bullets => IsBullet(line)
    case Numbers => IsNumbered(line)
    case Paragraph => true
  }

  /** The characters with which a line of this kind begins, trimmed. */
  predicate Leads(k: Kind, c: char) {
    match k
    case Code => c == '`'
    case Heading => c == '#'
    case Rule => c == '-' || c == '*' || c == '_'
    case Image => c == '!'
    case Table => c == '|'
    case Quote => c == '>'
    case Bullets => c == '-' || c == '*' || c == '+'
    case Numbers => IsDigit(c)
    case _ => false
  }

  lemma FenceLeads(t: string, mark: string)
    requires StartsWith(t, mark) && mark != ""
    ensures t != "" && t[0] == mark[0]
  {
    assert t[..|mark|][0] == t[0];
  }

  lemma TestLeads(k: Kind, lines: seq<string>, i: nat)
    requires i < |lines| && Test(k, lines, i) && !k.Blank? && !k.Paragraph?
    ensures Trim(lines[i]) != "" && Leads(k, Trim(lines[i])[0])
  {
    var line := lines[i];
    match k
    case Code => FenceLeads(Trim(line), "```");
    case Image => FenceLeads(Trim(line), "![");
    case Heading =>
      HashesFirst(line, 0);
      TrimKeepsFirst(line);
    case Numbers =>
      SkipDigitsIs(line, 0);
      assert line[0..SkipDigits(line, 0)][0] == line[0];
      TrimKeepsFirst(line);
    case Quote => TrimKeepsFirst(line);
    case Bullets => TrimKeepsFirst(line);
    case _ =>
  }

  /** A bullet has white space where a rule has a mark. */
  lemma BulletIsNoRule(line: string)
    requires IsBullet(line)
    ensures !IsRule(line)
  {
    TrimStartPrefix(line);
    var b := TrimEndIs(line);
    if |Trim(line)| >= 3 {
      assert Trim(line)[1] == line[1];
    }
  }

  /** No line passes the tests of two branches, so their order does not matter: a branch takes
      exactly the lines that pass its own test. */
  lemma BranchesExclude(lines: seq<string>, i: nat, j: Kind, k: Kind)
    requires i < |lines| && j != k && !j.Paragraph? && !k.Paragraph?
    ensures !(Test(j, lines, i) && Test(k, lines, i))
  {
    if Test(j, lines, i) && Test(k, lines, i) {
      if !j.Blank? {
        TestLeads(j, lines, i);
      }
      if !k.Blank? {
        TestLeads(k, lines, i);
      }
      if IsBullet(lines[i]) {
        BulletIsNoRule(lines[i]);
      }
    }
  }

  lemma KindIff(lines: seq<string>, i: nat, k: Kind)
    requires i < |lines| && !k.Paragraph?
    ensures KindAt(lines, i) == k <==> Test(k, lines, i)
  {
    var found := KindAt(lines, i);
    if found != k && !found.Paragraph? {
      assert Test(found, lines, i);
      BranchesExclude(lines, i, found, k);
    }
  }
}
