/** The block loop of `renderMdsvex` (`app/src/lib/mdsvex.ts`). */
module MarkdownBlocks {
  import opened Text

  // ---------------------------------------------------------------------
  // Line tests, as the source's regular expressions have them
  // ---------------------------------------------------------------------

  /** `\s`, and what `trim` removes. */
  predicate IsSpace(c: char) {
    c == ' ' || '\t' <= c <= '\r' || c == '\U{A0}' || c == '\U{1680}' || '\U{2000}' <= c <= '\U{200A}'
    || c == '\U{2028}' || c == '\U{2029}' || c == '\U{202F}' || c == '\U{205F}' || c == '\U{3000}' || c == '\U{FEFF}'
  }

  /** What `.` does not match. */
  predicate IsTerminator(c: char) {
    c == '\n' || c == '\r' || c == '\U{2028}' || c == '\U{2029}'
  }

  predicate IsDigit(c: char) {
    '0' <= c <= '9'
  }

  function TrimStart(s: string): string {
    if s != "" && IsSpace(s[0]) then TrimStart(s[1..]) else s
  }

  function TrimEnd(s: string): string {
    if s != "" && IsSpace(s[|s| - 1]) then TrimEnd(s[..|s| - 1]) else s
  }

  function Trim(s: string): string {
    TrimEnd(TrimStart(s))
  }

  /** The first index from `i` on whose character is not `c`. */
  function SkipChar(s: string, i: nat, c: char): (j: nat)
    requires i <= |s|
    ensures i <= j <= |s|
    decreases |s| - i
  {
    if i < |s| && s[i] == c then SkipChar(s, i + 1, c) else i
  }

  function SkipDigits(s: string, i: nat): (j: nat)
    requires i <= |s|
    ensures i <= j <= |s|
    decreases |s| - i
  {
    if i < |s| && IsDigit(s[i]) then SkipDigits(s, i + 1) else i
  }

  predicate IsFence(line: string) {
    StartsWith(Trim(line), "```")
  }

  /** `^#{1,6}\s` */
  predicate IsHashed(line: string) {
    var k := SkipChar(line, 0, '#');
    1 <= k <= 6 && k < |line| && IsSpace(line[k])
  }

  /** `^(#{1,6})\s+(.*)$` */
  predicate IsHeading(line: string) {
    IsHashed(line) && forall i :: 0 <= i < |TrimStart(line[SkipChar(line, 0, '#')..])| ==>
        !IsTerminator(TrimStart(line[SkipChar(line, 0, '#')..])[i])
  }

  /** `^[-*_]{3,}$`, trimmed. */
  predicate IsRule(line: string) {
    var t := Trim(line);
    |t| >= 3 && forall i :: 0 <= i < |t| ==> t[i] == '-' || t[i] == '*' || t[i] == '_'
  }

  predicate OpensImage(line: string) {
    StartsWith(Trim(line), "![")
  }

  /** `^!\[([^\]]*)\]\(([^)]+)\)$`, trimmed: `a` is the first closing bracket. */
  predicate IsImageClosedAt(t: string, a: nat) {
    && 2 <= a && a + 3 < |t| && t[a] == ']' && t[a + 1] == '(' && t[|t| - 1] == ')'
    && (forall i :: 2 <= i < a ==> t[i] != ']') && (forall i :: a + 2 <= i < |t| - 1 ==> t[i] != ')')
  }

  predicate IsImage(line: string) {
    OpensImage(line) && exists a :: 2 <= a < |Trim(line)| && IsImageClosedAt(Trim(line), a)
  }

  /** `^\|.+\|$`, trimmed. */
  predicate IsPipeRow(line: string) {
    var t := Trim(line);
    |t| >= 3 && t[0] == '|' && t[|t| - 1] == '|' && forall i :: 1 <= i < |t| - 1 ==> !IsTerminator(t[i])
  }

  /** `^\|[\s:|-]+\|$`, trimmed. */
  predicate IsSeparator(line: string) {
    var t := Trim(line);
    && |t| >= 3 && t[0] == '|' && t[|t| - 1] == '|'
    && forall i :: 1 <= i < |t| - 1 ==> IsSpace(t[i]) || t[i] == ':' || t[i] == '|' || t[i] == '-'
  }

  predicate IsQuote(line: string) {
    line != "" && line[0] == '>'
  }

  predicate IsBullet(line: string) {
    |line| >= 2 && (line[0] == '-' || line[0] == '*' || line[0] == '+') && IsSpace(line[1])
  }

  /** `^\d+[.)]\s` */
  predicate IsNumbered(line: string) {
    var k := SkipDigits(line, 0);
    k >= 1 && k + 1 < |line| && (line[k] == '.' || line[k] == ')') && IsSpace(line[k + 1])
  }

  predicate IsBlank(line: string) {
    Trim(line) == ""
  }

  /** `isBlockBoundary`. */
  predicate IsBoundary(line: string) {
    || IsBlank(line) || IsHashed(line) || StartsWith(line, "```") || IsQuote(line) || IsBullet(line) || IsNumbered(line)
    || IsPipeRow(line) || OpensImage(line) || IsRule(line)
  }

  // ---------------------------------------------------------------------
  // Blocks
  // ---------------------------------------------------------------------

  datatype Kind = Blank | Code | Heading | Rule | Image | Table | Quote | Bullets | Numbers | Paragraph

  /** A block takes `lines[from..to]` and renders `content`. */
  datatype Block = Block(kind: Kind, from: nat, to: nat, content: seq<string>)

  /** Which branch takes line `i`: the first test that holds. */
  function KindAt(lines: seq<string>, i: nat): Kind
    requires i < |lines|
  {
    var line := lines[i];
    if IsBlank(line) then Blank
    else if IsFence(line) then Code
    else if IsHeading(line) then Heading
    else if IsRule(line) then Rule
    else if IsImage(line) then Image
    else if IsPipeRow(line) && i + 1 < |lines| && IsSeparator(lines[i + 1]) then Table
    else if IsQuote(line) then Quote
    else if IsBullet(line) then Bullets
    else if IsNumbered(line) then Numbers
    else Paragraph
  }

  /** The condition of the branch's inner loop. */
  predicate Continues(k: Kind, line: string) {
    match k
    case Code => !IsFence(line)
    case Table => IsPipeRow(line)
    case Quote => IsQuote(line)
    case Bullets => IsBullet(line)
    case Numbers => IsNumbered(line)
    case Paragraph => !IsBoundary(line)
    case _ => false
  }

  /** What the inner loop keeps of a line. */
  function Piece(k: Kind, line: string): string {
    match k
    case Code => line
    case Quote => if |line| >= 2 && IsSpace(line[1]) then line[2..] else if line != "" then line[1..] else ""
    case Bullets => if |line| >= 2 then Trim(line[2..]) else ""
    case Numbers => if SkipDigits(line, 0) + 2 <= |line| then Trim(line[SkipDigits(line, 0) + 2..]) else ""
    case _ => Trim(line)
  }

  function Pieces(k: Kind, lines: seq<string>, a: nat, b: nat): seq<string>
    requires a <= b <= |lines|
  {
    seq(b - a, j requires 0 <= j < b - a => Piece(k, lines[a + j]))
  }

  function RunEnd(k: Kind, lines: seq<string>, i: nat): (j: nat)
    requires i <= |lines|
    ensures i <= j <= |lines|
    decreases |lines| - i
  {
    if i < |lines| && Continues(k, lines[i]) then RunEnd(k, lines, i + 1) else i
  }

  /** The block that starts at line `i`. */
  function BlockAt(lines: seq<string>, i: nat): (b: Block)
    requires i < |lines|
    ensures b.from == i < b.to <= |lines|
  {
    var k := KindAt(lines, i);
    match k
    case Code =>
      var e := RunEnd(k, lines, i + 1);
      Block(k, i, if e < |lines| then e + 1 else e, Pieces(k, lines, i + 1, e))
    case Table =>
      var e := RunEnd(k, lines, i + 2);
      Block(k, i, e, [Piece(k, lines[i]), Piece(k, lines[i + 1])] + Pieces(k, lines, i + 2, e))
    case Quote => Block(k, i, RunEnd(k, lines, i), Pieces(k, lines, i, RunEnd(k, lines, i)))
    case Bullets => Block(k, i, RunEnd(k, lines, i), Pieces(k, lines, i, RunEnd(k, lines, i)))
    case Numbers => Block(k, i, RunEnd(k, lines, i), Pieces(k, lines, i, RunEnd(k, lines, i)))
    case Paragraph =>
      var e := RunEnd(k, lines, i);
      if e == i then Block(k, i, i + 1, [Trim(lines[i])]) else Block(k, i, e, Pieces(k, lines, i, e))
    case Blank => Block(k, i, i + 1, [])
    case _ => Block(k, i, i + 1, [Trim(lines[i])])
  }

  function Blocks(lines: seq<string>, i: nat): seq<Block>
    requires i <= |lines|
    decreases |lines| - i
  {
    if i == |lines| then [] else [BlockAt(lines, i)] + Blocks(lines, BlockAt(lines, i).to)
  }

  // ---------------------------------------------------------------------
  // The loops
  // ---------------------------------------------------------------------

  /** An inner loop: take lines while the branch's test holds. */
  method Collect(k: Kind, lines: seq<string>, start: nat) returns (i: nat, content: seq<string>)
    requires start <= |lines|
    ensures i == RunEnd(k, lines, start) && content == Pieces(k, lines, start, i)
  {
    i, content := start, [];
    while i < |lines| && Continues(k, lines[i])
      invariant start <= i <= |lines| && RunEnd(k, lines, i) == RunEnd(k, lines, start)
      invariant content == Pieces(k, lines, start, i)
    {
      content := content + [Piece(k, lines[i])];
      i := i + 1;
    }
  }

  /** The outer loop. */
  method RenderBlocks(lines: seq<string>) returns (blocks: seq<Block>)
    ensures blocks == Blocks(lines, 0)
  {
    blocks := [];
    var i := 0;
    while i < |lines|
      invariant 0 <= i <= |lines|
      invariant blocks + Blocks(lines, i) == Blocks(lines, 0)
      decreases |lines| - i
    {
      var block := NextBlock(lines, i);
      blocks := blocks + [block];
      i := block.to;
    }
  }

  /** One turn of it. */
  method NextBlock(lines: seq<string>, i: nat) returns (b: Block)
    requires i < |lines|
    ensures b == BlockAt(lines, i)
  {
    var k := KindAt(lines, i);
    match k
    case Code =>
      var e, code := Collect(k, lines, i + 1);
      b := Block(k, i, if e < |lines| then e + 1 else e, code);
    case Table =>
      var e, rows := Collect(k, lines, i + 2);
      b := Block(k, i, e, [Trim(lines[i]), Trim(lines[i + 1])] + rows);
    case Paragraph =>
      var e, paragraph := Collect(k, lines, i);
      if |paragraph| == 0 {
        paragraph := paragraph + [Trim(lines[i])];
        e := e + 1;
      }
      b := Block(k, i, e, paragraph);
    case Blank => b := Block(k, i, i + 1, []);
    case Heading => b := Block(k, i, i + 1, [Trim(lines[i])]);
    case Rule => b := Block(k, i, i + 1, [Trim(lines[i])]);
    case Image => b := Block(k, i, i + 1, [Trim(lines[i])]);
    case Quote =>
      var e, quote := Collect(k, lines, i);
      b := Block(k, i, e, quote);
    case Bullets =>
      var e, items := Collect(k, lines, i);
      b := Block(k, i, e, items);
    case Numbers =>
      var e, items := Collect(k, lines, i);
      b := Block(k, i, e, items);
  }

  // ---------------------------------------------------------------------
  // Theorems
  // ---------------------------------------------------------------------

  /** The lines the blocks take, block after block. */
  function Taken(lines: seq<string>, blocks: seq<Block>): seq<string> {
    if blocks == [] then []
    else
      var b := blocks[0];
      (if b.from <= b.to <= |lines| then lines[b.from..b.to] else []) + Taken(lines, blocks[1..])
  }

  /** Every line is taken exactly once, in order. */
  lemma {:induction false} BlocksPartitionFrom(lines: seq<string>, i: nat)
    requires i <= |lines|
    ensures Taken(lines, Blocks(lines, i)) == lines[i..]
    decreases |lines| - i
  {
    if i < |lines| {
      var b := BlockAt(lines, i);
      BlocksPartitionFrom(lines, b.to);
      assert Blocks(lines, i)[1..] == Blocks(lines, b.to);
      assert lines[i..b.to] + lines[b.to..] == lines[i..];
    }
  }

  /** Consecutive blocks touch, none is empty, and they span the whole input. */
  lemma {:induction false} BlocksTouch(lines: seq<string>, i: nat, n: nat)
    requires i <= |lines| && n < |Blocks(lines, i)|
    ensures var b := Blocks(lines, i)[n];
            && b.from < |lines| && b == BlockAt(lines, b.from)
            && (n + 1 < |Blocks(lines, i)| ==> Blocks(lines, i)[n + 1].from == b.to)
            && (n + 1 == |Blocks(lines, i)| ==> b.to == |lines|)
    decreases |lines| - i
  {
    var b := BlockAt(lines, i);
    var rest := Blocks(lines, b.to);
    if n > 0 {
      BlocksTouch(lines, b.to, n - 1);
    } else {
      assert Blocks(lines, i) == [b] + rest;
      assert rest != [] ==> rest[0].from == b.to;
    }
  }

  /** A run is maximal: it stops only at the end or at a line that fails the test. */
  lemma {:induction false} RunIs(k: Kind, lines: seq<string>, i: nat)
    requires i <= |lines|
    ensures forall j :: i <= j < RunEnd(k, lines, i) ==> Continues(k, lines[j])
    ensures RunEnd(k, lines, i) < |lines| ==> !Continues(k, lines[RunEnd(k, lines, i)])
    decreases |lines| - i
  {
    if i < |lines| && Continues(k, lines[i]) {
      RunIs(k, lines, i + 1);
    }
  }

  /** A paragraph is a maximal run of lines that are no boundary, or a single boundary line. */
  lemma ParagraphIs(lines: seq<string>, i: nat)
    requires i < |lines| && KindAt(lines, i).Paragraph?
    ensures var b := BlockAt(lines, i);
            if IsBoundary(lines[i]) then b.to == i + 1
            else (forall j :: i <= j < b.to ==> !IsBoundary(lines[j])) && (b.to < |lines| ==> IsBoundary(lines[b.to]))
  {
    RunIs(Paragraph, lines, i);
  }

  lemma {:induction false} TrimStartPrefix(s: string)
    requires s != "" && !IsSpace(s[0])
    ensures TrimStart(s) == s
  {
  }

  lemma {:induction false} TrimEndKeeps(s: string, n: nat)
    requires n <= |s| && forall i :: 0 <= i < n ==> !IsSpace(s[i])
    ensures |TrimEnd(s)| >= n && TrimEnd(s)[..n] == s[..n]
  {
    if s != "" && IsSpace(s[|s| - 1]) {
      assert n < |s|;
      TrimEndKeeps(s[..|s| - 1], n);
    }
  }

  /** An unindented fence is a fence. */
  lemma FenceTrims(line: string)
    requires StartsWith(line, "```")
    ensures IsFence(line)
  {
    assert line[0] == '`' && line[1] == '`' && line[2] == '`';
    TrimStartPrefix(line);
    TrimEndKeeps(line, 3);
  }

  /** A line that starts with `c`, which is no white space, still does when trimmed. */
  lemma TrimKeepsFirst(line: string)
    requires line != "" && !IsSpace(line[0])
    ensures Trim(line) != "" && Trim(line)[0] == line[0]
  {
    TrimStartPrefix(line);
    TrimEndKeeps(line, 1);
  }

  /** How a line that some branch takes begins, once trimmed. */
  predicate TakenBefore(line: string) {
    IsBlank(line) || IsFence(line) || IsRule(line) || IsQuote(line) || IsBullet(line) || IsNumbered(line)
  }

  lemma HashedIsNotTaken(line: string)
    requires IsHashed(line)
    ensures !TakenBefore(line) && !OpensImage(line) && !IsPipeRow(line)
  {
    HashesFirst(line, 0);
    TrimKeepsFirst(line);
  }

  lemma {:induction false} HashesFirst(line: string, i: nat)
    requires i <= |line| && SkipChar(line, i, '#') > i
    ensures i < |line| && line[i] == '#'
  {
  }

  lemma MarkFirst(line: string)
    requires OpensImage(line) || IsPipeRow(line)
    ensures Trim(line) != "" && (OpensImage(line) ==> Trim(line)[0] == '!') &&
            (IsPipeRow(line) ==> Trim(line)[0] == '|')
  {
    if OpensImage(line) {
      assert Trim(line)[..2][0] == '!';
    }
  }

  /** Neither a pipe row nor an image opening is taken by an earlier branch: those look
      at the first character of the line, or of the trimmed line, and find another. */
  lemma MarkedIsNotTaken(line: string)
    requires OpensImage(line) || IsPipeRow(line)
    ensures !TakenBefore(line) && !IsHashed(line)
  {
    MarkFirst(line);
    if line != "" && !IsSpace(line[0]) {
      TrimKeepsFirst(line);
    }
    if IsHashed(line) {
      HashesFirst(line, 0);
    }
  }

  /** The one-line fallback takes exactly three kinds of lines: a pipe row without a
      separator below it, an image that is not closed or not alone on its line, and a
      heading mark whose text has a line terminator inside. */
  lemma FallbackIff(lines: seq<string>, i: nat)
    requires i < |lines|
    ensures KindAt(lines, i).Paragraph? && IsBoundary(lines[i]) <==>
            || (IsPipeRow(lines[i]) && !(i + 1 < |lines| && IsSeparator(lines[i + 1])))
            || (OpensImage(lines[i]) && !IsImage(lines[i]))
            || (IsHashed(lines[i]) && !IsHeading(lines[i]))
  {
    var line := lines[i];
    if StartsWith(line, "```") {
      FenceTrims(line);
    }
    if IsHashed(line) {
      HashedIsNotTaken(line);
    } else if OpensImage(line) || IsPipeRow(line) {
      MarkFirst(line);
      MarkedIsNotTaken(line);
    }
  }

  lemma PieceAt(k: Kind, lines: seq<string>, a: nat, b: nat, j: nat)
    requires a <= b <= |lines| && j < b - a
    ensures Pieces(k, lines, a, b)[j] == Piece(k, lines[a + j])
  {
  }

  /** The pieces of a code block are its lines. */
  lemma CodePieces(lines: seq<string>, a: nat, b: nat)
    requires a <= b <= |lines|
    ensures Pieces(Code, lines, a, b) == lines[a..b]
  {
    var content := Pieces(Code, lines, a, b);
    assert |content| == |lines[a..b]|;
    forall j: nat | j < b - a ensures content[j] == lines[a..b][j] {
      PieceAt(Code, lines, a, b, j);
      assert Piece(Code, lines[a + j]) == lines[a + j];
    }
  }

  /** A code block holds the lines up to the next fence, and takes the fence. */
  lemma CodeIs(lines: seq<string>, i: nat)
    requires i < |lines| && KindAt(lines, i).Code?
    ensures var b := BlockAt(lines, i);
            var n := i + 1 + |b.content|;
            && n <= |lines| && b.content == lines[i + 1..n]
            && (forall j :: i < j < n ==> !IsFence(lines[j]))
            && (if n < |lines| then IsFence(lines[n]) && b.to == n + 1 else b.to == |lines|)
  {
    RunIs(Code, lines, i + 1);
    var e := RunEnd(Code, lines, i + 1);
    CodePieces(lines, i + 1, e);
  }

  // ---------------------------------------------------------------------
  // The source text
  // ---------------------------------------------------------------------

  /** `replaceAll('\r\n', '\n')`. */
  function Normalize(s: string): string {
    if |s| < 2 then s
    else if s[0] == '\r' && s[1] == '\n' then "\n" + Normalize(s[2..])
    else [s[0]] + Normalize(s[1..])
  }

  function Lines(source: string): seq<string> {
    Split(Normalize(source), '\n')
  }

  /** Nothing of the source is lost or moved: what the blocks take, joined again, is the
      source with its line endings normalised; and no line has a newline in it. */
  lemma SourceIsCovered(source: string)
    ensures var lines := Lines(source);
            && (forall i :: 0 <= i < |lines| ==> '\n' !in lines[i])
            && Taken(lines, Blocks(lines, 0)) == lines
            && Join(lines, '\n') == Normalize(source)
  {
    var lines := Lines(source);
    SplitParts(Normalize(source), '\n');
    BlocksPartitionFrom(lines, 0);
    assert lines[0..] == lines;
    JoinSplit(Normalize(source), '\n');
  }
}
