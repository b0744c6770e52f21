/**
 Cutting a Markdown document into whole blocks (`splitBlocks` in `src/lib/readingDiff.ts`), over the
 document's lines.  A block keeps its lines; its text is those lines joined by line feeds.
 */
module BlockSplitter {
  import opened Wrappers
  import opened Markdown

  datatype BlockKind = HeadingBlock | TableBlock | CodeBlock | ListBlock | QuoteBlock | RuleBlock | ParagraphBlock

  /** `level` is the heading depth, and `None` for every other kind. */
  datatype DocBlock = DocBlock(kind: BlockKind, level: Option<nat>, lines: seq<string>) {
    function Text(): string { if lines == [] then [] else JoinLines(lines) }
  }

  /** What the first lines of the remaining document announce, in the order they are looked for. */
  datatype Shape = Fence(marker: string) | Title(level: nat) | Rule | Table | Item | Prose(quoted: bool)

  function ShapeOf(line: string, next: Option<string>): Shape {
    if FenceOf(line).Some? then Fence(FenceOf(line).value)
    else if HeadingOf(line).Some? then Title(HeadingOf(line).value.level)
    else if IsRule(line) then Rule
    else if '|' in line && next.Some? && IsTableDelimiter(next.value) then Table
    else if IsListItem(line) then Item
    else Prose(IsQuote(line))
  }

  /** Whether a block of this shape goes on over `line`. */
  predicate Continues(shape: Shape, line: string) {
    match shape
    case Fence(marker) => !(marker <= TrimStart(line))
    case Title(_) => false
    case Rule => false
    case Table => !IsBlank(line) && '|' in line
    case Item => !IsBlank(line) && !IsListItem(line) && !BreaksBlock(line) && IsIndented(line)
    case Prose(quoted) => !(IsBlank(line) || BreaksBlock(line) || IsListItem(line) || quoted != IsQuote(line))
  }

  /** The lines a shape takes before its continuation test applies. */
  function OpeningLines(shape: Shape): nat { if shape.Table? then 2 else 1 }

  function MakeBlock(shape: Shape, lines: seq<string>): DocBlock {
    match shape
    case Fence(_) => DocBlock(CodeBlock, None, lines)
    case Title(level) => DocBlock(HeadingBlock, Some(level), TrimFirst(lines))
    case Rule => DocBlock(RuleBlock, None, TrimFirst(lines))
    case Table => DocBlock(TableBlock, None, lines)
    case Item => DocBlock(ListBlock, None, lines)
    case Prose(quoted) => DocBlock(if quoted then QuoteBlock else ParagraphBlock, None, lines)
  }

  function TrimFirst(lines: seq<string>): seq<string> {
    if lines == [] then [] else [Trim(lines[0])] + lines[1..]
  }

  // ----- the split as a function of the remaining lines

  function NextLine(lines: seq<string>): Option<string> { if |lines| > 1 then Some(lines[1]) else None }

  function FirstShape(lines: seq<string>): Shape
    requires lines != []
  {
    ShapeOf(lines[0], NextLine(lines))
  }

  /** How many leading lines the shape goes on over. */
  function Span(shape: Shape, lines: seq<string>): (n: nat)
    ensures n <= |lines|
    ensures n < |lines| ==> !Continues(shape, lines[n])
  {
    if lines != [] && Continues(shape, lines[0]) then 1 + Span(shape, lines[1..]) else 0
  }

  /** The lines a shape covers, before a closing fence is counted in. */
  function BodyLength(shape: Shape, lines: seq<string>): (n: nat)
    requires OpeningLines(shape) <= |lines|
    ensures OpeningLines(shape) <= n <= |lines|
  {
    OpeningLines(shape) + Span(shape, lines[OpeningLines(shape)..])
  }

  /** The length of the first block; a closing fence, when there is one, belongs to it. */
  function BlockLength(lines: seq<string>): (n: nat)
    requires lines != []
    ensures 0 < n <= |lines|
  {
    var shape := FirstShape(lines);
    var n := BodyLength(shape, lines);
    if shape.Fence? && n < |lines| then n + 1 else n
  }

  function FirstBlock(lines: seq<string>): DocBlock
    requires lines != []
  {
    MakeBlock(FirstShape(lines), lines[..BlockLength(lines)])
  }

  function Split(lines: seq<string>): seq<DocBlock>
    decreases |lines|
  {
    if lines == [] then []
    else if IsBlank(lines[0]) then Split(lines[1..])
    else [FirstBlock(lines)] + Split(lines[BlockLength(lines)..])
  }

  // ----- nothing is lost or reordered

  /** The non-blank lines, trimmed: what of a document reaches a reader. */
  function Content(lines: seq<string>): seq<string> {
    if lines == [] then []
    else ContentOf(lines[0]) + Content(lines[1..])
  }

  function ContentOf(line: string): seq<string> { if IsBlank(line) then [] else [Trim(line)] }

  function AllLines(blocks: seq<DocBlock>): seq<string> {
    if blocks == [] then [] else blocks[0].lines + AllLines(blocks[1..])
  }

  lemma {:induction false} ContentConcat(x: seq<string>, y: seq<string>)
    ensures Content(x + y) == Content(x) + Content(y)
  {
    hide ContentOf;
    if x == [] {
      assert x + y == y;
    } else {
      ContentConcat(x[1..], y);
      assert (x + y)[1..] == x[1..] + y;
      ConcatAssociates(ContentOf(x[0]), Content(x[1..]), Content(y));
    }
  }

  lemma ConcatAssociates<T>(x: seq<T>, y: seq<T>, z: seq<T>)
    ensures x + (y + z) == x + y + z
  {
  }

  lemma BlockKeepsContent(shape: Shape, lines: seq<string>)
    requires lines != [] && !IsBlank(lines[0])
    ensures Content(MakeBlock(shape, lines).lines) == Content(lines)
  {
    hide TrimStart, TrimEnd;
    TrimIsIdempotent(lines[0]);
    assert TrimFirst(lines)[1..] == lines[1..];
  }

  /** Every non-blank line of the document is in exactly one block, in its place. */
  lemma {:induction false} SplitKeepsContent(lines: seq<string>)
    ensures Content(AllLines(Split(lines))) == Content(lines)
    decreases |lines|
  {
    hide IsBlank, Trim, FirstShape, MakeBlock, BlockLength;
    if lines == [] {
    } else if IsBlank(lines[0]) {
      SplitKeepsContent(lines[1..]);
    } else {
      var n := BlockLength(lines);
      var block, rest := FirstBlock(lines), Split(lines[n..]);
      SplitKeepsContent(lines[n..]);
      assert ([block] + rest)[1..] == rest;
      ContentConcat(block.lines, AllLines(rest));
      BlockKeepsContent(FirstShape(lines), lines[..n]);
      ContentConcat(lines[..n], lines[n..]);
      assert lines[..n] + lines[n..] == lines;
    }
  }

  // ----- the round trip

  /** The blocks' lines, one blank line between neighbours. */
  function Rejoin(blocks: seq<DocBlock>): seq<string> {
    if blocks == [] then []
    else if |blocks| == 1 then blocks[0].lines
    else blocks[0].lines + [""] + Rejoin(blocks[1..])
  }

  /** What may follow a block so that it still ends where it did: nothing, or a blank line. */
  ghost predicate Separated(rest: seq<string>) { rest == [] || rest[0] == "" }

  lemma {:induction false} SpanIsLocal(shape: Shape, lines: seq<string>, rest: seq<string>)
    requires rest == [] || !Continues(shape, rest[0])
    ensures Span(shape, lines[..Span(shape, lines)] + rest) == Span(shape, lines)
    decreases |lines|
  {
    hide Continues;
    var n := Span(shape, lines);
    if n == 0 {
      assert lines[..n] + rest == rest;
    } else {
      SpanIsLocal(shape, lines[1..], rest);
      assert (lines[..n] + rest)[1..] == lines[1..][..n - 1] + rest;
    }
  }

  lemma BlankStopsSpan(shape: Shape)
    requires !shape.Fence?
    ensures !Continues(shape, "")
  {
    BlankLineFacts();
  }

  /** A fence that the document never closes. */
  predicate Unclosed(lines: seq<string>)
    requires lines != []
  {
    FirstShape(lines).Fence? && BodyLength(FirstShape(lines), lines) == |lines|
  }

  /** The first line of a block announces the same shape when the block stands alone. */
  lemma ShapeIsLocal(lines: seq<string>, rest: seq<string>)
    requires lines != [] && !IsBlank(lines[0]) && Separated(rest)
    ensures FirstShape(FirstBlock(lines).lines + rest) == FirstShape(lines)
    ensures !IsBlank(FirstBlock(lines).lines[0])
  {
    hide HeadingOf, FenceOf, IsRule, IsTableDelimiter, IsListItem, IsBlank, IsQuote, Trim;
    var n := BlockLength(lines);
    var alone := FirstBlock(lines).lines + rest;
    BlankLineFacts();
    match FirstShape(lines)
    case Title(_) =>
      TrimKeepsHeading(lines[0]);
      assert alone[0] == Trim(lines[0]);
    case Rule =>
      TrimKeepsRule(lines[0]);
      assert alone[0] == Trim(lines[0]);
    case _ =>
      assert alone[0] == lines[0];
      assert n > 1 ==> NextLine(alone) == NextLine(lines);
      assert n == 1 ==> NextLine(alone) == None || NextLine(alone) == Some("");
  }

  /** Rejoined with a blank line after it, a block is found again, whole and first. */
  lemma BlockIsLocal(lines: seq<string>, rest: seq<string>)
    requires lines != [] && !IsBlank(lines[0]) && Separated(rest)
    requires Unclosed(lines) ==> rest == []
    ensures var alone := FirstBlock(lines).lines + rest;
      && alone != [] && BlockLength(alone) == |FirstBlock(lines).lines|
      && FirstBlock(alone) == FirstBlock(lines)
  {
    var shape, n := FirstShape(lines), BlockLength(lines);
    var block := FirstBlock(lines);
    var alone := block.lines + rest;
    ShapeIsLocal(lines, rest);
    LengthIsLocal(lines, rest);
    assert alone[..|block.lines|] == block.lines;
    if shape.Title? || shape.Rule? {
      TrimIsIdempotent(lines[0]);
    }
  }

  lemma LengthIsLocal(lines: seq<string>, rest: seq<string>)
    requires lines != [] && !IsBlank(lines[0]) && Separated(rest)
    requires Unclosed(lines) ==> rest == []
    requires FirstShape(FirstBlock(lines).lines + rest) == FirstShape(lines)
    ensures BlockLength(FirstBlock(lines).lines + rest) == |FirstBlock(lines).lines|
  {
    hide FirstShape, Continues, Trim, IsBlank;
    var shape, n := FirstShape(lines), BlockLength(lines);
    var alone := FirstBlock(lines).lines + rest;
    if shape.Title? || shape.Rule? {
      SpanIsEmpty(shape, lines[1..]);
      SpanIsEmpty(shape, alone[1..]);
    } else if shape.Fence? {
      var body := BodyLength(shape, lines);
      BodyIsLocal(shape, lines, if body == |lines| then [] else [lines[body]] + rest);
      assert alone == lines[..body] + (if body == |lines| then [] else [lines[body]] + rest);
    } else {
      BlankStopsSpan(shape);
      BodyIsLocal(shape, lines, rest);
    }
  }

  /** What a shape covers is found again in front of anything that stops it. */
  lemma BodyIsLocal(shape: Shape, lines: seq<string>, rest: seq<string>)
    requires OpeningLines(shape) <= |lines| && (rest == [] || !Continues(shape, rest[0]))
    ensures BodyLength(shape, lines[..BodyLength(shape, lines)] + rest) == BodyLength(shape, lines)
  {
    hide Continues, Span, OpeningLines;
    var m := OpeningLines(shape);
    var n := BodyLength(shape, lines);
    SpanIsLocal(shape, lines[m..], rest);
    DropInFront(lines, m, n, rest);
  }

  lemma DropInFront<T>(s: seq<T>, m: nat, n: nat, rest: seq<T>)
    requires m <= n <= |s|
    ensures (s[..n] + rest)[m..] == s[m..][..n - m] + rest
  {
  }

  lemma SpanIsEmpty(shape: Shape, lines: seq<string>)
    requires shape.Title? || shape.Rule?
    ensures Span(shape, lines) == 0
  {
  }

  /**
   The round trip.  Splitting a document, rejoining its blocks with one blank line between them and
   splitting again gives the same blocks, also when a fence is never closed.
   */
  lemma {:induction false} SplitRoundTrip(lines: seq<string>)
    ensures Split(Rejoin(Split(lines))) == Split(lines)
    decreases |lines|
  {
    hide IsBlank, BlockLength, FirstBlock, Rejoin, Trim;
    if lines == [] {
      SplitNothing();
    } else if IsBlank(lines[0]) {
      SplitRoundTrip(lines[1..]);
    } else {
      SplitRoundTrip(lines[BlockLength(lines)..]);
      FirstRoundTrips(lines);
    }
  }

  lemma SplitNothing()
    ensures Rejoin([]) == [] && Split([]) == []
  {
  }

  /** The round trip of the first block, given that of the rest. */
  lemma FirstRoundTrips(lines: seq<string>)
    requires lines != [] && !IsBlank(lines[0])
    requires var others := Split(lines[BlockLength(lines)..]); Split(Rejoin(others)) == others
    ensures Split(Rejoin(Split(lines))) == Split(lines)
  {
    hide IsBlank, FirstBlock, BlockLength, Trim;
    var block, others := FirstBlock(lines), Split(lines[BlockLength(lines)..]);
    var rest := if others == [] then [] else [""] + Rejoin(others);
    assert Split(lines) == [block] + others;
    RejoinFirst(block, others);
    RestIsSeparated(lines, others);
    RejoinedSplits(lines, rest);
    SplitNothing();
    SplitAfterBlank(Rejoin(others));
  }

  lemma RejoinFirst(block: DocBlock, others: seq<DocBlock>)
    ensures Rejoin([block] + others) == block.lines + (if others == [] then [] else [""] + Rejoin(others))
  {
    assert ([block] + others)[1..] == others;
  }

  lemma SplitAfterBlank(lines: seq<string>)
    ensures Split([""] + lines) == Split(lines)
  {
    hide BlockLength, FirstBlock;
    BlankLineFacts();
    assert ([""] + lines)[1..] == lines;
  }

  /** Only the last block can be an unclosed fence. */
  lemma RestIsSeparated(lines: seq<string>, others: seq<DocBlock>)
    requires lines != [] && !IsBlank(lines[0]) && others == Split(lines[BlockLength(lines)..])
    ensures var rest := if others == [] then [] else [""] + Rejoin(others);
      Separated(rest) && (Unclosed(lines) ==> rest == [])
  {
    hide FirstBlock, Rejoin;
    BlankLineFacts();
  }

  /** One block rejoined in front of separated lines splits off as itself. */
  lemma RejoinedSplits(lines: seq<string>, rest: seq<string>)
    requires lines != [] && !IsBlank(lines[0]) && Separated(rest)
    requires Unclosed(lines) ==> rest == []
    ensures Split(FirstBlock(lines).lines + rest) == [FirstBlock(lines)] + Split(rest)
  {
    var alone := FirstBlock(lines).lines + rest;
    BlockIsLocal(lines, rest);
    ShapeIsLocal(lines, rest);
    assert alone[|FirstBlock(lines).lines|..] == rest;
  }

  // ----- the loop

  function BlocksOf(content: string): seq<DocBlock> { Split(SplitFeeds(NormalizeNewlines(content))) }

  method SplitBlocks(markdown: string) returns (blocks: seq<DocBlock>)
    ensures blocks == BlocksOf(markdown)
  {
    hide Split, SplitFeeds, NormalizeNewlines, IsBlank, BlockLength, FirstBlock;
    var lines := SplitFeeds(NormalizeNewlines(markdown));
    blocks := [];
    var index := 0;
    assert lines[0..] == lines && blocks + Split(lines) == Split(lines);
    while index < |lines|
      invariant index <= |lines|
      invariant blocks + Split(lines[index..]) == Split(lines)
    {
      if IsBlank(lines[index]) {
        SkipBlank(lines, index);
        index := index + 1;
        continue;
      }
      var block, end := ReadBlock(lines, index);
      PeelBlock(blocks, lines, index);
      blocks := blocks + [block];
      index := end;
    }
    SplitNothing();
    assert lines[index..] == [] && blocks + [] == blocks;
  }

  lemma SkipBlank(lines: seq<string>, k: nat)
    requires k < |lines| && IsBlank(lines[k])
    ensures Split(lines[k..]) == Split(lines[k + 1..])
  {
    hide BlockLength, FirstBlock, IsBlank;
    assert lines[k..][1..] == lines[k + 1..];
  }

  lemma PeelBlock(done: seq<DocBlock>, lines: seq<string>, k: nat)
    requires k < |lines| && !IsBlank(lines[k])
    ensures var n := BlockLength(lines[k..]);
      done + Split(lines[k..]) == done + [FirstBlock(lines[k..])] + Split(lines[k + n..])
  {
    hide BlockLength, IsBlank, FirstBlock;
    assert lines[k..][BlockLength(lines[k..])..] == lines[k + BlockLength(lines[k..])..];
  }

  /** One turn of the loop: the block that opens at `start`, and the line after it. */
  method ReadBlock(lines: seq<string>, start: nat) returns (block: DocBlock, index: nat)
    requires start < |lines|
    ensures index == start + BlockLength(lines[start..]) <= |lines|
    ensures block == FirstBlock(lines[start..])
  {
    hide ShapeOf, Continues, MakeBlock, BreaksBlock, Span;
    var next := if start + 1 < |lines| then Some(lines[start + 1]) else None;
    var shape := ShapeOf(lines[start], next);
    ghost var rest := lines[start..];
    assert next == NextLine(rest);
    ShapeFits(lines[start], next);
    ghost var opening := OpeningLines(shape);
    index := start + OpeningLines(shape);
    assert rest[opening..] == lines[index..];
    while index < |lines| && Continues(shape, lines[index])
      invariant start + opening <= index <= |lines|
      invariant index + Span(shape, lines[index..]) == start + opening + Span(shape, rest[opening..])
    {
      SpanStep(shape, lines, index);
      index := index + 1;
    }
    SpanStops(shape, lines, index);
    if shape.Fence? && index < |lines| {
      index := index + 1;
    }
    block := MakeBlock(shape, lines[start..index]);
    assert rest[..index - start] == lines[start..index];
  }

  lemma SpanStep(shape: Shape, lines: seq<string>, k: nat)
    requires k < |lines| && Continues(shape, lines[k])
    ensures Span(shape, lines[k..]) == 1 + Span(shape, lines[k + 1..])
  {
    hide Continues;
    assert lines[k..][1..] == lines[k + 1..];
  }

  lemma SpanStops(shape: Shape, lines: seq<string>, k: nat)
    requires k <= |lines| && (k < |lines| ==> !Continues(shape, lines[k]))
    ensures Span(shape, lines[k..]) == 0
  {
    hide Continues;
  }

  /** A table needs its delimiter line, so no shape opens with more lines than there are. */
  lemma ShapeFits(line: string, next: Option<string>)
    ensures ShapeOf(line, next).Table? ==> next.Some?
  {
  }
}
