/**
 Which blocks a document has (`splitBlocks` in `src/lib/readingDiff.ts`), as rules over its lines: what
 opens each kind of block, which lines it goes on over and what ends it.  Only one list of blocks obeys
 them, and it is the one the splitter returns.
 */
module BlockRules {
  import opened Wrappers
  import opened Markdown
  import opened BlockSplitter

  // ----- the rules

  /** A line with a pipe, and a delimiter row after it. */
  predicate OpensTable(lines: seq<string>) { |lines| >= 2 && '|' in lines[0] && IsTableDelimiter(lines[1]) }

  /** Neither a fence, a heading or a rule, nor the first line of a table. */
  predicate OpensText(lines: seq<string>) { lines != [] && !BreaksBlock(lines[0]) && !OpensTable(lines) }

  /** A fence takes every line up to its first closing line, or to the end of the document. */
  ghost predicate Fenced(lines: seq<string>, n: nat)
    requires 1 <= n <= |lines|
  {
    var marker := FenceOf(lines[0]);
    && marker.Some?
    && (forall k :: 1 <= k < n - 1 ==> !(marker.value <= TrimStart(lines[k])))
    && (n == |lines| || (n >= 2 && marker.value <= TrimStart(lines[n - 1])))
  }

  /** A table goes on over lines with a pipe. */
  ghost predicate TableGoesOn(lines: seq<string>, n: nat)
    requires 1 <= n <= |lines|
  {
    && n >= 2
    && (forall k :: 2 <= k < n ==> !IsBlank(lines[k]) && '|' in lines[k])
    && (n < |lines| ==> IsBlank(lines[n]) || '|' !in lines[n])
  }

  /** An item goes on over indented lines that open nothing else. */
  ghost predicate ItemGoesOn(lines: seq<string>, n: nat)
    requires 1 <= n <= |lines|
  {
    && (forall k :: 1 <= k < n ==>
          !IsBlank(lines[k]) && !IsListItem(lines[k]) && !BreaksBlock(lines[k]) && IsIndented(lines[k]))
    && (n < |lines| ==>
          IsBlank(lines[n]) || IsListItem(lines[n]) || BreaksBlock(lines[n]) || !IsIndented(lines[n]))
  }

  /** A paragraph, or a quote, goes on while the lines are quoted alike and open nothing else. */
  ghost predicate ProseGoesOn(lines: seq<string>, n: nat, quoted: bool)
    requires 1 <= n <= |lines|
  {
    && (forall k :: 1 <= k < n ==>
          !IsBlank(lines[k]) && !IsListItem(lines[k]) && !BreaksBlock(lines[k]) && IsQuote(lines[k]) == quoted)
    && (n < |lines| ==>
          IsBlank(lines[n]) || IsListItem(lines[n]) || BreaksBlock(lines[n]) || IsQuote(lines[n]) != quoted)
  }

  /** `block` is the first block of `lines`, and takes `n` of them. */
  ghost predicate IsFirst(block: DocBlock, lines: seq<string>, n: nat)
    requires 1 <= n <= |lines|
  {
    match block.kind
    case CodeBlock => Fenced(lines, n) && block.level.None? && block.lines == lines[..n]
    case HeadingBlock =>
      && n == 1 && FenceOf(lines[0]).None? && HeadingOf(lines[0]).Some?
      && block.level == Some(HeadingOf(lines[0]).value.level) && block.lines == [Trim(lines[0])]
    case RuleBlock =>
      && n == 1 && FenceOf(lines[0]).None? && HeadingOf(lines[0]).None? && IsRule(lines[0])
      && block.level.None? && block.lines == [Trim(lines[0])]
    case TableBlock =>
      && !BreaksBlock(lines[0]) && OpensTable(lines) && TableGoesOn(lines, n)
      && block.level.None? && block.lines == lines[..n]
    case ListBlock =>
      && OpensText(lines) && IsListItem(lines[0]) && ItemGoesOn(lines, n)
      && block.level.None? && block.lines == lines[..n]
    case QuoteBlock =>
      && OpensText(lines) && !IsListItem(lines[0]) && IsQuote(lines[0]) && ProseGoesOn(lines, n, true)
      && block.level.None? && block.lines == lines[..n]
    case ParagraphBlock =>
      && OpensText(lines) && !IsListItem(lines[0]) && !IsQuote(lines[0]) && ProseGoesOn(lines, n, false)
      && block.level.None? && block.lines == lines[..n]
  }

  /** `blocks` are the blocks of `lines`: blank lines between them are skipped, nothing else is. */
  ghost predicate AreBlocks(blocks: seq<DocBlock>, lines: seq<string>)
    decreases |lines|
  {
    if lines == [] then blocks == []
    else if IsBlank(lines[0]) then AreBlocks(blocks, lines[1..])
    else
      && blocks != []
      && exists n: nat :: 1 <= n <= |lines| && IsFirst(blocks[0], lines, n) && AreBlocks(blocks[1..], lines[n..])
  }

  // ----- one list of blocks at most

  /** Two blocks of a kind that goes on as far as it can take the same lines. */
  lemma SameLength(block: DocBlock, other: DocBlock, lines: seq<string>, n: nat, m: nat)
    requires 1 <= n <= |lines| && 1 <= m <= |lines| && block.kind == other.kind
    requires IsFirst(block, lines, n) && IsFirst(other, lines, m)
    ensures n == m
  {
    hide IsBlank, BreaksBlock, IsListItem, IsIndented, IsQuote, IsTableDelimiter, FenceOf, HeadingOf, IsRule, Trim,
      TrimStart;
  }

  lemma FirstIsUnique(block: DocBlock, other: DocBlock, lines: seq<string>, n: nat, m: nat)
    requires 1 <= n <= |lines| && 1 <= m <= |lines|
    requires IsFirst(block, lines, n) && IsFirst(other, lines, m)
    ensures block == other && n == m
  {
    hide IsBlank, IsListItem, IsIndented, IsQuote, IsTableDelimiter, FenceOf, HeadingOf, IsRule, Trim, TrimStart,
      TableGoesOn, ItemGoesOn, ProseGoesOn;
    assert block.kind == other.kind;
    SameLength(block, other, lines, n, m);
  }

  /** No document obeys the rules in two ways. */
  lemma {:induction false} BlocksAreUnique(blocks: seq<DocBlock>, others: seq<DocBlock>, lines: seq<string>)
    requires AreBlocks(blocks, lines) && AreBlocks(others, lines)
    ensures blocks == others
    decreases |lines|
  {
    hide IsFirst, IsBlank;
    if lines == [] {
    } else if IsBlank(lines[0]) {
      BlocksAreUnique(blocks, others, lines[1..]);
    } else {
      var n: nat :| 1 <= n <= |lines| && IsFirst(blocks[0], lines, n) && AreBlocks(blocks[1..], lines[n..]);
      var m: nat :| 1 <= m <= |lines| && IsFirst(others[0], lines, m) && AreBlocks(others[1..], lines[m..]);
      FirstIsUnique(blocks[0], others[0], lines, n, m);
      BlocksAreUnique(blocks[1..], others[1..], lines[n..]);
      assert blocks == [blocks[0]] + blocks[1..] && others == [others[0]] + others[1..];
    }
  }

  // ----- the splitter obeys the rules

  lemma {:induction false} SpanCovers(shape: Shape, lines: seq<string>, k: nat)
    requires k < Span(shape, lines)
    ensures Continues(shape, lines[k])
    decreases k
  {
    hide Continues;
    if k > 0 {
      SpanCovers(shape, lines[1..], k - 1);
    }
  }

  /** What the first block covers, line by line. */
  lemma BodyCovers(lines: seq<string>)
    requires lines != []
    ensures var shape := FirstShape(lines);
      var m, n := OpeningLines(shape), BodyLength(shape, lines);
      && (forall k :: m <= k < n ==> Continues(shape, lines[k]))
      && (n < |lines| ==> !Continues(shape, lines[n]))
  {
    hide Continues, FirstShape, OpeningLines;
    ShapeFitsLines(lines);
    var shape := FirstShape(lines);
    var m, n := OpeningLines(shape), BodyLength(shape, lines);
    forall k | m <= k < n ensures Continues(shape, lines[k]) {
      SpanCovers(shape, lines[m..], k - m);
    }
    assert n < |lines| ==> lines[m..][n - m] == lines[n];
  }

  lemma ShapeFitsLines(lines: seq<string>)
    requires lines != []
    ensures OpeningLines(FirstShape(lines)) <= |lines|
  {
    hide ShapeOf;
    ShapeFits(lines[0], NextLine(lines));
  }

  lemma FirstObeys(lines: seq<string>)
    requires lines != [] && !IsBlank(lines[0])
    ensures IsFirst(FirstBlock(lines), lines, BlockLength(lines))
  {
    hide IsBlank, IsListItem, IsIndented, IsQuote, IsTableDelimiter, FenceOf, HeadingOf, IsRule, Trim, TrimStart, Span;
    BodyCovers(lines);
    var shape, n := FirstShape(lines), BlockLength(lines);
    if shape.Title? || shape.Rule? {
      assert n == 1;
    }
  }

  /** The splitter's blocks obey the rules. */
  lemma {:induction false} SplitObeys(lines: seq<string>)
    ensures AreBlocks(Split(lines), lines)
    decreases |lines|
  {
    hide IsFirst, IsBlank, FirstBlock, BlockLength;
    if lines == [] {
    } else if IsBlank(lines[0]) {
      SplitObeys(lines[1..]);
    } else {
      FirstObeys(lines);
      var n := BlockLength(lines);
      SplitObeys(lines[n..]);
      assert Split(lines)[1..] == Split(lines[n..]) && Split(lines)[0] == FirstBlock(lines);
    }
  }

  /** The blocks of a document are the one list that obeys the rules, and that is what the splitter returns. */
  lemma SplitIsTheBlocks(text: string, blocks: seq<DocBlock>)
    ensures AreBlocks(blocks, SplitFeeds(NormalizeNewlines(text))) <==> blocks == BlocksOf(text)
  {
    hide AreBlocks, Split, SplitFeeds, NormalizeNewlines;
    var lines := SplitFeeds(NormalizeNewlines(text));
    SplitObeys(lines);
    if AreBlocks(blocks, lines) {
      BlocksAreUnique(blocks, Split(lines), lines);
    }
  }
}
