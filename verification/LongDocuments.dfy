/**
 Two documents past the cell cap of `src/lib/diff.ts` and `src/lib/readingDiff.ts`, where the diffs fall
 back to replacing everything.
 */
module LongDocuments {
  import opened Wrappers
  import opened Markdown
  import opened BlockSplitter
  import opened Lcs
  import LineDiff
  import ReadingDiff

  function Copies<T>(n: nat, x: T): (copies: seq<T>)
    ensures |copies| == n && forall k :: 0 <= k < n ==> copies[k] == x
  {
    if n == 0 then [] else [x] + Copies(n - 1, x)
  }

  // ----- the line diff

  /** Five hundred equal lines between a first and a last one. */
  function Framed(first: string, last: string): seq<string> { [first] + Copies(500, "a") + [last] }

  /**
   Two documents that share five hundred lines but neither their first nor their last: nothing is
   trimmed, none of the shared lines is reported as context, and a script with fewer changes exists.
   */
  lemma LongRewriteIsNotMinimal()
    ensures var source, target := Framed("x", "y"), Framed("z", "w");
      var rows := LineDiff.DiffRowsOf(source, target);
      && LineDiff.CountKind(rows, LineDiff.Context) == 0
      && !IsLcsLength(source, target, LineDiff.CountKind(rows, LineDiff.Context))
      && exists other :: ValidScript(other, source, target, 0, 0)
           && Changes(other) < LineDiff.CountKind(rows, LineDiff.Added) + LineDiff.CountKind(rows, LineDiff.Removed)
  {
    hide IsLcsLength, ValidScript, LineDiff.DiffRowsOf, LineDiff.CountKind, LineDiff.Prefix, LineDiff.Suffix, Changes,
      Framed, FitsTable, LineDiff.EndsTrimmed, NothingShared;
    var source, target := Framed("x", "y"), Framed("z", "w");
    NothingIsTrimmed();
    LineDiff.DiffIsMinimal(source, target, 0, 0);
    NothingIsKept(source, target);
  }

  lemma NothingIsTrimmed()
    ensures var source, target := Framed("x", "y"), Framed("z", "w");
      && LineDiff.EndsTrimmed(source, target, 0, 0) && |source| == |target| == 502
      && source[0..|source| - 0] == source && target[0..|target| - 0] == target
      && LineDiff.Prefix(source, target) == 0 && LineDiff.Suffix(source, target) == 0
      && (|source| + 1) * (|target| + 1) > 250_000
      && !FitsTable(source, target) && !NothingShared(source, target)
  {
    var source, target := Framed("x", "y"), Framed("z", "w");
    assert source[0] != target[0] && source[501] != target[501];
    assert source[1] == target[1];
  }

  /** A wholesale replacement keeps no line. */
  lemma NothingIsKept(source: seq<string>, target: seq<string>)
    requires LineDiff.Prefix(source, target) == 0 && LineDiff.Suffix(source, target) == 0 && !FitsTable(source, target)
    ensures LineDiff.CountKind(LineDiff.DiffRowsOf(source, target), LineDiff.Context) == 0
  {
    assert LineDiff.Middle(source, 0, 0) == source && LineDiff.Middle(target, 0, 0) == target;
    var es := ReplaceAll(|source|, |target|);
    AssembledKeeps(es, 0, 0, |source|, |target|);
    LineDiff.CountsMatchScript(LineDiff.DiffScript(source, target), source, target);
    ReplaceAllFrom(es, source, target, 0);
    assert es[0..] == es;
  }

  // ----- the reading diff

  /** A list of five hundred equal items, as a text. */
  function LongList(): string { JoinLines(Copies(500, "- a")) }

  lemma ItemIsItsOwnCore()
    ensures LeadingSpaces("- a") == 0 && TrimStart("- a") == "- a" && Trim("- a") == "- a" && IsSpace(' ')
    ensures !IsSpace('a')
  {
    var line := "- a";
    assert LeadingSpaces(line) == 0 && line[2] == 'a' && !IsSpace('a');
    assert TrimStart(line) == line && TrimEnd(line) == line;
  }

  lemma ItemFacts()
    ensures IsListItem("- a") && !IsBlank("- a") && '|' !in "- a"
    ensures FenceOf("- a").None? && HeadingOf("- a").None? && !IsRule("- a")
  {
    hide TrimStart, TrimEnd, Trim, LeadingSpaces, IsSpace, Occurrences, HasLineTerminator;
    ItemIsItsOwnCore();
    var line := "- a";
    assert line[0] == '-' && line[1] == ' ' && line[2] == 'a';
  }

  lemma {:induction false} ItemsSplitOneByOne(n: nat)
    ensures Split(Copies(n, "- a")) == Copies(n, DocBlock(ListBlock, None, ["- a"]))
  {
    hide IsListItem, IsBlank, FenceOf, HeadingOf, IsRule, IsTableDelimiter, IsQuote, IsIndented, BreaksBlock;
    ItemFacts();
    if n > 0 {
      var lines := Copies(n, "- a");
      ItemsSplitOneByOne(n - 1);
      assert lines[1..] == Copies(n - 1, "- a");
      assert FirstShape(lines) == Item;
      assert Span(Item, lines[1..]) == 0;
      assert BlockLength(lines) == 1 && lines[..1] == ["- a"];
    }
  }

  lemma {:induction false} JoinedHasNoReturn(lines: seq<string>)
    requires lines != [] && forall k :: 0 <= k < |lines| ==> '\r' !in lines[k]
    ensures '\r' !in JoinLines(lines)
  {
    if |lines| > 1 {
      JoinedHasNoReturn(lines[1..]);
    }
  }

  lemma {:induction false} NothingToNormalize(text: string)
    requires '\r' !in text
    ensures NormalizeNewlines(text) == text
  {
    if text != [] {
      NothingToNormalize(text[1..]);
    }
  }

  /** A text whose five hundred blocks, compared with themselves, are reported as changed. */
  lemma LongListDiffersFromItself()
    ensures var blocks := BlocksOf(LongList());
      var rows := ReadingDiff.DiffBlocksOf(blocks, blocks);
      && |blocks| == 500 && !ReadingDiff.Identical(LongList(), LongList())
      && ReadingDiff.Count(rows, ReadingDiff.Added) + ReadingDiff.Count(rows, ReadingDiff.Removed) > 0
  {
    hide Split, SplitFeeds, NormalizeNewlines, JoinLines, ReadingDiff.DiffBlocksOf, ReadingDiff.Texts;
    var lines := Copies(500, "- a");
    JoinedHasNoReturn(lines);
    NothingToNormalize(LongList());
    JoinThenSplit(lines);
    ItemsSplitOneByOne(500);
    var blocks := BlocksOf(LongList());
    ReadingDiff.UnchangedMeansEqual(blocks, blocks);
    assert |ReadingDiff.Texts(blocks)| == 500;
    assert (500 + 1) * (500 + 1) > 250_000;
  }
}
