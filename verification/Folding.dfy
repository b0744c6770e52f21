/**
 Folding a row list into hunks and skip markers, and the whole of `diffLines`
 (`src/lib/diff.ts`).
 */
module Folding {
  import opened Wrappers
  import opened Markdown
  import opened LineDiff

  datatype Segment = Hunk(heading: Option<string>, rows: seq<DiffRow>) | Skipped(count: nat)

  datatype DiffResult = DiffResult(addedCount: nat, removedCount: nat, segments: seq<Segment>, identical: bool)

  const CONTEXT_LINES: nat := 3
  const MIN_COLLAPSE_LINES: nat := 2

  // ----- which rows stay visible

  predicate Changed(row: DiffRow) { row.kind != Context }

  /** A changed row before position `limit` stands within three rows of row `k`. */
  ghost predicate NearBefore(rows: seq<DiffRow>, k: int, limit: nat)
    requires limit <= |rows|
  {
    exists c :: 0 <= c < limit && rows[c].kind != Context && c - 3 <= k <= c + 3
  }

  ghost predicate Near(rows: seq<DiffRow>, k: int) { NearBefore(rows, k, |rows|) }

  /** A single far row between kept rows or document ends: too short to be worth a marker. */
  ghost predicate Lone(rows: seq<DiffRow>, k: int) {
    && !Near(rows, k)
    && (k == 0 || Near(rows, k - 1))
    && (k == |rows| - 1 || Near(rows, k + 1))
  }

  ghost predicate Visible(rows: seq<DiffRow>, k: int) { Near(rows, k) || Lone(rows, k) }

  /** `keep` marks exactly the rows that stay visible. */
  ghost predicate KeepsContext(keep: seq<bool>, rows: seq<DiffRow>) {
    |keep| == |rows| && forall k :: 0 <= k < |keep| ==> (keep[k] <==> Visible(rows, k))
  }

  // ----- section labels

  /** The section a line opens: a heading of level two or deeper, since `#` is the document title. */
  function SectionOpened(line: string): Option<string> {
    var h := HeadingOf(line);
    if h.Some? && h.value.level > 1 then Some(h.value.text) else None
  }

  /** The nearest section opened at or above row `k - 1`. */
  function SectionBefore(rows: seq<DiffRow>, k: nat): Option<string>
    requires k <= |rows|
  {
    if k == 0 then None
    else
      var section := SectionOpened(rows[k - 1].text);
      if section.Some? then section else SectionBefore(rows, k - 1)
  }

  function SectionAt(rows: seq<DiffRow>, k: nat): Option<string>
    requires k < |rows|
  {
    SectionBefore(rows, k + 1)
  }

  /** The first changed row in `[lo, hi)`, or `hi` when there is none. */
  function FirstChange(rows: seq<DiffRow>, lo: nat, hi: nat): (k: nat)
    requires lo <= hi <= |rows|
    ensures lo <= k <= hi
    ensures k < hi ==> Changed(rows[k])
    ensures forall i :: lo <= i < k ==> !Changed(rows[i])
    decreases hi - lo
  {
    if lo == hi || Changed(rows[lo]) then lo else FirstChange(rows, lo + 1, hi)
  }

  // ----- what a faithful folding is

  /** A heading of level two or deeper. */
  predicate OpensSection(line: string) { HeadingOf(line).Some? && HeadingOf(line).value.level >= 2 }

  /** `name` is the text of the last section heading up to row `k`, or nothing when there is none. */
  ghost predicate LabelFits(rows: seq<DiffRow>, k: nat, name: Option<string>)
    requires k < |rows|
  {
    if name.None? then forall i :: 0 <= i <= k ==> !OpensSection(rows[i].text)
    else
      exists i :: 0 <= i <= k && OpensSection(rows[i].text) && HeadingOf(rows[i].text).value.text == name.value
        && forall j :: i < j <= k ==> !OpensSection(rows[j].text)
  }

  /** A stretch of rows is labelled by the section its first change stands in. */
  ghost predicate Labelled(rows: seq<DiffRow>, lo: nat, hi: nat, name: Option<string>)
    requires lo <= hi <= |rows|
  {
    exists c :: lo <= c < hi && rows[c].kind != Context && (forall i :: lo <= i < c ==> rows[i].kind == Context)
      && LabelFits(rows, c, name)
  }

  lemma {:induction false} LabelIsSection(rows: seq<DiffRow>, k: nat)
    requires k < |rows|
    ensures LabelFits(rows, k, SectionAt(rows, k))
    decreases k
  {
    hide HeadingOf;
    var section := SectionOpened(rows[k].text);
    if section.Some? {
      assert OpensSection(rows[k].text);
    } else if k > 0 {
      LabelIsSection(rows, k - 1);
      assert SectionAt(rows, k) == SectionAt(rows, k - 1);
    } else {
      assert SectionBefore(rows, 0) == None && SectionAt(rows, 0) == None;
    }
  }

  lemma FirstChangeIsLabelled(rows: seq<DiffRow>, lo: nat, hi: nat)
    requires lo <= hi <= |rows| && FirstChange(rows, lo, hi) < hi
    ensures Labelled(rows, lo, hi, SectionAt(rows, FirstChange(rows, lo, hi)))
  {
    hide LabelFits, SectionAt;
    LabelIsSection(rows, FirstChange(rows, lo, hi));
  }

  /** The segments, laid end to end from row `k`, account for every remaining row in order. */
  ghost predicate Unfolds(segments: seq<Segment>, rows: seq<DiffRow>, k: nat)
    requires k <= |rows|
    decreases |segments|
  {
    if segments == [] then k == |rows|
    else
      match segments[0]
      case Hunk(heading, shown) =>
        && 0 < |shown| <= |rows| - k && shown == rows[k..k + |shown|]
        && (forall i :: k <= i < k + |shown| ==> Visible(rows, i))
        && Labelled(rows, k, k + |shown|, heading)
        && Unfolds(segments[1..], rows, k + |shown|)
      case Skipped(count) =>
        && 2 <= count <= |rows| - k
        && (forall i :: k <= i < k + count ==> rows[i].kind == Context && !Near(rows, i))
        && Unfolds(segments[1..], rows, k + count)
  }

  /** Hunks and markers take turns. */
  ghost predicate Alternates(segments: seq<Segment>) {
    forall k :: 0 <= k < |segments| - 1 ==> segments[k].Hunk? != segments[k + 1].Hunk?
  }

  // ----- the folding as a function of the keep flags

  /** The end of the run of equal flags that starts at `k`. */
  function RunEnd(keep: seq<bool>, k: nat, flag: bool): (end: nat)
    requires k <= |keep|
    ensures k <= end <= |keep|
    ensures forall i :: k <= i < end ==> keep[i] == flag
    ensures end < |keep| ==> keep[end] != flag
    decreases |keep| - k
  {
    if k < |keep| && keep[k] == flag then RunEnd(keep, k + 1, flag) else k
  }

  function SegmentFrom(rows: seq<DiffRow>, keep: seq<bool>, start: nat, end: nat): Segment
    requires |keep| == |rows| && start < end <= |rows|
  {
    if keep[start] then
      var anchor := FirstChange(rows, start, end);
      Hunk(SectionAt(rows, if anchor < end then anchor else start), rows[start..end])
    else Skipped(end - start)
  }

  function SegmentsFrom(rows: seq<DiffRow>, keep: seq<bool>, k: nat): seq<Segment>
    requires |keep| == |rows| && k <= |rows|
    decreases |rows| - k
  {
    if k == |rows| then []
    else
      var end := RunEnd(keep, k + 1, keep[k]);
      [SegmentFrom(rows, keep, k, end)] + SegmentsFrom(rows, keep, end)
  }

  // ----- the folding is faithful

  /** A visible row next to a hidden one is near a change itself, not merely a lone gap. */
  lemma LoneNeighbourIsNear(rows: seq<DiffRow>, hidden: nat, k: nat)
    requires hidden < |rows| && k < |rows| && (k == hidden + 1 || hidden == k + 1)
    requires !Visible(rows, hidden) && Visible(rows, k)
    ensures Near(rows, k)
  {
  }

  /** A hidden row always has a hidden neighbour, so hidden runs are never a single row. */
  lemma HiddenHasHiddenNeighbour(rows: seq<DiffRow>, k: nat)
    requires k < |rows| && !Visible(rows, k)
    ensures (k > 0 && !Visible(rows, k - 1)) || (k + 1 < |rows| && !Visible(rows, k + 1))
  {
    if k > 0 && Visible(rows, k - 1) {
      LoneNeighbourIsNear(rows, k, k - 1);
    }
    if k + 1 < |rows| && Visible(rows, k + 1) {
      LoneNeighbourIsNear(rows, k, k + 1);
    }
  }

  /** Everything between a row and the change it is near to is near that change too. */
  lemma BetweenIsNear(rows: seq<DiffRow>, k: int, c: int, i: int)
    requires 0 <= c < |rows| && Changed(rows[c]) && c - 3 <= k <= c + 3
    requires k <= i <= c || c <= i <= k
    ensures Near(rows, i)
  {
  }

  /** A maximal visible run shows at least one change. */
  lemma VisibleRunHasChange(rows: seq<DiffRow>, keep: seq<bool>, start: nat, end: nat)
    requires KeepsContext(keep, rows) && start < end <= |rows|
    requires start > 0 ==> !keep[start - 1]
    requires end < |rows| ==> !keep[end]
    requires forall i :: start <= i < end ==> keep[i]
    requires exists c :: 0 <= c < |rows| && Changed(rows[c])
    ensures FirstChange(rows, start, end) < end
  {
    var k := NearRowInRun(rows, keep, start, end);
    var c :| 0 <= c < |rows| && Changed(rows[c]) && c - 3 <= k <= c + 3;
    assert start > 0 ==> !Near(rows, start - 1);
    assert end < |rows| ==> !Near(rows, end);
    if c < start {
      BetweenIsNear(rows, k, c, start - 1);
    } else if end <= c {
      BetweenIsNear(rows, k, c, end);
    }
  }

  /** A visible run is never only a lone gap: some row of it is near a change. */
  lemma NearRowInRun(rows: seq<DiffRow>, keep: seq<bool>, start: nat, end: nat) returns (k: nat)
    requires KeepsContext(keep, rows) && start < end <= |rows|
    requires start > 0 ==> !keep[start - 1]
    requires end < |rows| ==> !keep[end]
    requires forall i :: start <= i < end ==> keep[i]
    requires exists c :: 0 <= c < |rows| && Changed(rows[c])
    ensures start <= k < end && Near(rows, k)
  {
    if Near(rows, start) {
      return start;
    }
    assert Visible(rows, start);
    assert start > 0 ==> !Visible(rows, start - 1);
    var c :| 0 <= c < |rows| && Changed(rows[c]);
    assert start + 1 == |rows| ==> c == start;
    return start + 1;
  }

  /** The next segment is a hunk or a marker as promised, so the rest may follow it. */
  lemma SegmentUnfolds(rows: seq<DiffRow>, keep: seq<bool>, k: nat, rest: seq<Segment>)
    requires KeepsContext(keep, rows) && k < |rows|
    requires k > 0 ==> keep[k - 1] != keep[k]
    requires exists c :: 0 <= c < |rows| && Changed(rows[c])
    requires Unfolds(rest, rows, RunEnd(keep, k + 1, keep[k]))
    ensures Unfolds([SegmentFrom(rows, keep, k, RunEnd(keep, k + 1, keep[k]))] + rest, rows, k)
  {
    hide Near, SectionAt, Unfolds;
    var end := RunEnd(keep, k + 1, keep[k]);
    assert forall i :: k <= i < end ==> (keep[k] <==> Visible(rows, i));
    if keep[k] {
      VisibleRunHasChange(rows, keep, k, end);
      HunkUnfolds(rows, k, end, rest);
    } else {
      HiddenRun(rows, k, end);
      HiddenHasHiddenNeighbour(rows, k);
      SkipUnfolds(rows, k, end, rest);
    }
  }

  lemma HunkUnfolds(rows: seq<DiffRow>, lo: nat, hi: nat, rest: seq<Segment>)
    requires lo < hi <= |rows| && Unfolds(rest, rows, hi)
    requires forall i :: lo <= i < hi ==> Visible(rows, i)
    requires FirstChange(rows, lo, hi) < hi
    ensures Unfolds([Hunk(SectionAt(rows, FirstChange(rows, lo, hi)), rows[lo..hi])] + rest, rows, lo)
  {
    hide Visible, SectionAt, FirstChange, Labelled;
    FirstChangeIsLabelled(rows, lo, hi);
    assert ([Hunk(SectionAt(rows, FirstChange(rows, lo, hi)), rows[lo..hi])] + rest)[1..] == rest;
  }

  lemma SkipUnfolds(rows: seq<DiffRow>, lo: nat, hi: nat, rest: seq<Segment>)
    requires lo + MIN_COLLAPSE_LINES <= hi <= |rows| && Unfolds(rest, rows, hi)
    requires forall i :: lo <= i < hi ==> !Changed(rows[i]) && !Near(rows, i)
    ensures Unfolds([Skipped(hi - lo)] + rest, rows, lo)
  {
    hide Near, Visible, SectionAt, FirstChange;
    assert ([Skipped(hi - lo)] + rest)[1..] == rest;
  }

  lemma HiddenRun(rows: seq<DiffRow>, lo: nat, hi: nat)
    requires lo <= hi <= |rows| && forall i :: lo <= i < hi ==> !Visible(rows, i)
    ensures forall i :: lo <= i < hi ==> !Changed(rows[i]) && !Near(rows, i)
  {
    forall i | lo <= i < hi ensures !Changed(rows[i]) && !Near(rows, i) {
      assert !Visible(rows, i);
      assert Changed(rows[i]) ==> Near(rows, i);
    }
  }

  lemma {:induction false} FoldingUnfolds(rows: seq<DiffRow>, keep: seq<bool>, k: nat)
    requires KeepsContext(keep, rows) && k <= |rows|
    requires 0 < k < |rows| ==> keep[k - 1] != keep[k]
    requires exists c :: 0 <= c < |rows| && Changed(rows[c])
    ensures Unfolds(SegmentsFrom(rows, keep, k), rows, k)
    decreases |rows| - k
  {
    if k < |rows| {
      var end := RunEnd(keep, k + 1, keep[k]);
      FoldingUnfolds(rows, keep, end);
      SegmentUnfolds(rows, keep, k, SegmentsFrom(rows, keep, end));
    }
  }

  lemma {:induction false} FoldingAlternates(rows: seq<DiffRow>, keep: seq<bool>, k: nat)
    requires |keep| == |rows| && k <= |rows|
    ensures Alternates(SegmentsFrom(rows, keep, k))
    ensures k < |rows| ==> SegmentsFrom(rows, keep, k) != [] && SegmentsFrom(rows, keep, k)[0].Hunk? == keep[k]
    decreases |rows| - k
  {
    if k < |rows| {
      FoldingAlternates(rows, keep, RunEnd(keep, k + 1, keep[k]));
    }
  }

  // ----- the loops

  /** Every row within the context distance of a change, marked in place. */
  method MarkContext(rows: seq<DiffRow>) returns (keep: array<bool>)
    ensures fresh(keep) && keep.Length == |rows|
    ensures forall k :: 0 <= k < |rows| ==> (keep[k] <==> Near(rows, k))
  {
    keep := new bool[|rows|](i requires 0 <= i < |rows| => rows[i].kind != Context);
    for index := 0 to |rows|
      invariant forall k :: 0 <= k < |rows| ==> (keep[k] <==> Changed(rows[k]) || NearBefore(rows, k, index))
    {
      if rows[index].kind == Context {
        continue;
      }
      MarkAround(keep, index);
    }
  }

  /** The inner loop: the rows around one change. */
  method MarkAround(keep: array<bool>, index: nat)
    requires index < keep.Length
    modifies keep
    ensures forall k :: 0 <= k < keep.Length ==>
      (keep[k] <==> old(keep[k]) || index - CONTEXT_LINES <= k <= index + CONTEXT_LINES)
  {
    var near := if index < CONTEXT_LINES then 0 else index - CONTEXT_LINES;
    ghost var first := near;
    while near < keep.Length && near <= index + CONTEXT_LINES
      invariant first <= near <= keep.Length
      invariant forall k :: 0 <= k < keep.Length ==>
        (keep[k] <==> old(keep[k]) || (first <= k < near && k <= index + CONTEXT_LINES))
    {
      keep[near] := true;
      near := near + 1;
    }
  }

  /** Runs of far rows too short for a marker, made visible in place. */
  method KeepShortGaps(rows: seq<DiffRow>, keep: array<bool>)
    requires keep.Length == |rows|
    requires forall k :: 0 <= k < |rows| ==> (keep[k] <==> Near(rows, k))
    modifies keep
    ensures KeepsContext(keep[..], rows)
  {
    var run := 0;
    for index := 0 to |rows| + 1
      invariant run <= index
      invariant index == |rows| + 1 ==> run == 0
      invariant forall k :: index <= k < |rows| ==> (keep[k] <==> Near(rows, k))
      invariant index <= |rows| ==> forall k :: index - run <= k < index ==> !keep[k] && !Near(rows, k)
      invariant run < index && index <= |rows| ==> Near(rows, index - run - 1)
      invariant forall k :: 0 <= k < |rows| && k < index - run ==> (keep[k] <==> Visible(rows, k))
    {
      if index < |rows| && !keep[index] {
        run := run + 1;
        continue;
      }
      label Before:
      if run > 0 && run < MIN_COLLAPSE_LINES {
        for back := index - run to index
          invariant forall k :: 0 <= k < |rows| ==> (keep[k] <==> old@Before(keep[k]) || index - run <= k < back)
        {
          keep[back] := true;
        }
      }
      run := 0;
    }
  }

  /** The labels, carried down the rows as the loop meets headings. */
  method HeadingsFor(rows: seq<DiffRow>) returns (headings: seq<Option<string>>)
    ensures |headings| == |rows| && forall k :: 0 <= k < |rows| ==> headings[k] == SectionAt(rows, k)
  {
    hide SectionOpened;
    var current := None;
    headings := [];
    for index := 0 to |rows|
      invariant |headings| == index && forall k :: 0 <= k < index ==> headings[k] == SectionAt(rows, k)
      invariant current == SectionBefore(rows, index)
    {
      var section := SectionOpened(rows[index].text);
      if section.Some? {
        current := section;
      }
      headings := headings + [current];
    }
  }

  method SegmentsFor(rows: seq<DiffRow>) returns (segments: seq<Segment>)
    requires exists c :: 0 <= c < |rows| && Changed(rows[c])
    ensures Unfolds(segments, rows, 0) && Alternates(segments)
  {
    hide SegmentFrom, SectionAt, Visible, Near, RunEnd, Unfolds;
    var keep := MarkContext(rows);
    KeepShortGaps(rows, keep);
    var headings := HeadingsFor(rows);
    var flags := keep[..];
    segments := [];
    var index := 0;
    while index < |rows|
      invariant index <= |rows|
      invariant segments + SegmentsFrom(rows, flags, index) == SegmentsFrom(rows, flags, 0)
    {
      var segment, end := NextSegment(rows, flags, headings, index);
      PeelSegment(segments, rows, flags, index);
      segments := segments + [segment];
      index := end;
    }
    assert segments + [] == segments;
    FoldingUnfolds(rows, flags, 0);
    FoldingAlternates(rows, flags, 0);
  }

  lemma PeelSegment(done: seq<Segment>, rows: seq<DiffRow>, keep: seq<bool>, k: nat)
    requires |keep| == |rows| && k < |rows|
    ensures var end := RunEnd(keep, k + 1, keep[k]);
      done + SegmentsFrom(rows, keep, k)
      == done + [SegmentFrom(rows, keep, k, end)] + SegmentsFrom(rows, keep, end)
  {
  }

  /** One turn of the segment loop: the maximal run from `start`, as a hunk or a marker. */
  method NextSegment(rows: seq<DiffRow>, keep: seq<bool>, headings: seq<Option<string>>, start: nat)
    returns (segment: Segment, index: nat)
    requires start < |rows| == |keep| == |headings|
    requires forall k :: 0 <= k < |rows| ==> headings[k] == SectionAt(rows, k)
    ensures start < index <= |rows| && index == RunEnd(keep, start + 1, keep[start])
    ensures segment == SegmentFrom(rows, keep, start, index)
  {
    index := start;
    while index < |rows| && keep[index] == keep[start]
      invariant start <= index <= |rows|
      invariant index == start || RunEnd(keep, index, keep[start]) == RunEnd(keep, start + 1, keep[start])
      decreases |rows| - index
    {
      index := index + 1;
    }
    if keep[start] {
      var anchor := start;
      while anchor < index && rows[anchor].kind == Context
        invariant start <= anchor <= index
        invariant FirstChange(rows, anchor, index) == FirstChange(rows, start, index)
      {
        anchor := anchor + 1;
      }
      segment := Hunk(headings[if anchor < index then anchor else start], rows[start..index]);
    } else {
      segment := Skipped(index - start);
    }
  }

  // ----- the diff of two documents

  /** An empty text has no lines; any other is its lines, joined again by line feeds. */
  lemma LinesSpellText(text: string)
    ensures FeedFree(SplitLines(text))
    ensures text == [] <==> SplitLines(text) == []
    ensures text != [] ==> JoinLines(SplitLines(text)) == NormalizeNewlines(text)
  {
    hide NormalizeNewlines, SplitFeeds, JoinLines;
    SplitThenJoin(NormalizeNewlines(text));
  }

  /** An empty text has no lines at all; otherwise it is cut at its normalized line feeds. */
  function SplitLines(text: string): seq<string> {
    if text == [] then [] else SplitFeeds(NormalizeNewlines(text))
  }

  method CountRows(rows: seq<DiffRow>, kind: RowKind) returns (count: nat)
    ensures count == CountKind(rows, kind)
  {
    count := 0;
    assert rows[0..] == rows;
    for index := 0 to |rows|
      invariant count + CountKind(rows[index..], kind) == CountKind(rows, kind)
    {
      assert rows[index..][1..] == rows[index + 1..];
      if rows[index].kind == kind {
        count := count + 1;
      }
    }
  }

  lemma {:induction false} CountedMeansChanged(rows: seq<DiffRow>)
    requires CountKind(rows, Added) + CountKind(rows, Removed) > 0
    ensures exists c :: 0 <= c < |rows| && Changed(rows[c])
  {
    if !Changed(rows[0]) {
      CountedMeansChanged(rows[1..]);
      var c :| 0 <= c < |rows[1..]| && Changed(rows[1..][c]);
      assert Changed(rows[c + 1]);
    }
  }

  /**
   `diffLines`: identical documents are reported as such and show nothing; otherwise the segments
   fold a faithful row list and the counts are that list's.
   */
  method DiffLines(sourceContent: string, targetContent: string) returns (result: DiffResult)
    ensures result.identical <==> SplitLines(sourceContent) == SplitLines(targetContent)
    ensures var rows := DiffRowsOf(SplitLines(sourceContent), SplitLines(targetContent));
      && Faithful(rows, SplitLines(sourceContent), SplitLines(targetContent))
      && result.addedCount == CountKind(rows, Added) && result.removedCount == CountKind(rows, Removed)
      && if result.identical then result.segments == []
         else Unfolds(result.segments, rows, 0) && Alternates(result.segments)
  {
    var source, target := SplitLines(sourceContent), SplitLines(targetContent);
    var rows := DiffRows(source, target);
    RowsAreFaithful(source, target);
    UnchangedMeansEqual(source, target);
    var addedCount := CountRows(rows, Added);
    var removedCount := CountRows(rows, Removed);
    if addedCount == 0 && removedCount == 0 {
      return DiffResult(addedCount, removedCount, [], true);
    }
    CountedMeansChanged(rows);
    var segments := SegmentsFor(rows);
    return DiffResult(addedCount, removedCount, segments, false);
  }
}
