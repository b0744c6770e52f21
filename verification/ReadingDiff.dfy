/**
 The block diff and its sections (`diffBlocks`, `collapse`, `buildSection` and `readingDiff` in
 `src/lib/readingDiff.ts`).
 */
module ReadingDiff {
  import opened Wrappers
  import opened Markdown
  import opened BlockSplitter
  import opened Lcs

  datatype Change = Added | Removed | Unchanged

  datatype BlockRow = BlockRow(change: Change, block: DocBlock)

  datatype ReadingRow = Shown(row: BlockRow) | Skipped(count: nat)

  const MIN_COLLAPSE_BLOCKS: nat := 3

  // ----- the rows as a function of the two block lists

  function Texts(blocks: seq<DocBlock>): (texts: seq<string>)
    ensures |texts| == |blocks|
    ensures forall k :: 0 <= k < |blocks| ==> texts[k] == blocks[k].Text()
  {
    if blocks == [] then [] else [blocks[0].Text()] + Texts(blocks[1..])
  }

  function RowOf(e: Edit, source: seq<DocBlock>, target: seq<DocBlock>): BlockRow {
    match e
    case Keep(i, _) => BlockRow(Unchanged, BlockAt(source, i))
    case Drop(i) => BlockRow(Removed, BlockAt(source, i))
    case Add(j) => BlockRow(Added, BlockAt(target, j))
  }

  function BlockAt(blocks: seq<DocBlock>, i: nat): DocBlock {
    if i < |blocks| then blocks[i] else DocBlock(ParagraphBlock, None, [])
  }

  function RowsOf(es: seq<Edit>, source: seq<DocBlock>, target: seq<DocBlock>): (rows: seq<BlockRow>)
    ensures |rows| == |es|
  {
    if es == [] then [] else [RowOf(es[0], source, target)] + RowsOf(es[1..], source, target)
  }

  function DiffBlocksOf(source: seq<DocBlock>, target: seq<DocBlock>): seq<BlockRow> {
    RowsOf(MiddleScript(Texts(source), Texts(target)), source, target)
  }

  // ----- faithfulness, minimality, order

  function SourceSide(rows: seq<BlockRow>): seq<DocBlock> {
    if rows == [] then []
    else (if rows[0].change.Added? then [] else [rows[0].block]) + SourceSide(rows[1..])
  }

  function TargetSide(rows: seq<BlockRow>): seq<DocBlock> {
    if rows == [] then []
    else (if rows[0].change.Removed? then [] else [rows[0].block]) + TargetSide(rows[1..])
  }

  function Count(rows: seq<BlockRow>, change: Change): nat {
    if rows == [] then 0 else (if rows[0].change == change then 1 else 0) + Count(rows[1..], change)
  }

  lemma {:induction false} ScriptSpellsSource(
    es: seq<Edit>, source: seq<DocBlock>, target: seq<DocBlock>, i: nat, j: nat)
    requires i <= |source| && j <= |target|
    requires ValidScript(es, Texts(source), Texts(target), i, j)
    ensures SourceSide(RowsOf(es, source, target)) == source[i..]
    decreases |es|
  {
    hide RowOf, Texts;
    if es != [] {
      assert RowsOf(es, source, target)[1..] == RowsOf(es[1..], source, target);
      RowFacts(es[0], source, target);
      match es[0]
      case Keep(_, _) => ScriptSpellsSource(es[1..], source, target, i + 1, j + 1);
      case Drop(_) => ScriptSpellsSource(es[1..], source, target, i + 1, j);
      case Add(_) => ScriptSpellsSource(es[1..], source, target, i, j + 1);
    }
  }

  lemma {:induction false} ScriptSpellsTarget(
    es: seq<Edit>, source: seq<DocBlock>, target: seq<DocBlock>, i: nat, j: nat)
    requires i <= |source| && j <= |target|
    requires ValidScript(es, Texts(source), Texts(target), i, j)
    ensures Texts(TargetSide(RowsOf(es, source, target))) == Texts(target)[j..]
    decreases |es|
  {
    hide RowOf, DocBlock.Text, Texts;
    if es != [] {
      var rest := TargetSide(RowsOf(es[1..], source, target));
      assert RowsOf(es, source, target)[1..] == RowsOf(es[1..], source, target);
      RowFacts(es[0], source, target);
      match es[0]
      case Keep(_, _) =>
        ScriptSpellsTarget(es[1..], source, target, i + 1, j + 1);
        TextsCons(source[i], rest);
      case Drop(_) => ScriptSpellsTarget(es[1..], source, target, i + 1, j);
      case Add(_) =>
        ScriptSpellsTarget(es[1..], source, target, i, j + 1);
        TextsCons(target[j], rest);
    }
  }

  lemma RowFacts(e: Edit, source: seq<DocBlock>, target: seq<DocBlock>)
    requires match e case Keep(i, j) => i < |source| case Drop(i) => i < |source| case Add(j) => j < |target|
    ensures RowOf(e, source, target) == match e
      case Keep(i, _) => BlockRow(Unchanged, source[i])
      case Drop(i) => BlockRow(Removed, source[i])
      case Add(j) => BlockRow(Added, target[j])
  {
  }

  lemma TextsCons(block: DocBlock, blocks: seq<DocBlock>)
    ensures Texts([block] + blocks) == [block.Text()] + Texts(blocks)
  {
    assert ([block] + blocks)[1..] == blocks;
  }

  lemma {:induction false} CountsMatchScript(es: seq<Edit>, source: seq<DocBlock>, target: seq<DocBlock>)
    ensures var rows := RowsOf(es, source, target);
      && Count(rows, Unchanged) == Keeps(es)
      && Count(rows, Added) + Count(rows, Removed) == Changes(es)
  {
    if es != [] {
      CountsMatchScript(es[1..], source, target);
      assert RowsOf(es, source, target)[1..] == RowsOf(es[1..], source, target);
    }
  }

  /** Unchanged plus removed blocks spell the source; unchanged plus added texts spell the target. */
  lemma BlocksAreFaithful(source: seq<DocBlock>, target: seq<DocBlock>)
    ensures SourceSide(DiffBlocksOf(source, target)) == source
    ensures Texts(TargetSide(DiffBlocksOf(source, target))) == Texts(target)
  {
    MiddleScriptIsValid(Texts(source), Texts(target));
    ScriptSpellsSource(MiddleScript(Texts(source), Texts(target)), source, target, 0, 0);
    ScriptSpellsTarget(MiddleScript(Texts(source), Texts(target)), source, target, 0, 0);
  }

  lemma FittedDiffIsMinimal(source: seq<DocBlock>, target: seq<DocBlock>)
    ensures var rows := DiffBlocksOf(source, target);
      var a, b := Texts(source), Texts(target);
      && (IsLcsLength(a, b, Count(rows, Unchanged)) <==> FitsTable(a, b) || NothingShared(a, b))
      && (IsLcsLength(a, b, Count(rows, Unchanged)) <==>
            forall other :: ValidScript(other, a, b, 0, 0) ==>
              Count(rows, Added) + Count(rows, Removed) <= Changes(other))
  {
    hide FitsTable, NothingShared;
    var a, b := Texts(source), Texts(target);
    var es := MiddleScript(a, b);
    MiddleScriptIsValid(a, b);
    CountsMatchScript(es, source, target);
    MiddleIsLongest(a, b);
    KeptAreCommon(es, a, b);
    if NoneLonger(a, b, Keeps(es)) {
      forall other | ValidScript(other, a, b, 0, 0) ensures Changes(es) <= Changes(other) {
        LongestMeansFewestChanges(es, other, a, b);
      }
    } else {
      WalkIsLongest(a, b);
      WalkIsValid(a, b, 0, 0);
      ScriptCost(es, a, b, 0, 0);
      ScriptCost(Walk(a, b, 0, 0), a, b, 0, 0);
    }
  }

  /**
   The unchanged blocks number a longest common subsequence of the block texts if and only if the
   table has at most 250,000 cells or the documents share no block; and exactly then no script changes fewer blocks.
   */
  lemma BlockDiffIsMinimal(source: seq<DocBlock>, target: seq<DocBlock>)
    ensures var rows := DiffBlocksOf(source, target);
      var a, b := Texts(source), Texts(target);
      && (IsLcsLength(a, b, Count(rows, Unchanged)) <==>
            (|a| + 1) * (|b| + 1) <= 250_000 || NothingShared(a, b))
      && (IsLcsLength(a, b, Count(rows, Unchanged)) <==>
            forall other :: ValidScript(other, a, b, 0, 0) ==>
              Count(rows, Added) + Count(rows, Removed) <= Changes(other))
  {
    hide FitsTable, NothingShared, IsLcsLength, Count, Changes, DiffBlocksOf, ValidScript;
    CapIs(Texts(source), Texts(target));
    FittedDiffIsMinimal(source, target);
  }

  lemma {:induction false} RowKinds(es: seq<Edit>, source: seq<DocBlock>, target: seq<DocBlock>, k: nat)
    requires k < |es|
    ensures RowsOf(es, source, target)[k].change
         == match es[k] case Keep(_, _) => Unchanged case Drop(_) => Removed case Add(_) => Added
    decreases k
  {
    if k > 0 {
      RowKinds(es[1..], source, target, k - 1);
    }
  }

  lemma {:induction false} NoRemovalAfterAddition(rows: seq<BlockRow>, p: nat, q: nat)
    requires forall k :: 0 <= k < |rows| - 1 && rows[k].change.Added? ==> !rows[k + 1].change.Removed?
    requires p < q < |rows| && rows[p].change.Added? && rows[q].change.Removed?
    ensures exists k :: p < k < q && rows[k].change.Unchanged?
    decreases q - p
  {
    if rows[p + 1].change.Added? {
      NoRemovalAfterAddition(rows, p + 1, q);
    }
  }

  /** Between an added block and a later removed one there is always an unchanged block. */
  lemma BlocksRemoveFirst(source: seq<DocBlock>, target: seq<DocBlock>)
    ensures var rows := DiffBlocksOf(source, target);
      forall p, q :: 0 <= p < q < |rows| && rows[p].change.Added? && rows[q].change.Removed? ==>
        exists k :: p < k < q && rows[k].change.Unchanged?
  {
    var es, rows := MiddleScript(Texts(source), Texts(target)), DiffBlocksOf(source, target);
    MiddleRemovesFirst(Texts(source), Texts(target));
    hide MiddleScript;
    forall k | 0 <= k < |rows| - 1 && rows[k].change.Added? ensures !rows[k + 1].change.Removed? {
      RowKinds(es, source, target, k);
      RowKinds(es, source, target, k + 1);
    }
    forall p, q | 0 <= p < q < |rows| && rows[p].change.Added? && rows[q].change.Removed?
      ensures exists k :: p < k < q && rows[k].change.Unchanged?
    {
      NoRemovalAfterAddition(rows, p, q);
    }
  }

  lemma {:induction false} NoChangesMeansEqual(rows: seq<BlockRow>)
    requires Count(rows, Added) + Count(rows, Removed) == 0
    ensures SourceSide(rows) == TargetSide(rows)
  {
    if rows != [] {
      NoChangesMeansEqual(rows[1..]);
    }
  }

  lemma {:induction false} WalkOfEqual(a: seq<string>, k: nat)
    requires k <= |a|
    ensures Changes(Walk(a, a, k, k)) == 0
    decreases |a| - k
  {
    if k < |a| {
      WalkOfEqual(a, k + 1);
    }
  }

  /**
   Within the cap, nothing is reported changed exactly when the block texts are equal.  Past the cap
   equal documents are reported as replaced: `diffBlocks` does not trim, so that half needs the guard.
   */
  lemma UnchangedMeansEqual(source: seq<DocBlock>, target: seq<DocBlock>)
    ensures var rows := DiffBlocksOf(source, target);
      Count(rows, Added) + Count(rows, Removed) == 0
      <==> Texts(source) == Texts(target) && (|source| + 1) * (|target| + 1) <= 250_000
  {
    hide FitsTable;
    var a, b := Texts(source), Texts(target);
    var es, rows := MiddleScript(a, b), DiffBlocksOf(source, target);
    CapIs(a, b);
    CountsMatchScript(es, source, target);
    if FitsTable(a, b) {
      if Changes(es) == 0 {
        BlocksAreFaithful(source, target);
        NoChangesMeansEqual(rows);
      }
      if a == b {
        WalkOfEqual(a, 0);
      }
    } else {
      ReplacementChanges(a, b);
    }
  }

  lemma ReplacementChanges(a: seq<string>, b: seq<string>)
    requires !FitsTable(a, b)
    ensures Changes(MiddleScript(a, b)) > 0
  {
    var es := MiddleScript(a, b);
    MiddleScriptIsValid(a, b);
    ScriptCost(es, a, b, 0, 0);
    ReplaceAllFrom(es, a, b, 0);
    assert es[0..] == es;
    assert a != [] || b != [];
  }

  // ----- the loops of the block diff

  method DiffBlocks(source: seq<DocBlock>, target: seq<DocBlock>) returns (rows: seq<BlockRow>)
    ensures rows == DiffBlocksOf(source, target)
  {
    ghost var a, b := Texts(source), Texts(target);
    if !FitsTable(Texts(source), Texts(target)) {
      rows := ReplaceBlocks(source, target);
    } else {
      rows := WalkBlocks(source, target);
      RowsAheadAreWalkRows(source, target, Texts(source), Texts(target), 0, 0);
    }
  }

  method ReplaceBlocks(source: seq<DocBlock>, target: seq<DocBlock>) returns (rows: seq<BlockRow>)
    ensures rows == RowsOf(ReplaceAll(|source|, |target|), source, target)
  {
    ghost var es := ReplaceAll(|source|, |target|);
    rows := [];
    for i := 0 to |source|
      invariant rows == RowsOf(es[..i], source, target)
    {
      RowsOfSnoc(es, i, source, target);
      rows := rows + [BlockRow(Removed, source[i])];
    }
    for j := 0 to |target|
      invariant rows == RowsOf(es[..|source| + j], source, target)
    {
      RowsOfSnoc(es, |source| + j, source, target);
      rows := rows + [BlockRow(Added, target[j])];
    }
    assert es[..|es|] == es;
  }

  lemma {:induction false} RowsOfSnoc(es: seq<Edit>, k: nat, source: seq<DocBlock>, target: seq<DocBlock>)
    requires k < |es|
    ensures RowsOf(es[..k + 1], source, target)
         == RowsOf(es[..k], source, target) + [RowOf(es[k], source, target)]
    decreases k
  {
    hide RowOf;
    assert es[..k + 1][1..] == es[1..][..k];
    if k > 0 {
      RowsOfSnoc(es[1..], k - 1, source, target);
      assert es[..k][1..] == es[1..][..k - 1];
    }
  }

  /** The rows the walk has still to emit from `(i, j)`, over the blocks' texts `a` and `b`. */
  function RowsAhead(
    source: seq<DocBlock>, target: seq<DocBlock>, a: seq<string>, b: seq<string>, i: nat, j: nat): seq<BlockRow>
    requires i <= |source| == |a| && j <= |target| == |b|
    decreases |a| - i + |b| - j
  {
    if i == |a| && j == |b| then []
    else if i < |a| && j < |b| && a[i] == b[j] then
      [BlockRow(Unchanged, source[i])] + RowsAhead(source, target, a, b, i + 1, j + 1)
    else if DropsSource(a, b, i, j) then
      [BlockRow(Removed, source[i])] + RowsAhead(source, target, a, b, i + 1, j)
    else
      [BlockRow(Added, target[j])] + RowsAhead(source, target, a, b, i, j + 1)
  }

  lemma PeelRow(e: Edit, rest: seq<Edit>, source: seq<DocBlock>, target: seq<DocBlock>)
    ensures RowsOf([e] + rest, source, target) == [RowOf(e, source, target)] + RowsOf(rest, source, target)
  {
    assert ([e] + rest)[1..] == rest;
  }

  lemma {:induction false} RowsAheadAreWalkRows(
    source: seq<DocBlock>, target: seq<DocBlock>, a: seq<string>, b: seq<string>, i: nat, j: nat)
    requires i <= |source| == |a| && j <= |target| == |b|
    ensures RowsAhead(source, target, a, b, i, j) == RowsOf(Walk(a, b, i, j), source, target)
    decreases |a| - i + |b| - j
  {
    hide RowsOf, RowOf, SuffixLength;
    if i == |a| && j == |b| {
      RowsOfNothing(source, target);
    } else {
      var e := Walk(a, b, i, j)[0];
      var i', j' := if e.Add? then i else i + 1, if e.Drop? then j else j + 1;
      RowsAheadAreWalkRows(source, target, a, b, i', j');
      PeelRow(e, Walk(a, b, i', j'), source, target);
      RowFacts(e, source, target);
    }
  }

  lemma RowsOfNothing(source: seq<DocBlock>, target: seq<DocBlock>)
    ensures RowsOf([], source, target) == []
  {
  }

  /** The row the walk emits at `(i, j)`, put behind the rows before it. */
  lemma NextRow(
    done: seq<BlockRow>, source: seq<DocBlock>, target: seq<DocBlock>, a: seq<string>, b: seq<string>, i: nat, j: nat)
    requires i <= |source| == |a| && j <= |target| == |b| && !(i == |a| && j == |b|)
    ensures done + RowsAhead(source, target, a, b, i, j) ==
      if i < |a| && j < |b| && a[i] == b[j] then
        done + [BlockRow(Unchanged, source[i])] + RowsAhead(source, target, a, b, i + 1, j + 1)
      else if DropsSource(a, b, i, j) then
        done + [BlockRow(Removed, source[i])] + RowsAhead(source, target, a, b, i + 1, j)
      else
        done + [BlockRow(Added, target[j])] + RowsAhead(source, target, a, b, i, j + 1)
  {
    hide SuffixLength;
  }

  lemma NoRowsAhead(source: seq<DocBlock>, target: seq<DocBlock>, a: seq<string>, b: seq<string>)
    requires |source| == |a| && |target| == |b|
    ensures RowsAhead(source, target, a, b, |a|, |b|) == []
  {
  }

  lemma TextAt(blocks: seq<DocBlock>, k: nat)
    requires k < |blocks|
    ensures |Texts(blocks)| == |blocks| && Texts(blocks)[k] == blocks[k].Text()
  {
    hide DocBlock.Text;
  }

  method WalkBlocks(source: seq<DocBlock>, target: seq<DocBlock>) returns (rows: seq<BlockRow>)
    requires FitsTable(Texts(source), Texts(target))
    ensures rows == RowsAhead(source, target, Texts(source), Texts(target), 0, 0)
  {
    hide FitsTable, Texts, DropsSource, Filled, SuffixLength, RowsAhead, DocBlock.Text;
    var a, b := Texts(source), Texts(target);
    FewRows(a, b);
    NoRowsAhead(source, target, a, b);
    var table := LcsLengths(a, b);
    rows := [];
    var i, j := 0, 0;
    while i < |source| || j < |target|
      invariant i <= |source| && j <= |target|
      invariant rows + RowsAhead(source, target, a, b, i, j) == RowsAhead(source, target, a, b, 0, 0)
      invariant Filled(table[..], a, b, 0, 0)
      decreases |source| - i + |target| - j
    {
      NextRow(rows, source, target, a, b, i, j);
      if i < |source| && j < |target| {
        TextAt(source, i);
        TextAt(target, j);
      }
      if i < |source| && j < |target| && source[i].Text() == target[j].Text() {
        rows := rows + [BlockRow(Unchanged, source[i])];
        i, j := i + 1, j + 1;
        continue;
      }
      var dropSource := PrefersDrop(table, a, b, i, j);
      if dropSource {
        rows := rows + [BlockRow(Removed, source[i])];
        i := i + 1;
      } else {
        rows := rows + [BlockRow(Added, target[j])];
        j := j + 1;
      }
    }
    assert rows + [] == rows;
  }

  // ----- collapsing unchanged runs

  /** How many leading rows are unchanged. */
  function UnchangedRun(rows: seq<BlockRow>): (n: nat)
    ensures n <= |rows|
    ensures forall k :: 0 <= k < n ==> rows[k].change.Unchanged?
    ensures n < |rows| ==> !rows[n].change.Unchanged?
  {
    if rows != [] && rows[0].change.Unchanged? then 1 + UnchangedRun(rows[1..]) else 0
  }

  function ShowAll(rows: seq<BlockRow>): (out: seq<ReadingRow>)
    ensures |out| == |rows| && forall k :: 0 <= k < |rows| ==> out[k] == Shown(rows[k])
  {
    seq(|rows|, k requires 0 <= k < |rows| => Shown(rows[k]))
  }

  function CollapseRows(rows: seq<BlockRow>): seq<ReadingRow>
    decreases |rows|
  {
    if rows == [] then []
    else if !rows[0].change.Unchanged? then [Shown(rows[0])] + CollapseRows(rows[1..])
    else
      var run := UnchangedRun(rows);
      (if run >= MIN_COLLAPSE_BLOCKS then [Skipped(run)] else ShowAll(rows[..run])) + CollapseRows(rows[run..])
  }

  /** Exactly the first `run` rows are unchanged. */
  ghost predicate LeadsUnchanged(rows: seq<BlockRow>, run: nat) {
    && run <= |rows| && (forall k :: 0 <= k < run ==> rows[k].change.Unchanged?)
    && (run < |rows| ==> !rows[run].change.Unchanged?)
  }

  /**
   The reading rows, laid end to end, are the block rows: every changed block, unchanged blocks where one or
   two stand together, and a marker with their number where three or more do.
   */
  ghost predicate Expands(out: seq<ReadingRow>, rows: seq<BlockRow>)
    decreases |rows|
  {
    if rows == [] then out == []
    else if !rows[0].change.Unchanged? then out != [] && out[0] == Shown(rows[0]) && Expands(out[1..], rows[1..])
    else
      exists run :: 1 <= run <= |rows| && LeadsUnchanged(rows, run) &&
        if run >= 3 then out != [] && out[0] == Skipped(run) && Expands(out[1..], rows[run..])
        else
          && run <= |out| && (forall k :: 0 <= k < run ==> out[k] == Shown(rows[k]))
          && Expands(out[run..], rows[run..])
  }

  lemma {:induction false} CollapseExpands(rows: seq<BlockRow>)
    ensures Expands(CollapseRows(rows), rows)
    decreases |rows|
  {
    var out := CollapseRows(rows);
    if rows == [] {
    } else if !rows[0].change.Unchanged? {
      CollapseExpands(rows[1..]);
      assert out[1..] == CollapseRows(rows[1..]);
    } else {
      var run := UnchangedRun(rows);
      CollapseExpands(rows[run..]);
      assert LeadsUnchanged(rows, run);
      if run < MIN_COLLAPSE_BLOCKS {
        assert out[run..] == CollapseRows(rows[run..]);
      } else {
        assert out[1..] == CollapseRows(rows[run..]);
      }
    }
  }

  /** Only one list of reading rows expands to the rows. */
  lemma {:induction false} ExpansionIsUnique(out: seq<ReadingRow>, other: seq<ReadingRow>, rows: seq<BlockRow>)
    requires Expands(out, rows) && Expands(other, rows)
    ensures out == other
    decreases |rows|
  {
    if rows == [] {
    } else if !rows[0].change.Unchanged? {
      ExpansionIsUnique(out[1..], other[1..], rows[1..]);
      assert out == [out[0]] + out[1..] && other == [other[0]] + other[1..];
    } else {
      var run := UnchangedRun(rows);
      assert forall n :: LeadsUnchanged(rows, n) ==> n == run;
      if run >= 3 {
        ExpansionIsUnique(out[1..], other[1..], rows[run..]);
        assert out == [out[0]] + out[1..] && other == [other[0]] + other[1..];
      } else {
        ExpansionIsUnique(out[run..], other[run..], rows[run..]);
        assert out == out[..run] + out[run..] && other == other[..run] + other[run..];
      }
    }
  }

  method Collapse(rows: seq<BlockRow>) returns (out: seq<ReadingRow>)
    ensures out == CollapseRows(rows)
  {
    out := [];
    var index := 0;
    assert rows[0..] == rows;
    while index < |rows|
      invariant index <= |rows|
      invariant out + CollapseRows(rows[index..]) == CollapseRows(rows)
    {
      if !rows[index].change.Unchanged? {
        PeelChanged(out, rows, index);
        out := out + [Shown(rows[index])];
        index := index + 1;
        continue;
      }
      var run := CountUnchanged(rows, index);
      PeelRun(out, rows, index, run);
      if run >= MIN_COLLAPSE_BLOCKS {
        out := out + [Skipped(run)];
      } else {
        out := out + ShowAll(rows[index..index + run]);
      }
      index := index + run;
    }
    assert out + [] == out;
  }

  /** The inner loop: the length of the unchanged run at `start`. */
  method CountUnchanged(rows: seq<BlockRow>, start: nat) returns (run: nat)
    requires start <= |rows|
    ensures run == UnchangedRun(rows[start..])
  {
    var index := start;
    while index < |rows| && rows[index].change.Unchanged?
      invariant start <= index <= |rows|
      invariant index - start + UnchangedRun(rows[index..]) == UnchangedRun(rows[start..])
    {
      assert rows[index..][1..] == rows[index + 1..];
      index := index + 1;
    }
    run := index - start;
  }

  lemma PeelChanged(out: seq<ReadingRow>, rows: seq<BlockRow>, k: nat)
    requires k < |rows| && !rows[k].change.Unchanged?
    ensures out + CollapseRows(rows[k..]) == out + [Shown(rows[k])] + CollapseRows(rows[k + 1..])
  {
    assert rows[k..][1..] == rows[k + 1..];
  }

  lemma PeelRun(out: seq<ReadingRow>, rows: seq<BlockRow>, k: nat, run: nat)
    requires k < |rows| && rows[k].change.Unchanged? && run == UnchangedRun(rows[k..])
    ensures k + run <= |rows|
    ensures out + CollapseRows(rows[k..])
         == out + (if run >= MIN_COLLAPSE_BLOCKS then [Skipped(run)] else ShowAll(rows[k..k + run]))
            + CollapseRows(rows[k + run..])
  {
    assert rows[k..][run..] == rows[k + run..] && rows[k..][..run] == rows[k..k + run];
  }

  // ----- sections

  datatype Section = Section(
    heading: Option<string>, change: Change, changed: bool,
    addedBlocks: nat, removedBlocks: nat, rows: seq<ReadingRow>)

  datatype ReadingResult = ReadingResult(sections: seq<Section>, addedBlocks: nat, removedBlocks: nat, identical: bool)

  /** Sections start at `##`; a heading block without a level counts as the title. */
  predicate StartsSection(row: BlockRow) {
    row.block.kind == HeadingBlock && row.block.level.Some? && row.block.level.value > 1
  }

  /** The name a heading block gives its section. */
  function NameOf(row: BlockRow): string {
    var text := row.block.Text();
    if HeadingOf(text).Some? then HeadingOf(text).value.text else text
  }

  function BuildSectionOf(heading: Option<BlockRow>, body: seq<BlockRow>): Section {
    var added, removed := Count(body, Added), Count(body, Removed);
    var changed := (heading.Some? && !heading.value.change.Unchanged?) || added > 0 || removed > 0;
    Section(
      if heading.Some? then Some(NameOf(heading.value)) else None,
      if heading.Some? then heading.value.change else Unchanged,
      changed, added, removed,
      if changed then CollapseRows(body) else if body != [] then [Skipped(|body|)] else [])
  }

  /** The section under construction, unless it is still empty and unnamed. */
  function Flush(heading: Option<BlockRow>, body: seq<BlockRow>): seq<Section> {
    if heading.Some? || body != [] then [BuildSectionOf(heading, body)] else []
  }

  function SectionsFrom(rows: seq<BlockRow>, heading: Option<BlockRow>, body: seq<BlockRow>): seq<Section> {
    if rows == [] then Flush(heading, body)
    else if StartsSection(rows[0]) then Flush(heading, body) + SectionsFrom(rows[1..], Some(rows[0]), [])
    else SectionsFrom(rows[1..], heading, body + [rows[0]])
  }

  predicate IsListed(section: Section) { section.changed || section.heading.Some? }

  function Listed(sections: seq<Section>): seq<Section> {
    if sections == [] then []
    else (if IsListed(sections[0]) then [sections[0]] else []) + Listed(sections[1..])
  }

  // ----- sections account for every change and every heading

  /** Blocks of one change a section reports: its body's, and its heading if that changed so. */
  function Reported(section: Section, change: Change): nat {
    (if section.heading.Some? && section.change == change then 1 else 0)
    + (match change case Added => section.addedBlocks case Removed => section.removedBlocks case Unchanged => 0)
  }

  function TotalReported(sections: seq<Section>, change: Change): nat {
    if sections == [] then 0 else Reported(sections[0], change) + TotalReported(sections[1..], change)
  }

  function NameList(section: Section): seq<string> {
    if section.heading.Some? then [section.heading.value] else []
  }

  function SectionNames(sections: seq<Section>): seq<string> {
    if sections == [] then [] else NameList(sections[0]) + SectionNames(sections[1..])
  }

  /** The names of the section headings among the rows, in order. */
  function HeadingNames(rows: seq<BlockRow>): seq<string> {
    if rows == [] then []
    else if StartsSection(rows[0]) then [NameOf(rows[0])] + HeadingNames(rows[1..])
    else HeadingNames(rows[1..])
  }

  function Head(heading: Option<BlockRow>): seq<BlockRow> {
    if heading.Some? then [heading.value] else []
  }

  lemma {:induction false} CountConcat(x: seq<BlockRow>, y: seq<BlockRow>, change: Change)
    ensures Count(x + y, change) == Count(x, change) + Count(y, change)
  {
    if x == [] {
      assert x + y == y;
    } else {
      CountConcat(x[1..], y, change);
      assert (x + y)[1..] == x[1..] + y;
    }
  }

  lemma {:induction false} TotalConcat(x: seq<Section>, y: seq<Section>, change: Change)
    ensures TotalReported(x + y, change) == TotalReported(x, change) + TotalReported(y, change)
  {
    hide Reported;
    if x == [] {
      assert x + y == y;
    } else {
      TotalConcat(x[1..], y, change);
      assert (x + y)[1..] == x[1..] + y;
    }
  }

  lemma {:induction false} NamesConcat(x: seq<Section>, y: seq<Section>)
    ensures SectionNames(x + y) == SectionNames(x) + SectionNames(y)
  {
    hide NameList;
    if x == [] {
      assert x + y == y;
    } else {
      NamesConcat(x[1..], y);
      assert (x + y)[1..] == x[1..] + y;
      ConcatAssociates(NameList(x[0]), SectionNames(x[1..]), SectionNames(y));
    }
  }

  /** The sections report exactly the changes among the rows read and the section being built. */
  lemma {:induction false} SectionsReportAll(
    rows: seq<BlockRow>, heading: Option<BlockRow>, body: seq<BlockRow>, change: Change)
    requires change != Unchanged
    ensures TotalReported(SectionsFrom(rows, heading, body), change)
         == Count(Head(heading), change) + Count(body, change) + Count(rows, change)
    decreases |rows|
  {
    hide StartsSection, Flush;
    FlushReports(heading, body, change);
    if rows == [] {
    } else if StartsSection(rows[0]) {
      SectionsReportAll(rows[1..], Some(rows[0]), [], change);
      TotalConcat(Flush(heading, body), SectionsFrom(rows[1..], Some(rows[0]), []), change);
    } else {
      SectionsReportAll(rows[1..], heading, body + [rows[0]], change);
      CountConcat(body, [rows[0]], change);
    }
  }

  lemma FlushReports(heading: Option<BlockRow>, body: seq<BlockRow>, change: Change)
    requires change != Unchanged
    ensures TotalReported(Flush(heading, body), change) == Count(Head(heading), change) + Count(body, change)
  {
    hide CollapseRows, NameOf;
    var sections := Flush(heading, body);
    assert sections != [] ==> TotalReported(sections[1..], change) == 0;
  }

  lemma {:induction false} SectionsNameAll(rows: seq<BlockRow>, heading: Option<BlockRow>, body: seq<BlockRow>)
    ensures SectionNames(SectionsFrom(rows, heading, body)) == HeadingList(heading) + HeadingNames(rows)
    decreases |rows|
  {
    hide NameOf, StartsSection, Flush;
    FlushNames(heading, body);
    if rows == [] {
    } else if StartsSection(rows[0]) {
      SectionsNameAll(rows[1..], Some(rows[0]), []);
      NamesConcat(Flush(heading, body), SectionsFrom(rows[1..], Some(rows[0]), []));
    } else {
      SectionsNameAll(rows[1..], heading, body + [rows[0]]);
    }
  }

  function HeadingList(heading: Option<BlockRow>): seq<string> {
    if heading.Some? then [NameOf(heading.value)] else []
  }

  lemma FlushNames(heading: Option<BlockRow>, body: seq<BlockRow>)
    ensures SectionNames(Flush(heading, body)) == HeadingList(heading)
  {
    hide CollapseRows, NameOf, Count;
    var sections := Flush(heading, body);
    assert sections != [] ==> SectionNames(sections[1..]) == [];
  }

  /** Leaving out unnamed untouched sections loses no change. */
  lemma {:induction false} ListingLosesNoChange(sections: seq<Section>, change: Change)
    requires change != Unchanged
    requires forall section :: section in sections ==> ReportedOrIdle(section)
    ensures TotalReported(Listed(sections), change) == TotalReported(sections, change)
  {
    if sections != [] {
      assert ReportedOrIdle(sections[0]);
      ListingLosesNoChange(sections[1..], change);
      if IsListed(sections[0]) {
        assert ([sections[0]] + Listed(sections[1..]))[1..] == Listed(sections[1..]);
      } else {
        assert [] + Listed(sections[1..]) == Listed(sections[1..]);
      }
    }
  }

  lemma {:induction false} ListingLosesNoName(sections: seq<Section>)
    ensures SectionNames(Listed(sections)) == SectionNames(sections)
  {
    if sections != [] {
      ListingLosesNoName(sections[1..]);
      if IsListed(sections[0]) {
        assert ([sections[0]] + Listed(sections[1..]))[1..] == Listed(sections[1..]);
      } else {
        assert [] + Listed(sections[1..]) == Listed(sections[1..]);
      }
    }
  }

  /** A section left out of the listing reports nothing. */
  ghost predicate ReportedOrIdle(section: Section) {
    IsListed(section) || (section.addedBlocks == 0 && section.removedBlocks == 0)
  }

  lemma BuiltIsReportedOrIdle(heading: Option<BlockRow>, body: seq<BlockRow>)
    ensures ReportedOrIdle(BuildSectionOf(heading, body))
  {
    hide CollapseRows, NameOf, Count;
  }

  lemma {:induction false} UnlistedAreIdle(rows: seq<BlockRow>, heading: Option<BlockRow>, body: seq<BlockRow>)
    ensures forall section :: section in SectionsFrom(rows, heading, body) ==> ReportedOrIdle(section)
    decreases |rows|
  {
    hide BuildSectionOf, StartsSection, ReportedOrIdle;
    BuiltIsReportedOrIdle(heading, body);
    if rows == [] {
    } else if StartsSection(rows[0]) {
      UnlistedAreIdle(rows[1..], Some(rows[0]), []);
    } else {
      UnlistedAreIdle(rows[1..], heading, body + [rows[0]]);
    }
  }

  /**
   The listed sections' totals are the row list's: as many added and as many removed blocks, headings
   included; and they name every section heading of the row list in order.  Which blocks they hold is
   said by `SectionsShowTheRows`.
   */
  lemma SectionsAccountForEverything(rows: seq<BlockRow>)
    ensures var sections := Listed(SectionsFrom(rows, None, []));
      && TotalReported(sections, Added) == Count(rows, Added)
      && TotalReported(sections, Removed) == Count(rows, Removed)
      && SectionNames(sections) == HeadingNames(rows)
  {
    hide NameOf, Flush, StartsSection, Listed, ReportedOrIdle;
    var sections := SectionsFrom(rows, None, []);
    SectionsReportAll(rows, None, [], Added);
    SectionsReportAll(rows, None, [], Removed);
    SectionsNameAll(rows, None, []);
    UnlistedAreIdle(rows, None, []);
    ListingLosesNoChange(sections, Added);
    ListingLosesNoChange(sections, Removed);
    ListingLosesNoName(sections);
  }

  // ----- sections show the rows themselves

  /** One stretch of the row list: a section heading with the rows below it, or the rows above the first. */
  datatype Piece = Piece(heading: Option<BlockRow>, body: seq<BlockRow>) {
    function Rows(): seq<BlockRow> { Head(heading) + body }
  }

  function AllRows(pieces: seq<Piece>): seq<BlockRow> {
    if pieces == [] then [] else pieces[0].Rows() + AllRows(pieces[1..])
  }

  ghost predicate Untouched(rows: seq<BlockRow>) { forall k :: 0 <= k < |rows| ==> rows[k].change.Unchanged? }

  /** A heading block of level two or deeper. */
  predicate IsSectionHeading(block: DocBlock) {
    block.kind == HeadingBlock && block.level.Some? && block.level.value >= 2
  }

  /** `name` is the heading's own text, without its marks. */
  predicate Names(name: string, block: DocBlock) {
    match HeadingOf(block.Text()) case Some(h) => name == h.text case None => name == block.Text()
  }

  /** A piece is not empty, and a section heading in it is its first row. */
  ghost predicate PieceFits(piece: Piece) {
    && (if piece.heading.Some? then IsSectionHeading(piece.heading.value.block) else piece.body != [])
    && forall k :: 0 <= k < |piece.body| ==> !IsSectionHeading(piece.body[k].block)
  }

  /** Every piece fits, and every one but the first has a heading. */
  ghost predicate AllFit(pieces: seq<Piece>) {
    && (forall k :: 0 <= k < |pieces| ==> PieceFits(pieces[k]))
    && forall k :: 0 < k < |pieces| ==> pieces[k].heading.Some?
  }

  /** The rows cut, in order and without a gap, at their section headings. */
  ghost predicate Cuts(pieces: seq<Piece>, rows: seq<BlockRow>) { AllRows(pieces) == rows && AllFit(pieces) }

  /** A section names its piece's heading and, when anything in the piece changed, shows its rows. */
  ghost predicate Shows(section: Section, piece: Piece) {
    && (if piece.heading.Some? then section.heading.Some? && Names(section.heading.value, piece.heading.value.block)
        else section.heading.None?)
    && section.change == (if piece.heading.Some? then piece.heading.value.change else Unchanged)
    && section.addedBlocks == Count(piece.body, Added) && section.removedBlocks == Count(piece.body, Removed)
    && (section.changed <==> !Untouched(piece.Rows()))
    && (if section.changed then Expands(section.rows, piece.body)
        else section.rows == if piece.body == [] then [] else [Skipped(|piece.body|)])
  }

  /** An unnamed piece in which nothing changed. */
  ghost predicate LeftOut(piece: Piece) { piece.heading.None? && Untouched(piece.body) }

  /** The sections show the pieces, in order, all but those left out. */
  ghost predicate Reports(sections: seq<Section>, pieces: seq<Piece>)
    decreases |pieces|
  {
    if pieces == [] then sections == []
    else if LeftOut(pieces[0]) then Reports(sections, pieces[1..])
    else sections != [] && Shows(sections[0], pieces[0]) && Reports(sections[1..], pieces[1..])
  }

  function FlushPiece(heading: Option<BlockRow>, body: seq<BlockRow>): seq<Piece> {
    if heading.Some? || body != [] then [Piece(heading, body)] else []
  }

  function PiecesFrom(rows: seq<BlockRow>, heading: Option<BlockRow>, body: seq<BlockRow>): seq<Piece> {
    if rows == [] then FlushPiece(heading, body)
    else if StartsSection(rows[0]) then FlushPiece(heading, body) + PiecesFrom(rows[1..], Some(rows[0]), [])
    else PiecesFrom(rows[1..], heading, body + [rows[0]])
  }

  lemma {:induction false} PiecesSpellRows(rows: seq<BlockRow>, heading: Option<BlockRow>, body: seq<BlockRow>)
    ensures AllRows(PiecesFrom(rows, heading, body)) == Head(heading) + body + rows
    decreases |rows|
  {
    hide StartsSection;
    if rows == [] {
      assert AllRows([Piece(heading, body)]) == Head(heading) + body;
    } else if StartsSection(rows[0]) {
      PiecesSpellRows(rows[1..], Some(rows[0]), []);
      assert [rows[0]] + [] + rows[1..] == rows;
      var rest := PiecesFrom(rows[1..], Some(rows[0]), []);
      if heading.Some? || body != [] {
        assert ([Piece(heading, body)] + rest)[1..] == rest;
      } else {
        assert [] + rest == rest;
      }
    } else {
      PiecesSpellRows(rows[1..], heading, body + [rows[0]]);
      assert Head(heading) + (body + [rows[0]]) + rows[1..] == Head(heading) + body + rows;
    }
  }

  lemma {:induction false} PiecesFit(rows: seq<BlockRow>, heading: Option<BlockRow>, body: seq<BlockRow>)
    requires heading.Some? ==> StartsSection(heading.value)
    requires forall k :: 0 <= k < |body| ==> !StartsSection(body[k])
    ensures var pieces := PiecesFrom(rows, heading, body);
      AllFit(pieces) && (heading.Some? && pieces != [] ==> pieces[0].heading.Some?)
    decreases |rows|
  {
    hide StartsSection, PieceFits;
    FlushedFits(heading, body);
    if rows == [] {
    } else if StartsSection(rows[0]) {
      PiecesFit(rows[1..], Some(rows[0]), []);
    } else {
      PiecesFit(rows[1..], heading, body + [rows[0]]);
    }
  }

  lemma FlushedFits(heading: Option<BlockRow>, body: seq<BlockRow>)
    requires heading.Some? ==> StartsSection(heading.value)
    requires forall k :: 0 <= k < |body| ==> !StartsSection(body[k])
    ensures heading.Some? || body != [] ==> PieceFits(Piece(heading, body))
  {
  }

  lemma {:induction false} CountIsZero(rows: seq<BlockRow>)
    ensures Count(rows, Added) == 0 && Count(rows, Removed) == 0 <==> Untouched(rows)
  {
    if rows != [] {
      CountIsZero(rows[1..]);
      assert Untouched(rows) <==> rows[0].change.Unchanged? && Untouched(rows[1..]);
    }
  }

  lemma NameIsHeading(row: BlockRow)
    ensures Names(NameOf(row), row.block)
  {
    hide HeadingOf, DocBlock.Text;
  }

  lemma BuiltShows(heading: Option<BlockRow>, body: seq<BlockRow>)
    ensures Shows(BuildSectionOf(heading, body), Piece(heading, body))
    ensures IsListed(BuildSectionOf(heading, body)) <==> !LeftOut(Piece(heading, body))
  {
    hide Expands, CollapseRows, NameOf, Count, Names;
    if heading.Some? {
      NameIsHeading(heading.value);
    }
    CountIsZero(body);
    CollapseExpands(body);
    var piece := Piece(heading, body);
    assert piece.heading.Some? ==> piece.Rows()[0] == heading.value;
    assert forall k :: 0 <= k < |body| ==> piece.Rows()[|Head(heading)| + k] == body[k];
    assert Untouched(piece.Rows()) <==> Untouched(Head(heading)) && Untouched(body);
  }

  lemma {:induction false} ListingReports(rows: seq<BlockRow>, heading: Option<BlockRow>, body: seq<BlockRow>)
    ensures Reports(Listed(SectionsFrom(rows, heading, body)), PiecesFrom(rows, heading, body))
    decreases |rows|
  {
    hide StartsSection, BuildSectionOf, Shows, LeftOut, IsListed;
    if rows == [] {
      FlushReportsPiece(heading, body, [], []);
      assert Flush(heading, body) + [] == Flush(heading, body);
      assert FlushPiece(heading, body) + [] == FlushPiece(heading, body);
    } else if StartsSection(rows[0]) {
      ListingReports(rows[1..], Some(rows[0]), []);
      FlushReportsPiece(heading, body, SectionsFrom(rows[1..], Some(rows[0]), []),
          PiecesFrom(rows[1..], Some(rows[0]), []));
    } else {
      ListingReports(rows[1..], heading, body + [rows[0]]);
    }
  }

  lemma FlushReportsPiece(heading: Option<BlockRow>, body: seq<BlockRow>, sections: seq<Section>, pieces: seq<Piece>)
    requires Reports(Listed(sections), pieces)
    ensures Reports(Listed(Flush(heading, body) + sections), FlushPiece(heading, body) + pieces)
  {
    hide BuildSectionOf, Shows, LeftOut, IsListed;
    if heading.Some? || body != [] {
      BuiltShows(heading, body);
      var section := BuildSectionOf(heading, body);
      assert ([section] + sections)[1..] == sections;
      assert ([Piece(heading, body)] + pieces)[1..] == pieces;
      assert ([section] + Listed(sections))[1..] == Listed(sections) && [] + Listed(sections) == Listed(sections);
    } else {
      assert [] + sections == sections && [] + pieces == pieces;
    }
  }

  /** There is only one such cut, so the sections and what they leave out are determined by the rows. */
  lemma {:induction false} CutIsUnique(pieces: seq<Piece>, others: seq<Piece>)
    requires AllRows(pieces) == AllRows(others) && AllFit(pieces) && AllFit(others)
    ensures pieces == others
    decreases |pieces|
  {
    hide StartsSection, PieceFits, Piece.Rows;
    if pieces == [] {
      if others != [] {
        PieceIsNotEmpty(others[0]);
      }
    } else {
      PieceIsNotEmpty(pieces[0]);
      assert others != [];
      FirstPieceIsSame(pieces, others);
      assert AllRows(pieces)[|pieces[0].Rows()|..] == AllRows(pieces[1..]);
      assert AllRows(others)[|others[0].Rows()|..] == AllRows(others[1..]);
      CutIsUnique(pieces[1..], others[1..]);
      assert pieces == [pieces[0]] + pieces[1..] && others == [others[0]] + others[1..];
    }
  }

  /** A piece can be read back from its rows. */
  lemma PieceIsNotEmpty(piece: Piece)
    requires PieceFits(piece)
    ensures piece.Rows() != []
    ensures forall k :: 0 < k < |piece.Rows()| ==> !StartsSection(piece.Rows()[k])
    ensures piece.heading == if StartsSection(piece.Rows()[0]) then Some(piece.Rows()[0]) else None
    ensures piece.body == if StartsSection(piece.Rows()[0]) then piece.Rows()[1..] else piece.Rows()
  {
  }

  lemma FirstPieceIsSame(pieces: seq<Piece>, others: seq<Piece>)
    requires pieces != [] && others != [] && AllRows(pieces) == AllRows(others) && AllFit(pieces) && AllFit(others)
    ensures pieces[0] == others[0]
  {
    hide StartsSection, PieceFits, Piece.Rows;
    PieceIsNotEmpty(pieces[0]);
    PieceIsNotEmpty(others[0]);
    NextPieceStarts(pieces);
    NextPieceStarts(others);
    var n, m, rows := |pieces[0].Rows()|, |others[0].Rows()|, AllRows(pieces);
    assert rows[..n] == pieces[0].Rows() && rows[..m] == others[0].Rows();
    assert forall k :: 0 < k < n ==> !StartsSection(rows[k]) by {
      assert forall k :: 0 < k < n ==> rows[k] == pieces[0].Rows()[k];
    }
    assert forall k :: 0 < k < m ==> !StartsSection(rows[k]) by {
      assert forall k :: 0 < k < m ==> rows[k] == others[0].Rows()[k];
    }
    assert n == m;
  }

  /** After the first piece comes a section heading, or nothing. */
  lemma NextPieceStarts(pieces: seq<Piece>)
    requires pieces != [] && AllFit(pieces)
    ensures var n, rows := |pieces[0].Rows()|, AllRows(pieces);
      n <= |rows| && (n < |rows| ==> StartsSection(rows[n]))
  {
    if |pieces| > 1 {
      assert pieces[1..][0] == pieces[1];
      assert AllRows(pieces[1..])[0] == pieces[1].Rows()[0] == pieces[1].heading.value;
    }
  }

  /**
   The listed sections show the row list itself: cut at its section headings, piece by piece and in
   order, each piece that changed with its rows, and only unchanged and unnamed rows are left out.
   */
  lemma SectionsShowTheRows(rows: seq<BlockRow>) returns (pieces: seq<Piece>)
    ensures Cuts(pieces, rows) && Reports(Listed(SectionsFrom(rows, None, [])), pieces)
    ensures forall others :: Cuts(others, rows) ==> others == pieces
  {
    hide StartsSection, BuildSectionOf, Shows, LeftOut, IsListed, PieceFits, Reports;
    pieces := PiecesFrom(rows, None, []);
    PiecesSpellRows(rows, None, []);
    PiecesFit(rows, None, []);
    ListingReports(rows, None, []);
    assert [] + [] + rows == rows;
    forall others | Cuts(others, rows) ensures others == pieces {
      CutIsUnique(others, pieces);
    }
  }

  // ----- the whole comparison

  /** A changed section shows its body, collapsed; an untouched one only counts it. */
  method BuildSection(heading: Option<BlockRow>, body: seq<BlockRow>) returns (section: Section)
    ensures section == BuildSectionOf(heading, body)
    ensures section.changed ==> Expands(section.rows, body)
    ensures !section.changed && section.rows != [] ==> section.rows == [Skipped(|body|)]
  {
    CollapseExpands(body);
    hide Expands, CollapseRows, NameOf, Count;
    var added := CountRows(body, Added);
    var removed := CountRows(body, Removed);
    var changed := (heading.Some? && !heading.value.change.Unchanged?) || added > 0 || removed > 0;
    var rows: seq<ReadingRow> := [];
    if changed {
      rows := Collapse(body);
    } else if body != [] {
      rows := [Skipped(|body|)];
    }
    section := Section(
      if heading.Some? then Some(NameOf(heading.value)) else None,
      if heading.Some? then heading.value.change else Unchanged,
      changed, added, removed, rows);
  }

  method CountRows(rows: seq<BlockRow>, change: Change) returns (count: nat)
    ensures count == Count(rows, change)
  {
    count := 0;
    assert rows[0..] == rows;
    for index := 0 to |rows|
      invariant count + Count(rows[index..], change) == Count(rows, change)
    {
      assert rows[index..][1..] == rows[index + 1..];
      if rows[index].change == change {
        count := count + 1;
      }
    }
  }

  /** The section loop of `readingDiff`. */
  method BuildSections(rows: seq<BlockRow>) returns (sections: seq<Section>)
    ensures sections == SectionsFrom(rows, None, [])
  {
    hide BuildSectionOf, StartsSection, Expands;
    sections := [];
    var heading: Option<BlockRow> := None;
    var body: seq<BlockRow> := [];
    assert rows[0..] == rows;
    for index := 0 to |rows|
      invariant sections + SectionsFrom(rows[index..], heading, body) == SectionsFrom(rows, None, [])
    {
      PeelSection(sections, rows, index, heading, body);
      if StartsSection(rows[index]) {
        if heading.Some? || body != [] {
          var section := BuildSection(heading, body);
          sections := sections + [section];
        } else {
          assert sections + [] == sections;
        }
        heading, body := Some(rows[index]), [];
        continue;
      }
      body := body + [rows[index]];
    }
    if heading.Some? || body != [] {
      var section := BuildSection(heading, body);
      sections := sections + [section];
    }
  }

  lemma PeelSection(done: seq<Section>, rows: seq<BlockRow>, k: nat, heading: Option<BlockRow>, body: seq<BlockRow>)
    requires k < |rows|
    ensures done + SectionsFrom(rows[k..], heading, body) ==
      if StartsSection(rows[k]) then done + Flush(heading, body) + SectionsFrom(rows[k + 1..], Some(rows[k]), [])
      else done + SectionsFrom(rows[k + 1..], heading, body + [rows[k]])
  {
    hide BuildSectionOf, StartsSection;
    assert rows[k..][1..] == rows[k + 1..];
  }

  method FilterListed(sections: seq<Section>) returns (listed: seq<Section>)
    ensures listed == Listed(sections)
  {
    hide IsListed;
    listed := [];
    assert sections[0..] == sections;
    for index := 0 to |sections|
      invariant listed + Listed(sections[index..]) == Listed(sections)
    {
      assert sections[index..][1..] == sections[index + 1..];
      if IsListed(sections[index]) {
        listed := listed + [sections[index]];
      }
    }
    assert listed + [] == listed;
  }

  /** The documents are equal block text by block text, and their table fits. */
  predicate Identical(sourceContent: string, targetContent: string) {
    var a, b := Texts(BlocksOf(sourceContent)), Texts(BlocksOf(targetContent));
    a == b && (|a| + 1) * (|b| + 1) <= 250_000
  }

  /**
   `readingDiff`: documents are reported identical exactly when their block texts agree and the table
   fits; otherwise the sections account for every changed block and every heading.
   */
  method CompareForReading(sourceContent: string, targetContent: string) returns (result: ReadingResult)
    ensures var source, target := BlocksOf(sourceContent), BlocksOf(targetContent);
      var rows := DiffBlocksOf(source, target);
      && (result.identical <==> Identical(sourceContent, targetContent))
      && result.addedBlocks == Count(rows, Added) && result.removedBlocks == Count(rows, Removed)
      && if result.identical then result.sections == []
         else
           && result.sections == Listed(SectionsFrom(rows, None, []))
           && (exists pieces :: Cuts(pieces, rows) && Reports(result.sections, pieces))
           && TotalReported(result.sections, Added) == Count(rows, Added)
           && TotalReported(result.sections, Removed) == Count(rows, Removed)
           && SectionNames(result.sections) == HeadingNames(rows)
  {
    var source := SplitBlocks(sourceContent);
    var target := SplitBlocks(targetContent);
    assert source == BlocksOf(sourceContent) && target == BlocksOf(targetContent);
    hide FitsTable, BlocksOf, MiddleScript, Texts, Count, HeadingNames, SectionNames, TotalReported, Listed, Cuts,
      Reports;
    var rows := DiffBlocks(source, target);
    UnchangedMeansEqual(source, target);
    var added := CountRows(rows, Added);
    var removed := CountRows(rows, Removed);
    if added == 0 && removed == 0 {
      return ReadingResult([], added, removed, true);
    }
    var sections := BuildSections(rows);
    var listed := FilterListed(sections);
    SectionsAccountForEverything(rows);
    ghost var pieces := SectionsShowTheRows(rows);
    return ReadingResult(listed, added, removed, false);
  }
}
