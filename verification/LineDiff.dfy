/**
 The line diff of `src/lib/diff.ts`: `diffRows` trims the shared ends, walks the suffix table over
 the rest, and emits rows that carry exact line numbers.
 */
module LineDiff {
  import opened Wrappers
  import opened Lcs

  datatype RowKind = Added | Removed | Context

  /** `sourceLine` is `None` for an added row and `targetLine` is `None` for a removed one. */
  datatype DiffRow = DiffRow(kind: RowKind, text: string, sourceLine: Option<nat>, targetLine: Option<nat>)

  // ----- what a faithful row list is

  /** The texts of the rows that belong to the source document. */
  function SourceSide(rows: seq<DiffRow>): seq<string> {
    if rows == [] then []
    else (if rows[0].kind.Added? then [] else [rows[0].text]) + SourceSide(rows[1..])
  }

  /** The texts of the rows that belong to the target document. */
  function TargetSide(rows: seq<DiffRow>): seq<string> {
    if rows == [] then []
    else (if rows[0].kind.Removed? then [] else [rows[0].text]) + TargetSide(rows[1..])
  }

  function CountKind(rows: seq<DiffRow>, kind: RowKind): nat {
    if rows == [] then 0
    else (if rows[0].kind == kind then 1 else 0) + CountKind(rows[1..], kind)
  }

  /** Each row's line numbers are its exact 1-based positions in the documents it belongs to. */
  ghost predicate ExactLines(rows: seq<DiffRow>) {
    forall k :: 0 <= k < |rows| ==>
      && rows[k].sourceLine == (if rows[k].kind.Added? then None else Some(|SourceSide(rows[..k])| + 1))
      && rows[k].targetLine == (if rows[k].kind.Removed? then None else Some(|TargetSide(rows[..k])| + 1))
  }

  /** The rows spell both documents, and say where every line stands. */
  ghost predicate Faithful(rows: seq<DiffRow>, source: seq<string>, target: seq<string>) {
    && SourceSide(rows) == source
    && TargetSide(rows) == target
    && ExactLines(rows)
  }

  /** Between an added row and a later removed row there is always an unchanged one. */
  ghost predicate RemovedBeforeAdded(rows: seq<DiffRow>) {
    forall p, q :: 0 <= p < q < |rows| && rows[p].kind.Added? && rows[q].kind.Removed? ==>
      exists k :: p < k < q && rows[k].kind.Context?
  }

  // ----- the rows as a function of the two documents

  /** How many leading elements agree from position `k` on. */
  function PrefixFrom(source: seq<string>, target: seq<string>, k: nat): (p: nat)
    requires k <= |source| && k <= |target|
    ensures k <= p <= |source| && p <= |target|
    ensures forall i :: k <= i < p ==> source[i] == target[i]
    decreases |source| - k
  {
    if k < |source| && k < |target| && source[k] == target[k] then PrefixFrom(source, target, k + 1) else k
  }

  /** How many trailing elements agree from `k` on, leaving the first `p` alone. */
  function SuffixFrom(source: seq<string>, target: seq<string>, p: nat, k: nat): (q: nat)
    requires p + k <= |source| && p + k <= |target|
    ensures k <= q && p + q <= |source| && p + q <= |target|
    decreases |source| - k
  {
    if k < |source| - p && k < |target| - p && source[|source| - 1 - k] == target[|target| - 1 - k]
    then SuffixFrom(source, target, p, k + 1) else k
  }

  function Prefix(source: seq<string>, target: seq<string>): (p: nat)
    ensures p <= |source| && p <= |target|
  {
    PrefixFrom(source, target, 0)
  }

  function Suffix(source: seq<string>, target: seq<string>): (q: nat)
    ensures Prefix(source, target) + q <= |source| && Prefix(source, target) + q <= |target|
  {
    SuffixFrom(source, target, Prefix(source, target), 0)
  }

  /** A document between its shared prefix and suffix. */
  function Middle(doc: seq<string>, p: nat, q: nat): seq<string>
    requires p + q <= |doc|
  {
    doc[p..|doc| - q]
  }

  function DiffScript(source: seq<string>, target: seq<string>): seq<Edit> {
    var p, q := Prefix(source, target), Suffix(source, target);
    var middle := MiddleScript(Middle(source, p, q), Middle(target, p, q));
    Assemble(middle, p, q, |source|, |target|)
  }

  function LineAt(doc: seq<string>, i: nat): string { if i < |doc| then doc[i] else "" }

  function RowOf(e: Edit, source: seq<string>, target: seq<string>): DiffRow {
    match e
    case Keep(i, j) => DiffRow(Context, LineAt(source, i), Some(i + 1), Some(j + 1))
    case Drop(i) => DiffRow(Removed, LineAt(source, i), Some(i + 1), None)
    case Add(j) => DiffRow(Added, LineAt(target, j), None, Some(j + 1))
  }

  function RowsOf(es: seq<Edit>, source: seq<string>, target: seq<string>): (rows: seq<DiffRow>)
    ensures |rows| == |es|
  {
    seq(|es|, k requires 0 <= k < |es| => RowOf(es[k], source, target))
  }

  function DiffRowsOf(source: seq<string>, target: seq<string>): seq<DiffRow> {
    RowsOf(DiffScript(source, target), source, target)
  }

  // ----- the trimmed ends

  /** The `i`th line from the end. */
  function FromEnd(doc: seq<string>, i: nat): string
    requires 1 <= i <= |doc|
  {
    doc[|doc| - i]
  }

  /** The first `p` lines and the last `q` lines are shared, and do not overlap. */
  ghost predicate EndsShared(source: seq<string>, target: seq<string>, p: nat, q: nat) {
    && p + q <= |source| && p + q <= |target|
    && (forall i :: 0 <= i < p ==> source[i] == target[i])
    && (forall i :: 1 <= i <= q ==> FromEnd(source, i) == FromEnd(target, i))
  }

  /** And no more could be trimmed: what is left of one document is empty, or differs at both ends. */
  ghost predicate EndsTrimmed(source: seq<string>, target: seq<string>, p: nat, q: nat) {
    && EndsShared(source, target, p, q)
    && (p + q < |source| && p + q < |target| ==>
          source[p] != target[p] && FromEnd(source, q + 1) != FromEnd(target, q + 1))
  }

  /** The prefix is taken first: it is the longest shared one, and the suffix the longest of what it leaves. */
  ghost predicate PrefixThenSuffix(source: seq<string>, target: seq<string>, p: nat, q: nat) {
    EndsTrimmed(source, target, p, q) && (p < |source| && p < |target| ==> source[p] != target[p])
  }

  lemma {:induction false} PrefixStops(source: seq<string>, target: seq<string>, k: nat)
    requires k <= |source| && k <= |target|
    ensures var p := PrefixFrom(source, target, k); p < |source| && p < |target| ==> source[p] != target[p]
    decreases |source| - k
  {
    if k < |source| && k < |target| && source[k] == target[k] {
      PrefixStops(source, target, k + 1);
    }
  }

  lemma {:induction false} SuffixStops(source: seq<string>, target: seq<string>, p: nat, k: nat)
    requires EndsShared(source, target, p, k)
    ensures var q := SuffixFrom(source, target, p, k);
      && EndsShared(source, target, p, q)
      && (p + q < |source| && p + q < |target| ==> FromEnd(source, q + 1) != FromEnd(target, q + 1))
    decreases |source| - k
  {
    if k < |source| - p && k < |target| - p && source[|source| - 1 - k] == target[|target| - 1 - k] {
      SuffixStops(source, target, p, k + 1);
    }
  }

  /** The two trimming loops take the longest shared prefix, then the longest shared suffix of the rest. */
  lemma TrimTakesLongest(source: seq<string>, target: seq<string>)
    ensures PrefixThenSuffix(source, target, Prefix(source, target), Suffix(source, target))
  {
    PrefixStops(source, target, 0);
    SuffixStops(source, target, Prefix(source, target), 0);
  }

  /** There is only one such trim. */
  lemma TrimIsUnique(source: seq<string>, target: seq<string>, p: nat, q: nat, p': nat, q': nat)
    requires PrefixThenSuffix(source, target, p, q) && PrefixThenSuffix(source, target, p', q')
    ensures p == p' && q == q'
  {
    assert p <= p' && p' <= p;
    if q != q' && p + q < |source| && p + q < |target| {
      TrimIsNoLess(source, target, p, q, p', q');
      TrimIsNoLess(source, target, p', q', p, q);
    }
  }

  /** Where lines are left in both documents, no shared ends are longer than the trimmed ones. */
  lemma TrimIsNoLess(source: seq<string>, target: seq<string>, p: nat, q: nat, p': nat, q': nat)
    requires EndsTrimmed(source, target, p, q) && EndsShared(source, target, p', q')
    requires p + q < |source| && p + q < |target|
    ensures p' <= p && q' <= q
  {
    hide FromEnd;
  }

  // ----- the script is valid, so its rows are faithful

  lemma SharedEnds(source: seq<string>, target: seq<string>)
    ensures var p, q := Prefix(source, target), Suffix(source, target);
      && source[..p] == target[..p]
      && source[|source| - q..] == target[|target| - q..]
  {
    SuffixMatches(source, target, Prefix(source, target), 0);
  }

  lemma {:induction false} SuffixMatches(source: seq<string>, target: seq<string>, p: nat, k: nat)
    requires p + k <= |source| && p + k <= |target| && source[|source| - k..] == target[|target| - k..]
    ensures var q := SuffixFrom(source, target, p, k);
      source[|source| - q..] == target[|target| - q..]
    decreases |source| - k
  {
    if k < |source| - p && k < |target| - p && source[|source| - 1 - k] == target[|target| - 1 - k] {
      assert source[|source| - (k + 1)..] == [source[|source| - 1 - k]] + source[|source| - k..];
      assert target[|target| - (k + 1)..] == [target[|target| - 1 - k]] + target[|target| - k..];
      SuffixMatches(source, target, p, k + 1);
    }
  }

  lemma DiffScriptIsValid(source: seq<string>, target: seq<string>)
    ensures ValidScript(DiffScript(source, target), source, target, 0, 0)
  {
    var p, q := Prefix(source, target), Suffix(source, target);
    var middle := MiddleScript(Middle(source, p, q), Middle(target, p, q));
    SharedEnds(source, target);
    MiddleScriptIsValid(Middle(source, p, q), Middle(target, p, q));
    AssembledIsValid(middle, source, target, p, q);
  }

  lemma {:induction false} ScriptSpellsDocuments(
    es: seq<Edit>, source: seq<string>, target: seq<string>, i: nat, j: nat)
    requires i <= |source| && j <= |target| && ValidScript(es, source, target, i, j)
    ensures SourceSide(RowsOf(es, source, target)) == source[i..]
    ensures TargetSide(RowsOf(es, source, target)) == target[j..]
    decreases |es|
  {
    var rows := RowsOf(es, source, target);
    if es != [] {
      assert rows[1..] == RowsOf(es[1..], source, target);
      match es[0]
      case Keep(_, _) => ScriptSpellsDocuments(es[1..], source, target, i + 1, j + 1);
      case Drop(_) => ScriptSpellsDocuments(es[1..], source, target, i + 1, j);
      case Add(_) => ScriptSpellsDocuments(es[1..], source, target, i, j + 1);
    }
  }

  lemma {:induction false} ScriptLinesAreExact(
    es: seq<Edit>, source: seq<string>, target: seq<string>, i: nat, j: nat, k: nat)
    requires i <= |source| && j <= |target| && ValidScript(es, source, target, i, j)
    requires k < |es|
    ensures var rows := RowsOf(es, source, target);
      && rows[k].sourceLine
         == (if rows[k].kind.Added? then None else Some(i + |SourceSide(rows[..k])| + 1))
      && rows[k].targetLine
         == (if rows[k].kind.Removed? then None else Some(j + |TargetSide(rows[..k])| + 1))
    decreases k
  {
    hide LineAt;
    var rows := RowsOf(es, source, target);
    if k > 0 {
      var rest := RowsOf(es[1..], source, target);
      assert rows[..k][1..] == rest[..k - 1] && rows[k] == rest[k - 1];
      match es[0]
      case Keep(_, _) => ScriptLinesAreExact(es[1..], source, target, i + 1, j + 1, k - 1);
      case Drop(_) => ScriptLinesAreExact(es[1..], source, target, i + 1, j, k - 1);
      case Add(_) => ScriptLinesAreExact(es[1..], source, target, i, j + 1, k - 1);
    }
  }

  /** On the table path and past the cell cap alike, the rows are a faithful edit script. */
  lemma RowsAreFaithful(source: seq<string>, target: seq<string>)
    ensures Faithful(DiffRowsOf(source, target), source, target)
  {
    var es, rows := DiffScript(source, target), DiffRowsOf(source, target);
    DiffScriptIsValid(source, target);
    ScriptSpellsDocuments(es, source, target, 0, 0);
    assert source[0..] == source && target[0..] == target;
    forall k | 0 <= k < |rows|
      ensures rows[k].sourceLine == (if rows[k].kind.Added? then None else Some(|SourceSide(rows[..k])| + 1))
      ensures rows[k].targetLine == (if rows[k].kind.Removed? then None else Some(|TargetSide(rows[..k])| + 1))
    {
      ScriptLinesAreExact(es, source, target, 0, 0, k);
    }
  }

  // ----- minimality

  lemma {:induction false} CountsMatchScript(es: seq<Edit>, source: seq<string>, target: seq<string>)
    ensures var rows := RowsOf(es, source, target);
      && CountKind(rows, Context) == Keeps(es)
      && CountKind(rows, Added) + CountKind(rows, Removed) == Changes(es)
  {
    if es != [] {
      CountsMatchScript(es[1..], source, target);
      assert RowsOf(es, source, target)[1..] == RowsOf(es[1..], source, target);
    }
  }

  /**
   Minimal diff.  Trim the documents' shared ends in any way that leaves nothing more to trim.  The unchanged
   rows number exactly the longest common subsequence of the full, untrimmed documents if and only if the
   table over what is left has at most 250,000 cells or the stretches share no line; and exactly then no
   other script adds and removes fewer lines.
   */
  lemma DiffIsMinimal(source: seq<string>, target: seq<string>, p: nat, q: nat)
    requires EndsTrimmed(source, target, p, q)
    ensures var rows := DiffRowsOf(source, target);
      var a, b := source[p..|source| - q], target[p..|target| - q];
      && (IsLcsLength(source, target, CountKind(rows, Context)) <==>
            (|a| + 1) * (|b| + 1) <= 250_000 || NothingShared(a, b))
      && (IsLcsLength(source, target, CountKind(rows, Context)) <==>
            forall other :: ValidScript(other, source, target, 0, 0) ==>
              CountKind(rows, Added) + CountKind(rows, Removed) <= Changes(other))
  {
    hide Prefix, Suffix, FromEnd, ValidScript, FitsTable, NothingShared, IsLcsLength, DiffScript, CountKind, Changes;
    TrimTakesLongest(source, target);
    LongestIsTrimmed(source, target);
    var p', q' := Prefix(source, target), Suffix(source, target);
    TrimmedDiffIsMinimal(source, target);
    SameMiddles(source, target, p, q, p', q');
    CapIs(source[p..|source| - q], target[p..|target| - q]);
  }

  lemma LongestIsTrimmed(source: seq<string>, target: seq<string>)
    ensures EndsTrimmed(source, target, Prefix(source, target), Suffix(source, target))
  {
    TrimTakesLongest(source, target);
  }

  /** Whichever trim is taken, the cap and what is shared are judged alike. */
  lemma SameMiddles(source: seq<string>, target: seq<string>, p: nat, q: nat, p': nat, q': nat)
    requires EndsTrimmed(source, target, p, q) && EndsTrimmed(source, target, p', q')
    ensures var a, b := source[p..|source| - q], target[p..|target| - q];
      var a', b' := Middle(source, p', q'), Middle(target, p', q');
      && (FitsTable(a, b) <==> FitsTable(a', b'))
      && (NothingShared(a, b) <==> NothingShared(a', b'))
  {
    if p + q < |source| && p + q < |target| {
      TrimIsNoLess(source, target, p, q, p', q');
    }
    if p' + q' < |source| && p' + q' < |target| {
      TrimIsNoLess(source, target, p', q', p, q);
    }
  }

  lemma TrimmedDiffIsMinimal(source: seq<string>, target: seq<string>)
    ensures var rows := DiffRowsOf(source, target);
      var p, q := Prefix(source, target), Suffix(source, target);
      var a, b := Middle(source, p, q), Middle(target, p, q);
      && (IsLcsLength(source, target, CountKind(rows, Context)) <==>
            FitsTable(a, b) || NothingShared(a, b))
      && (IsLcsLength(source, target, CountKind(rows, Context)) <==>
            forall other :: ValidScript(other, source, target, 0, 0) ==>
              CountKind(rows, Added) + CountKind(rows, Removed) <= Changes(other))
  {
    hide FitsTable, NothingShared;
    var es := DiffScript(source, target);
    var p, q := Prefix(source, target), Suffix(source, target);
    var a, b := Middle(source, p, q), Middle(target, p, q);
    DiffScriptIsValid(source, target);
    AssembledKeeps(MiddleScript(a, b), p, q, |source|, |target|);
    CountsMatchScript(es, source, target);
    MiddleIsLongest(a, b);
    SharedEnds(source, target);
    TrimIsExact(source, target, p, q, Keeps(MiddleScript(a, b)));
    KeptAreCommon(es, source, target);
    if NoneLonger(source, target, Keeps(es)) {
      forall other | ValidScript(other, source, target, 0, 0)
        ensures Changes(es) <= Changes(other)
      {
        LongestMeansFewestChanges(es, other, source, target);
      }
    } else {
      WalkIsLongest(source, target);
      WalkIsValid(source, target, 0, 0);
      ScriptCost(es, source, target, 0, 0);
      ScriptCost(Walk(source, target, 0, 0), source, target, 0, 0);
    }
  }

  // ----- removals first

  lemma DiffScriptRemovesFirst(source: seq<string>, target: seq<string>)
    ensures RemovalsFirst(DiffScript(source, target))
  {
    var p, q := Prefix(source, target), Suffix(source, target);
    var a, b := Middle(source, p, q), Middle(target, p, q);
    MiddleRemovesFirst(a, b);
    AssembledRemovesFirst(MiddleScript(a, b), p, q, |source|, |target|);
  }

  lemma {:induction false} NoRemovalAfterAddition(rows: seq<DiffRow>, p: nat, q: nat)
    requires forall k :: 0 <= k < |rows| - 1 && rows[k].kind.Added? ==> !rows[k + 1].kind.Removed?
    requires p < q < |rows| && rows[p].kind.Added? && rows[q].kind.Removed?
    ensures exists k :: p < k < q && rows[k].kind.Context?
    decreases q - p
  {
    if rows[p + 1].kind.Added? {
      NoRemovalAfterAddition(rows, p + 1, q);
    }
  }

  /** In every maximal run of changed rows the removed ones come first. */
  lemma RowsRemoveFirst(source: seq<string>, target: seq<string>)
    ensures RemovedBeforeAdded(DiffRowsOf(source, target))
  {
    var es, rows := DiffScript(source, target), DiffRowsOf(source, target);
    DiffScriptRemovesFirst(source, target);
    forall p, q | 0 <= p < q < |rows| && rows[p].kind.Added? && rows[q].kind.Removed?
      ensures exists k :: p < k < q && rows[k].kind.Context?
    {
      assert forall k :: 0 <= k < |rows| ==> rows[k] == RowOf(es[k], source, target);
      NoRemovalAfterAddition(rows, p, q);
    }
  }

  // ----- unchanged documents

  lemma {:induction false} NoChangesMeansEqual(rows: seq<DiffRow>)
    requires CountKind(rows, Added) == 0 && CountKind(rows, Removed) == 0
    ensures SourceSide(rows) == TargetSide(rows)
  {
    if rows != [] {
      NoChangesMeansEqual(rows[1..]);
    }
  }

  lemma {:induction false} PrefixOfEqual(doc: seq<string>, k: nat)
    requires k <= |doc|
    ensures PrefixFrom(doc, doc, k) == |doc|
    decreases |doc| - k
  {
    if k < |doc| {
      PrefixOfEqual(doc, k + 1);
    }
  }

  /** Nothing is reported added or removed exactly when the documents are equal line for line. */
  lemma UnchangedMeansEqual(source: seq<string>, target: seq<string>)
    ensures var rows := DiffRowsOf(source, target);
      CountKind(rows, Added) + CountKind(rows, Removed) == 0 <==> source == target
  {
    var es, rows := DiffScript(source, target), DiffRowsOf(source, target);
    if CountKind(rows, Added) + CountKind(rows, Removed) == 0 {
      RowsAreFaithful(source, target);
      NoChangesMeansEqual(rows);
    }
    if source == target {
      var p, q := Prefix(source, target), Suffix(source, target);
      PrefixOfEqual(source, 0);
      DiffScriptIsValid(source, target);
      AssembledKeeps(MiddleScript(Middle(source, p, q), Middle(target, p, q)), p, q, |source|, |target|);
      ScriptCost(es, source, target, 0, 0);
      CountsMatchScript(es, source, target);
    }
  }

  // ----- the loops

  method DiffRows(source: seq<string>, target: seq<string>) returns (rows: seq<DiffRow>)
    ensures rows == DiffRowsOf(source, target)
  {
    hide RowOf, FitsTable, SuffixLength, Walk, Prefix, Suffix, Shift, KeepRun, Assemble, RowsOf, RowsAhead, DropsSource;
    var prefix, suffix := TrimEnds(source, target);
    var a := Middle(source, prefix, suffix);
    var b := Middle(target, prefix, suffix);
    AssembledRows(MiddleScript(a, b), prefix, suffix, source, target);
    rows := ContextRows([], source, target, 0, 0, prefix);
    if !FitsTable(a, b) {
      rows := ReplaceRows(rows, a, b, source, target, prefix);
    } else {
      rows := WalkRows(rows, a, b, prefix);
      RowsAheadAreWalkRows(a, b, 0, 0, source, target, prefix);
    }
    rows := ContextRows(rows, source, target, |source| - suffix, |target| - suffix, suffix);
    AssembledRows(MiddleScript(a, b), prefix, suffix, source, target);
  }

  lemma AssembledRows(middle: seq<Edit>, p: nat, q: nat, source: seq<string>, target: seq<string>)
    requires q <= |source| && q <= |target|
    ensures RowsOf(Assemble(middle, p, q, |source|, |target|), source, target)
         == [] + RowsOf(KeepRun(0, 0, p), source, target) + RowsOf(Shift(middle, p), source, target)
            + RowsOf(KeepRun(|source| - q, |target| - q, q), source, target)
  {
  }

  /** The two trimming loops. */
  method TrimEnds(source: seq<string>, target: seq<string>) returns (prefix: nat, suffix: nat)
    ensures prefix == Prefix(source, target) && suffix == Suffix(source, target)
    ensures PrefixThenSuffix(source, target, prefix, suffix)
  {
    TrimTakesLongest(source, target);
    prefix := 0;
    while prefix < |source| && prefix < |target| && source[prefix] == target[prefix]
      invariant prefix <= |source| && prefix <= |target|
      invariant PrefixFrom(source, target, prefix) == Prefix(source, target)
    {
      prefix := prefix + 1;
    }
    suffix := 0;
    while suffix < |source| - prefix && suffix < |target| - prefix
        && source[|source| - 1 - suffix] == target[|target| - 1 - suffix]
      invariant prefix + suffix <= |source| && prefix + suffix <= |target|
      invariant SuffixFrom(source, target, prefix, suffix) == Suffix(source, target)
    {
      suffix := suffix + 1;
    }
  }

  /** The loops over the shared prefix and suffix: `n` lines in step, from lines `i` and `j` on. */
  method ContextRows(before: seq<DiffRow>, source: seq<string>, target: seq<string>, i: nat, j: nat, n: nat)
    returns (rows: seq<DiffRow>)
    requires i + n <= |source|
    ensures rows == before + RowsOf(KeepRun(i, j, n), source, target)
  {
    rows := before;
    var sourceLine, targetLine := i + 1, j + 1;
    for index := 0 to n
      invariant sourceLine == i + index + 1 && targetLine == j + index + 1
      invariant rows == before + RowsOf(KeepRun(i, j, index), source, target)
    {
      rows := rows + [DiffRow(Context, source[i + index], Some(sourceLine), Some(targetLine))];
      sourceLine, targetLine := sourceLine + 1, targetLine + 1;
    }
  }

  /** Past the cell cap: every middle line removed, then every middle line added. */
  method ReplaceRows(before: seq<DiffRow>, a: seq<string>, b: seq<string>,
                     source: seq<string>, target: seq<string>, prefix: nat)
    returns (rows: seq<DiffRow>)
    requires prefix + |a| <= |source| && a == source[prefix..prefix + |a|]
    requires prefix + |b| <= |target| && b == target[prefix..prefix + |b|]
    ensures rows == before + RowsOf(Shift(ReplaceAll(|a|, |b|), prefix), source, target)
  {
    ghost var all := RowsOf(Shift(ReplaceAll(|a|, |b|), prefix), source, target);
    rows := before;
    var sourceLine, targetLine := prefix + 1, prefix + 1;
    for i := 0 to |a|
      invariant sourceLine == prefix + i + 1
      invariant rows == before + all[..i]
    {
      rows := rows + [DiffRow(Removed, a[i], Some(sourceLine), None)];
      sourceLine := sourceLine + 1;
    }
    for j := 0 to |b|
      invariant targetLine == prefix + j + 1
      invariant rows == before + all[..|a| + j]
    {
      rows := rows + [DiffRow(Added, b[j], None, Some(targetLine))];
      targetLine := targetLine + 1;
    }
  }

  /** The rows the walk has still to emit from `(i, j)`, where both middles start after line `p`. */
  function RowsAhead(a: seq<string>, b: seq<string>, i: nat, j: nat, p: nat): seq<DiffRow>
    requires i <= |a| && j <= |b|
    decreases |a| - i + |b| - j
  {
    if i == |a| && j == |b| then []
    else if i < |a| && j < |b| && a[i] == b[j] then
      [DiffRow(Context, a[i], Some(p + i + 1), Some(p + j + 1))] + RowsAhead(a, b, i + 1, j + 1, p)
    else if DropsSource(a, b, i, j) then
      [DiffRow(Removed, a[i], Some(p + i + 1), None)] + RowsAhead(a, b, i + 1, j, p)
    else
      [DiffRow(Added, b[j], None, Some(p + j + 1))] + RowsAhead(a, b, i, j + 1, p)
  }

  lemma PeelRow(e: Edit, rest: seq<Edit>, p: nat, source: seq<string>, target: seq<string>)
    ensures RowsOf(Shift([e] + rest, p), source, target)
         == [RowOf(ShiftEdit(e, p), source, target)] + RowsOf(Shift(rest, p), source, target)
  {
  }

  lemma {:induction false} RowsAheadAreWalkRows(
    a: seq<string>, b: seq<string>, i: nat, j: nat, source: seq<string>, target: seq<string>, p: nat)
    requires i <= |a| && j <= |b|
    requires p + |a| <= |source| && a == source[p..p + |a|]
    requires p + |b| <= |target| && b == target[p..p + |b|]
    ensures RowsAhead(a, b, i, j, p) == RowsOf(Shift(Walk(a, b, i, j), p), source, target)
    decreases |a| - i + |b| - j
  {
    if i == |a| && j == |b| {
    } else {
      var e := Walk(a, b, i, j)[0];
      var i', j' := if e.Add? then i else i + 1, if e.Drop? then j else j + 1;
      RowsAheadAreWalkRows(a, b, i', j', source, target, p);
      PeelRow(e, Walk(a, b, i', j'), p, source, target);
    }
  }

  /** The row the walk emits at `(i, j)`, put behind the rows before it. */
  lemma NextRow(done: seq<DiffRow>, a: seq<string>, b: seq<string>, i: nat, j: nat, p: nat)
    requires i <= |a| && j <= |b| && !(i == |a| && j == |b|)
    ensures done + RowsAhead(a, b, i, j, p) ==
      if i < |a| && j < |b| && a[i] == b[j] then
        done + [DiffRow(Context, a[i], Some(p + i + 1), Some(p + j + 1))] + RowsAhead(a, b, i + 1, j + 1, p)
      else if DropsSource(a, b, i, j) then
        done + [DiffRow(Removed, a[i], Some(p + i + 1), None)] + RowsAhead(a, b, i + 1, j, p)
      else
        done + [DiffRow(Added, b[j], None, Some(p + j + 1))] + RowsAhead(a, b, i, j + 1, p)
  {
    hide SuffixLength;
  }

  /** Within the cap: the greedy walk over the table of suffix lengths. */
  method WalkRows(before: seq<DiffRow>, a: seq<string>, b: seq<string>, prefix: nat) returns (rows: seq<DiffRow>)
    requires FitsTable(a, b)
    ensures rows == before + RowsAhead(a, b, 0, 0, prefix)
  {
    hide FitsTable, SuffixLength, RowsAhead, DropsSource, Filled;
    FewRows(a, b);
    NoRowsAhead(a, b, prefix);
    var table := LcsLengths(a, b);
    rows := before;
    var sourceLine, targetLine := prefix + 1, prefix + 1;
    var i, j := 0, 0;
    while i < |a| || j < |b|
      invariant i <= |a| && j <= |b|
      invariant sourceLine == prefix + i + 1 && targetLine == prefix + j + 1
      invariant rows + RowsAhead(a, b, i, j, prefix) == before + RowsAhead(a, b, 0, 0, prefix)
      invariant Filled(table[..], a, b, 0, 0)
      decreases |a| - i + |b| - j
    {
      NextRow(rows, a, b, i, j, prefix);
      if i < |a| && j < |b| && a[i] == b[j] {
        rows := rows + [DiffRow(Context, a[i], Some(sourceLine), Some(targetLine))];
        sourceLine, targetLine := sourceLine + 1, targetLine + 1;
        i, j := i + 1, j + 1;
        continue;
      }
      var dropSource := PrefersDrop(table, a, b, i, j);
      if dropSource {
        rows := rows + [DiffRow(Removed, a[i], Some(sourceLine), None)];
        sourceLine := sourceLine + 1;
        i := i + 1;
      } else {
        rows := rows + [DiffRow(Added, b[j], None, Some(targetLine))];
        targetLine := targetLine + 1;
        j := j + 1;
      }
    }
    assert rows + [] == rows;
  }

  lemma NoRowsAhead(a: seq<string>, b: seq<string>, p: nat)
    ensures RowsAhead(a, b, |a|, |b|, p) == []
  {
  }
}
