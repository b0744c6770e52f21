/**
 Longest common subsequences and the edit scripts a suffix table yields.

 `src/lib/diff.ts` and `src/lib/readingDiff.ts` each fill the same flat table of suffix lengths
 and walk it with the same tie rule, once over lines and once over the texts of blocks.  The table,
 the walk and what the walk guarantees are stated here once, for any element type.
 */
module Lcs {

  // ----- common subsequences, by explicit position lists

  /** `s` read off `t` at the strictly increasing positions `at`. */
  ghost predicate Embeds<T>(s: seq<T>, t: seq<T>, at: seq<nat>) {
    && |at| == |s|
    && (forall k :: 0 <= k < |at| ==> at[k] < |t| && t[at[k]] == s[k])
    && (forall k, l :: 0 <= k < l < |at| ==> at[k] < at[l])
  }

  ghost predicate CommonSubsequence<T(!new)>(s: seq<T>, a: seq<T>, b: seq<T>) {
    exists f: seq<nat>, g: seq<nat> :: Embeds(s, a, f) && Embeds(s, b, g)
  }

  /** No common subsequence of `a` and `b` is longer than `n`. */
  ghost predicate NoneLonger<T(!new)>(a: seq<T>, b: seq<T>, n: nat) {
    forall s :: CommonSubsequence(s, a, b) ==> |s| <= n
  }

  /** `n` is the length of a longest common subsequence: attained, and an upper bound. */
  ghost predicate IsLcsLength<T(!new)>(a: seq<T>, b: seq<T>, n: nat) {
    && NoneLonger(a, b, n)
    && exists s :: CommonSubsequence(s, a, b) && |s| == n
  }

  // ----- the suffix table

  /** The value the table holds at row `i`, column `j`. */
  function SuffixLength<T(==)>(a: seq<T>, b: seq<T>, i: nat, j: nat): nat
    requires i <= |a| && j <= |b|
    decreases |a| - i + |b| - j
  {
    if i == |a| || j == |b| then 0
    else if a[i] == b[j] then SuffixLength(a, b, i + 1, j + 1) + 1
    else
      var down, right := SuffixLength(a, b, i + 1, j), SuffixLength(a, b, i, j + 1);
      if down >= right then down else right
  }

  lemma {:induction false} SuffixLengthBounded<T(!new)>(a: seq<T>, b: seq<T>, i: nat, j: nat)
    requires i <= |a| && j <= |b|
    ensures SuffixLength(a, b, i, j) <= |a| - i
    decreases |a| - i + |b| - j
  {
    if i < |a| && j < |b| {
      if a[i] == b[j] {
        SuffixLengthBounded(a, b, i + 1, j + 1);
      } else {
        SuffixLengthBounded(a, b, i + 1, j);
        SuffixLengthBounded(a, b, i, j + 1);
      }
    }
  }

  /** Anything embedded at or beyond `(i, j)` is no longer than the table entry there. */
  lemma {:induction false} SuffixLengthDominates<T(!new)>(
    a: seq<T>, b: seq<T>, i: nat, j: nat, s: seq<T>, f: seq<nat>, g: seq<nat>)
    requires i <= |a| && j <= |b|
    requires Embeds(s, a, f) && Embeds(s, b, g)
    requires s != [] ==> i <= f[0] && j <= g[0]
    ensures |s| <= SuffixLength(a, b, i, j)
    decreases |a| - i + |b| - j
  {
    if s != [] {
      assert f[0] < |a| && g[0] < |b|;
      if a[i] == b[j] {
        assert |s| > 1 ==> f[0] < f[1] && g[0] < g[1];
        SuffixLengthDominates(a, b, i + 1, j + 1, s[1..], f[1..], g[1..]);
      } else if f[0] > i {
        SuffixLengthDominates(a, b, i + 1, j, s, f, g);
      } else {
        assert g[0] > j;
        SuffixLengthDominates(a, b, i, j + 1, s, f, g);
      }
    }
  }

  lemma SuffixLengthIsUpperBound<T(!new)>(a: seq<T>, b: seq<T>)
    ensures NoneLonger(a, b, SuffixLength(a, b, 0, 0))
  {
    forall s | CommonSubsequence(s, a, b) ensures |s| <= SuffixLength(a, b, 0, 0) {
      var f: seq<nat>, g: seq<nat> :| Embeds(s, a, f) && Embeds(s, b, g);
      SuffixLengthDominates(a, b, 0, 0, s, f, g);
    }
  }

  // ----- trimming a shared prefix and suffix

  /** The `k`-th chosen position leaves room for `k` before it and for the rest after it. */
  lemma {:induction false} EmbedRoom<T(!new)>(s: seq<T>, t: seq<T>, at: seq<nat>, k: nat)
    requires Embeds(s, t, at) && k < |s|
    ensures k <= at[k] <= |t| - (|s| - k)
  {
    EmbedRoomBefore(s, t, at, k);
    EmbedRoomAfter(s, t, at, k);
  }

  lemma {:induction false} EmbedRoomBefore<T(!new)>(s: seq<T>, t: seq<T>, at: seq<nat>, k: nat)
    requires Embeds(s, t, at) && k < |s|
    ensures k <= at[k]
  {
    if k > 0 {
      EmbedRoomBefore(s, t, at, k - 1);
    }
  }

  lemma {:induction false} EmbedRoomAfter<T(!new)>(s: seq<T>, t: seq<T>, at: seq<nat>, k: nat)
    requires Embeds(s, t, at) && k < |s|
    ensures at[k] <= |t| - (|s| - k)
    decreases |s| - k
  {
    if k + 1 < |s| {
      EmbedRoomAfter(s, t, at, k + 1);
    }
  }

  /** Cutting `p` elements before and `q` after costs a subsequence at most `p + q` elements. */
  lemma EmbedTrim<T(!new)>(s: seq<T>, t: seq<T>, at: seq<nat>, p: nat, q: nat)
    requires Embeds(s, t, at) && p + q <= |s| && p + q <= |t|
    ensures Embeds(s[p..|s| - q], t[p..|t| - q],
        seq(|s| - q - p, k requires 0 <= k < |s| - q - p => if at[p + k] >= p then at[p + k] - p else 0))
  {
    var cut := seq(|s| - q - p, k requires 0 <= k < |s| - q - p => if at[p + k] >= p then at[p + k] - p else 0);
    forall k | 0 <= k < |cut|
      ensures at[p + k] >= p && cut[k] < |t| - q - p && t[p..|t| - q][cut[k]] == s[p..|s| - q][k]
    {
      EmbedRoom(s, t, at, p + k);
    }
  }

  /** The converse: what embeds in the middle embeds in the whole with both ends put back. */
  lemma EmbedUntrim<T>(s: seq<T>, t: seq<T>, at: seq<nat>, p: nat, q: nat) returns (f: seq<nat>)
    requires p + q <= |t| && Embeds(s, t[p..|t| - q], at)
    ensures Embeds(t[..p] + s + t[|t| - q..], t, f)
  {
    f := seq(p, k requires 0 <= k < p => k)
      + seq(|at|, k requires 0 <= k < |at| => at[k] + p)
      + seq(q, k requires 0 <= k < q => |t| - q + k);
  }

  lemma TrimUpperBound<T(!new)>(a: seq<T>, b: seq<T>, p: nat, q: nat, n: nat)
    requires p + q <= |a| && p + q <= |b|
    requires NoneLonger(a[p..|a| - q], b[p..|b| - q], n)
    ensures NoneLonger(a, b, n + p + q)
  {
    forall s | CommonSubsequence(s, a, b) ensures |s| <= n + p + q {
      var f: seq<nat>, g: seq<nat> :| Embeds(s, a, f) && Embeds(s, b, g);
      if p + q <= |s| {
        EmbedTrim(s, a, f, p, q);
        EmbedTrim(s, b, g, p, q);
        assert CommonSubsequence(s[p..|s| - q], a[p..|a| - q], b[p..|b| - q]);
      }
    }
  }

  // ----- edit scripts

  /** One output row by the positions it takes: from both documents, the source, or the target. */
  datatype Edit = Keep(i: nat, j: nat) | Drop(i: nat) | Add(j: nat)

  /** The script consumes `a` from `i` and `b` from `j`, position by position, to both ends. */
  ghost predicate ValidScript<T>(es: seq<Edit>, a: seq<T>, b: seq<T>, i: nat, j: nat)
    requires i <= |a| && j <= |b|
    decreases |es|
  {
    if es == [] then i == |a| && j == |b|
    else
      match es[0]
      case Keep(i', j') =>
        i' == i < |a| && j' == j < |b| && a[i] == b[j] && ValidScript(es[1..], a, b, i + 1, j + 1)
      case Drop(i') => i' == i < |a| && ValidScript(es[1..], a, b, i + 1, j)
      case Add(j') => j' == j < |b| && ValidScript(es[1..], a, b, i, j + 1)
  }

  function Keeps(es: seq<Edit>): nat {
    if es == [] then 0 else (if es[0].Keep? then 1 else 0) + Keeps(es[1..])
  }

  function Changes(es: seq<Edit>): nat {
    if es == [] then 0 else (if es[0].Keep? then 0 else 1) + Changes(es[1..])
  }

  /** The kept elements, where the script kept them: a common subsequence with its positions. */
  lemma {:induction false} KeptEmbeds<T(!new)>(es: seq<Edit>, a: seq<T>, b: seq<T>, i: nat, j: nat)
    returns (s: seq<T>, f: seq<nat>, g: seq<nat>)
    requires i <= |a| && j <= |b| && ValidScript(es, a, b, i, j)
    ensures |s| == Keeps(es) && Embeds(s, a, f) && Embeds(s, b, g)
    ensures s != [] ==> i <= f[0] && j <= g[0]
    decreases |es|
  {
    if es == [] {
      return [], [], [];
    }
    match es[0]
    case Keep(_, _) =>
      s, f, g := KeptEmbeds(es[1..], a, b, i + 1, j + 1);
      assert forall k :: 0 <= k < |f| ==> f[0] <= f[k] && g[0] <= g[k];
      s, f, g := [a[i]] + s, [i] + f, [j] + g;
    case Drop(_) => s, f, g := KeptEmbeds(es[1..], a, b, i + 1, j);
    case Add(_) => s, f, g := KeptEmbeds(es[1..], a, b, i, j + 1);
  }

  lemma KeptAreCommon<T(!new)>(es: seq<Edit>, a: seq<T>, b: seq<T>)
    requires ValidScript(es, a, b, 0, 0)
    ensures exists s :: CommonSubsequence(s, a, b) && |s| == Keeps(es)
  {
    var s, f, g := KeptEmbeds(es, a, b, 0, 0);
    assert CommonSubsequence(s, a, b);
  }

  lemma {:induction false} ScriptCost<T(!new)>(es: seq<Edit>, a: seq<T>, b: seq<T>, i: nat, j: nat)
    requires i <= |a| && j <= |b| && ValidScript(es, a, b, i, j)
    ensures Changes(es) + 2 * Keeps(es) == |a| - i + |b| - j
    decreases |es|
  {
    if es != [] {
      match es[0]
      case Keep(_, _) => ScriptCost(es[1..], a, b, i + 1, j + 1);
      case Drop(_) => ScriptCost(es[1..], a, b, i + 1, j);
      case Add(_) => ScriptCost(es[1..], a, b, i, j + 1);
    }
  }

  /** A script that keeps a longest common subsequence makes the fewest changes of any script. */
  lemma LongestMeansFewestChanges<T(!new)>(es: seq<Edit>, other: seq<Edit>, a: seq<T>, b: seq<T>)
    requires ValidScript(es, a, b, 0, 0) && ValidScript(other, a, b, 0, 0)
    requires NoneLonger(a, b, Keeps(es))
    ensures Changes(es) <= Changes(other)
  {
    KeptAreCommon(other, a, b);
    ScriptCost(es, a, b, 0, 0);
    ScriptCost(other, a, b, 0, 0);
  }

  // ----- composing scripts

  /** `n` rows kept in step, starting at `(i, j)`. */
  function KeepRun(i: nat, j: nat, n: nat): seq<Edit> {
    seq(n, k requires 0 <= k < n => Keep(i + k, j + k))
  }

  function ShiftEdit(e: Edit, p: nat): Edit {
    match e
    case Keep(i, j) => Keep(i + p, j + p)
    case Drop(i) => Drop(i + p)
    case Add(j) => Add(j + p)
  }

  /** A script over documents whose first `p` elements were cut, renumbered for the full ones. */
  function Shift(es: seq<Edit>, p: nat): seq<Edit> {
    seq(|es|, k requires 0 <= k < |es| => ShiftEdit(es[k], p))
  }

  lemma {:induction false} KeepRunIsValid<T(!new)>(
    i: nat, j: nat, n: nat, rest: seq<Edit>, a: seq<T>, b: seq<T>)
    requires i + n <= |a| && j + n <= |b| && a[i..i + n] == b[j..j + n]
    requires ValidScript(rest, a, b, i + n, j + n)
    ensures ValidScript(KeepRun(i, j, n) + rest, a, b, i, j)
    decreases n
  {
    if n == 0 {
      assert KeepRun(i, j, n) + rest == rest;
    } else {
      assert a[i] == a[i..i + n][0] == b[j..j + n][0] == b[j];
      assert a[i + 1..i + n] == a[i..i + n][1..] == b[j..j + n][1..] == b[j + 1..j + n];
      KeepRunIsValid(i + 1, j + 1, n - 1, rest, a, b);
      assert (KeepRun(i, j, n) + rest)[1..] == KeepRun(i + 1, j + 1, n - 1) + rest;
    }
  }

  lemma {:induction false} ShiftIsValid<T(!new)>(
    es: seq<Edit>, p: nat, q: nat, rest: seq<Edit>, a: seq<T>, b: seq<T>, i: nat, j: nat)
    requires p + q <= |a| && p + q <= |b|
    requires p + i + q <= |a| && p + j + q <= |b|
    requires ValidScript(es, a[p..|a| - q], b[p..|b| - q], i, j)
    requires ValidScript(rest, a, b, |a| - q, |b| - q)
    ensures ValidScript(Shift(es, p) + rest, a, b, p + i, p + j)
    decreases |es|
  {
    if es == [] {
      assert Shift(es, p) + rest == rest;
    } else {
      assert (Shift(es, p) + rest)[1..] == Shift(es[1..], p) + rest;
      match es[0]
      case Keep(_, _) => ShiftIsValid(es[1..], p, q, rest, a, b, i + 1, j + 1);
      case Drop(_) => ShiftIsValid(es[1..], p, q, rest, a, b, i + 1, j);
      case Add(_) => ShiftIsValid(es[1..], p, q, rest, a, b, i, j + 1);
    }
  }

  /** A script for the middles, put back between the shared ends of documents of lengths `n`, `m`. */
  function Assemble(middle: seq<Edit>, p: nat, q: nat, n: nat, m: nat): seq<Edit>
    requires q <= n && q <= m
  {
    KeepRun(0, 0, p) + (Shift(middle, p) + KeepRun(n - q, m - q, q))
  }

  lemma TailIsValid<T(!new)>(a: seq<T>, b: seq<T>, q: nat)
    requires q <= |a| && q <= |b| && a[|a| - q..] == b[|b| - q..]
    ensures ValidScript(KeepRun(|a| - q, |b| - q, q), a, b, |a| - q, |b| - q)
  {
    assert a[|a| - q..|a| - q + q] == a[|a| - q..] == b[|b| - q..] == b[|b| - q..|b| - q + q];
    KeepRunIsValid(|a| - q, |b| - q, q, [], a, b);
    assert KeepRun(|a| - q, |b| - q, q) + [] == KeepRun(|a| - q, |b| - q, q);
  }

  lemma AssembledIsValid<T(!new)>(middle: seq<Edit>, a: seq<T>, b: seq<T>, p: nat, q: nat)
    requires p + q <= |a| && p + q <= |b|
    requires a[..p] == b[..p] && a[|a| - q..] == b[|b| - q..]
    requires ValidScript(middle, a[p..|a| - q], b[p..|b| - q], 0, 0)
    ensures ValidScript(Assemble(middle, p, q, |a|, |b|), a, b, 0, 0)
  {
    var tail := KeepRun(|a| - q, |b| - q, q);
    TailIsValid(a, b, q);
    ShiftIsValid(middle, p, q, tail, a, b, 0, 0);
    assert a[0..0 + p] == a[..p] == b[..p] == b[0..0 + p];
    KeepRunIsValid(0, 0, p, Shift(middle, p) + tail, a, b);
  }

  lemma AssembledKeeps(middle: seq<Edit>, p: nat, q: nat, n: nat, m: nat)
    requires q <= n && q <= m
    ensures Keeps(Assemble(middle, p, q, n, m)) == p + Keeps(middle) + q
  {
    var tail := KeepRun(n - q, m - q, q);
    KeepsConcat(KeepRun(0, 0, p), Shift(middle, p) + tail);
    KeepsConcat(Shift(middle, p), tail);
    KeepsOfRun(0, 0, p);
    KeepsOfRun(n - q, m - q, q);
    KeepsOfShift(middle, p);
  }

  lemma AssembledRemovesFirst(middle: seq<Edit>, p: nat, q: nat, n: nat, m: nat)
    requires q <= n && q <= m && RemovalsFirst(middle)
    ensures RemovalsFirst(Assemble(middle, p, q, n, m))
  {
    var es := Assemble(middle, p, q, n, m);
    forall k | 0 <= k < |es| - 1 && es[k].Add? ensures !es[k + 1].Drop? {
      assert p <= k < p + |middle| && es[k] == ShiftEdit(middle[k - p], p);
      assert k + 1 < p + |middle| ==> es[k + 1] == ShiftEdit(middle[k + 1 - p], p);
    }
  }

  /** Trimming shared ends changes the length of a longest common subsequence by exactly their size. */
  lemma TrimIsExact<T(!new)>(a: seq<T>, b: seq<T>, p: nat, q: nat, n: nat)
    requires p + q <= |a| && p + q <= |b|
    requires a[..p] == b[..p] && a[|a| - q..] == b[|b| - q..]
    ensures NoneLonger(a, b, n + p + q) <==> NoneLonger(a[p..|a| - q], b[p..|b| - q], n)
  {
    if NoneLonger(a[p..|a| - q], b[p..|b| - q], n) {
      TrimUpperBound(a, b, p, q, n);
    }
    if NoneLonger(a, b, n + p + q) {
      forall s | CommonSubsequence(s, a[p..|a| - q], b[p..|b| - q]) ensures |s| <= n {
        var f: seq<nat>, g: seq<nat> :| Embeds(s, a[p..|a| - q], f) && Embeds(s, b[p..|b| - q], g);
        var f' := EmbedUntrim(s, a, f, p, q);
        var g' := EmbedUntrim(s, b, g, p, q);
        assert CommonSubsequence(a[..p] + s + a[|a| - q..], a, b);
      }
    }
  }

  lemma {:induction false} KeepsConcat(x: seq<Edit>, y: seq<Edit>)
    ensures Keeps(x + y) == Keeps(x) + Keeps(y)
  {
    if x == [] {
      assert x + y == y;
    } else {
      KeepsConcat(x[1..], y);
      assert (x + y)[1..] == x[1..] + y;
    }
  }

  lemma {:induction false} KeepsOfRun(i: nat, j: nat, n: nat)
    ensures Keeps(KeepRun(i, j, n)) == n
    decreases n
  {
    if n > 0 {
      KeepsOfRun(i + 1, j + 1, n - 1);
      assert KeepRun(i, j, n)[1..] == KeepRun(i + 1, j + 1, n - 1);
    }
  }

  lemma {:induction false} KeepsOfShift(es: seq<Edit>, p: nat)
    ensures Keeps(Shift(es, p)) == Keeps(es)
  {
    if es != [] {
      KeepsOfShift(es[1..], p);
      assert Shift(es, p)[1..] == Shift(es[1..], p);
    }
  }

  // ----- the greedy walk

  /** The walk over the table: match when possible, else drop unless adding keeps strictly more. */
  function Walk<T(==)>(a: seq<T>, b: seq<T>, i: nat, j: nat): seq<Edit>
    requires i <= |a| && j <= |b|
    decreases |a| - i + |b| - j
  {
    if i == |a| && j == |b| then []
    else if i < |a| && j < |b| && a[i] == b[j] then [Keep(i, j)] + Walk(a, b, i + 1, j + 1)
    else if DropsSource(a, b, i, j) then [Drop(i)] + Walk(a, b, i + 1, j)
    else [Add(j)] + Walk(a, b, i, j + 1)
  }

  /** The tie rule: a removal wins whenever it costs no more shared elements than an addition. */
  predicate DropsSource<T(==)>(a: seq<T>, b: seq<T>, i: nat, j: nat)
    requires i <= |a| && j <= |b| && !(i == |a| && j == |b|)
  {
    j == |b| || (i < |a| && SuffixLength(a, b, i + 1, j) >= SuffixLength(a, b, i, j + 1))
  }

  lemma {:induction false} WalkIsValid<T(!new)>(a: seq<T>, b: seq<T>, i: nat, j: nat)
    requires i <= |a| && j <= |b|
    ensures ValidScript(Walk(a, b, i, j), a, b, i, j)
    decreases |a| - i + |b| - j
  {
    if i == |a| && j == |b| {
    } else if i < |a| && j < |b| && a[i] == b[j] {
      WalkIsValid(a, b, i + 1, j + 1);
    } else if DropsSource(a, b, i, j) {
      WalkIsValid(a, b, i + 1, j);
    } else {
      WalkIsValid(a, b, i, j + 1);
    }
  }

  /** The walk keeps exactly as many elements as the table promises. */
  lemma {:induction false} WalkKeepsTableLength<T(!new)>(a: seq<T>, b: seq<T>, i: nat, j: nat)
    requires i <= |a| && j <= |b|
    ensures Keeps(Walk(a, b, i, j)) == SuffixLength(a, b, i, j)
    decreases |a| - i + |b| - j
  {
    if i == |a| && j == |b| {
    } else if i < |a| && j < |b| && a[i] == b[j] {
      WalkKeepsTableLength(a, b, i + 1, j + 1);
    } else if DropsSource(a, b, i, j) {
      WalkKeepsTableLength(a, b, i + 1, j);
    } else {
      WalkKeepsTableLength(a, b, i, j + 1);
    }
  }

  /** The walk keeps a longest common subsequence of the two documents it walks. */
  lemma WalkIsLongest<T(!new)>(a: seq<T>, b: seq<T>)
    ensures IsLcsLength(a, b, Keeps(Walk(a, b, 0, 0)))
  {
    SuffixLengthIsUpperBound(a, b);
    WalkKeepsTableLength(a, b, 0, 0);
    WalkIsValid(a, b, 0, 0);
    KeptAreCommon(Walk(a, b, 0, 0), a, b);
  }

  // ----- removals come first

  /** No addition is directly followed by a removal. */
  ghost predicate RemovalsFirst(es: seq<Edit>) {
    forall k :: 0 <= k < |es| - 1 && es[k].Add? ==> !es[k + 1].Drop?
  }

  /** Once the walk adds while source elements remain, it adds until it meets a match. */
  lemma AddingContinues<T(!new)>(a: seq<T>, b: seq<T>, i: nat, j: nat)
    requires i <= |a| && j < |b|
    requires !(i < |a| && a[i] == b[j]) && !DropsSource(a, b, i, j)
    requires !(i == |a| && j + 1 == |b|) && !(i < |a| && j + 1 < |b| && a[i] == b[j + 1])
    ensures !DropsSource(a, b, i, j + 1)
  {
    if i < |a| {
      if j + 1 < |b| {
        SuffixLengthShrinks(a, b, i + 1, j);
      }
    }
  }

  /** Dropping a target element never lengthens what the rest can share. */
  lemma {:induction false} SuffixLengthShrinks<T(!new)>(a: seq<T>, b: seq<T>, i: nat, j: nat)
    requires i <= |a| && j < |b|
    ensures SuffixLength(a, b, i, j + 1) <= SuffixLength(a, b, i, j)
    decreases |a| - i + |b| - j
  {
    if i < |a| && a[i] == b[j] {
      SuffixLengthLoses(a, b, i, j + 1);
    }
  }

  /** Skipping one source element costs at most one shared element. */
  lemma {:induction false} SuffixLengthLoses<T(!new)>(a: seq<T>, b: seq<T>, i: nat, j: nat)
    requires i < |a| && j <= |b|
    ensures SuffixLength(a, b, i, j) <= SuffixLength(a, b, i + 1, j) + 1
    decreases |a| - i + |b| - j
  {
    if j < |b| {
      if a[i] == b[j] {
        SuffixLengthShrinks(a, b, i + 1, j);
      } else {
        SuffixLengthLoses(a, b, i, j + 1);
        SuffixLengthShrinks(a, b, i + 1, j);
      }
    }
  }

  lemma {:induction false} WalkRemovesFirst<T(!new)>(a: seq<T>, b: seq<T>, i: nat, j: nat)
    requires i <= |a| && j <= |b|
    ensures RemovalsFirst(Walk(a, b, i, j))
    decreases |a| - i + |b| - j
  {
    if i == |a| && j == |b| {
    } else if i < |a| && j < |b| && a[i] == b[j] {
      WalkRemovesFirst(a, b, i + 1, j + 1);
    } else if DropsSource(a, b, i, j) {
      WalkRemovesFirst(a, b, i + 1, j);
    } else {
      WalkRemovesFirst(a, b, i, j + 1);
      if !(i == |a| && j + 1 == |b|) && !(i < |a| && j + 1 < |b| && a[i] == b[j + 1]) {
        AddingContinues(a, b, i, j);
      }
    }
  }

  // ----- the wholesale replacement used past the cell cap

  function ReplaceAll(n: nat, m: nat): (es: seq<Edit>)
    ensures |es| == n + m
    ensures forall k :: 0 <= k < n ==> es[k] == Drop(k)
    ensures forall k :: n <= k < n + m ==> es[k] == Add(k - n)
  {
    seq(n, k requires 0 <= k < n => Drop(k)) + seq(m, k requires 0 <= k < m => Add(k))
  }

  lemma {:induction false} ReplaceAllFrom<T(!new)>(es: seq<Edit>, a: seq<T>, b: seq<T>, k: nat)
    requires es == ReplaceAll(|a|, |b|) && k <= |es|
    ensures if k <= |a| then ValidScript(es[k..], a, b, k, 0) else ValidScript(es[k..], a, b, |a|, k - |a|)
    ensures Keeps(es[k..]) == 0
    decreases |es| - k
  {
    if k < |es| {
      ReplaceAllFrom(es, a, b, k + 1);
      assert es[k..][1..] == es[k + 1..];
    }
  }

  // ----- the script both diffs use for the stretches that differ

  /** Cells the quadratic table may use; past it a wholesale replacement is reported instead. */
  const MAX_LCS_CELLS: nat := 250_000

  predicate FitsTable<T>(a: seq<T>, b: seq<T>) {
    (|a| + 1) * (|b| + 1) <= MAX_LCS_CELLS
  }

  function MiddleScript<T(==)>(a: seq<T>, b: seq<T>): seq<Edit> {
    if FitsTable(a, b) then Walk(a, b, 0, 0) else ReplaceAll(|a|, |b|)
  }

  lemma MiddleScriptIsValid<T(!new)>(a: seq<T>, b: seq<T>)
    ensures ValidScript(MiddleScript(a, b), a, b, 0, 0)
  {
    hide FitsTable;
    if FitsTable(a, b) {
      WalkIsValid(a, b, 0, 0);
    } else {
      var es := ReplaceAll(|a|, |b|);
      ReplaceAllFrom(es, a, b, 0);
      assert es[0..] == es;
    }
  }

  lemma MiddleRemovesFirst<T(!new)>(a: seq<T>, b: seq<T>)
    ensures RemovalsFirst(MiddleScript(a, b))
  {
    hide FitsTable;
    if FitsTable(a, b) {
      WalkRemovesFirst(a, b, 0, 0);
    }
  }

  /** The two stretches have no element in common. */
  ghost predicate NothingShared<T(!new)>(a: seq<T>, b: seq<T>) {
    forall i, j :: 0 <= i < |a| && 0 <= j < |b| ==> a[i] != b[j]
  }

  lemma SharesAnElement<T(!new)>(s: seq<T>, a: seq<T>, b: seq<T>)
    requires CommonSubsequence(s, a, b) && s != []
    ensures !NothingShared(a, b)
  {
    var f: seq<nat>, g: seq<nat> :| Embeds(s, a, f) && Embeds(s, b, g);
    assert a[f[0]] == s[0] == b[g[0]];
  }

  lemma CapIs<T>(a: seq<T>, b: seq<T>)
    ensures FitsTable(a, b) <==> (|a| + 1) * (|b| + 1) <= 250_000
  {
  }

  /** The script keeps a longest common subsequence exactly when it may use the table or nothing is shared. */
  lemma MiddleIsLongest<T(!new)>(a: seq<T>, b: seq<T>)
    ensures NoneLonger(a, b, Keeps(MiddleScript(a, b))) <==> FitsTable(a, b) || NothingShared(a, b)
  {
    hide FitsTable;
    if FitsTable(a, b) {
      WalkIsLongest(a, b);
    } else {
      var es := ReplaceAll(|a|, |b|);
      ReplaceAllFrom(es, a, b, 0);
      assert es[0..] == es;
      if NothingShared(a, b) {
        forall s | CommonSubsequence(s, a, b) ensures |s| == 0 {
          if s != [] {
            SharesAnElement(s, a, b);
          }
        }
      } else {
        var i, j :| 0 <= i < |a| && 0 <= j < |b| && a[i] == b[j];
        assert Embeds([a[i]], a, [i]) && Embeds([a[i]], b, [j]);
        assert CommonSubsequence([a[i]], a, b);
      }
    }
  }

  lemma FewRows<T>(a: seq<T>, b: seq<T>)
    requires FitsTable(a, b)
    ensures |a| < 0x1_0000_0000
  {
    assert (|a| + 1) * 1 <= (|a| + 1) * (|b| + 1);
  }

  // ----- the table as an array, filled in place

  /** What a 32-bit unsigned slot keeps of a value. */
  function ToUint32(x: nat): nat { x % 0x1_0000_0000 }

  /** Position of row `i`, column `j` in the flat table over `columns + 1` columns. */
  function Cell(i: nat, j: nat, columns: nat): nat { i * (columns + 1) + j }

  lemma CellsApart(i: nat, j: nat, k: nat, l: nat, rows: nat, columns: nat)
    requires i <= rows && k <= rows && j <= columns && l <= columns
    ensures Cell(i, j, columns) < (rows + 1) * (columns + 1)
    ensures Cell(i, j, columns) == Cell(k, l, columns) ==> i == k && j == l
  {
    var width := columns + 1;
    assert (i + 1) * width <= (rows + 1) * width;
    if i < k {
      assert (i + 1) * width <= k * width;
    } else if k < i {
      assert (k + 1) * width <= i * width;
    }
  }

  /** The flat table with row `i` filled from column `j` rightwards and every row below complete. */
  ghost predicate Filled<T>(cells: seq<nat>, a: seq<T>, b: seq<T>, i: int, j: nat) {
    && |cells| == (|a| + 1) * (|b| + 1)
    && forall k: nat, l: nat :: k <= |a| && l <= |b| && (k > i || (k == i && l >= j) || l == |b|) ==>
         CellHolds(cells, a, b, k, l)
  }

  ghost predicate CellHolds<T>(cells: seq<nat>, a: seq<T>, b: seq<T>, k: nat, l: nat)
    requires k <= |a| && l <= |b|
  {
    Cell(k, l, |b|) < |cells| && cells[Cell(k, l, |b|)] == SuffixLength(a, b, k, l)
  }

  lemma FillCell<T(!new)>(cells: seq<nat>, a: seq<T>, b: seq<T>, i: nat, j: nat)
    requires i < |a| && j < |b| && Filled(cells, a, b, i, j + 1)
    ensures Cell(i, j, |b|) < |cells|
    ensures Filled(cells[Cell(i, j, |b|) := SuffixLength(a, b, i, j)], a, b, i, j)
  {
    CellsApart(i, j, i, j, |a|, |b|);
    var cells' := cells[Cell(i, j, |b|) := SuffixLength(a, b, i, j)];
    forall k: nat, l: nat | k <= |a| && l <= |b| && (k > i || (k == i && l >= j) || l == |b|)
      ensures CellHolds(cells', a, b, k, l)
    {
      CellsApart(i, j, k, l, |a|, |b|);
      assert (k, l) != (i, j) ==> CellHolds(cells, a, b, k, l);
    }
  }

  lemma BlankTable<T(!new)>(cells: seq<nat>, a: seq<T>, b: seq<T>)
    requires |cells| == (|a| + 1) * (|b| + 1) && forall c :: 0 <= c < |cells| ==> cells[c] == 0
    ensures Filled(cells, a, b, |a| - 1, |b|)
  {
    forall k: nat, l: nat | k <= |a| && l <= |b| && (k == |a| || l == |b|)
      ensures CellHolds(cells, a, b, k, l)
    {
      CellsApart(k, l, k, l, |a|, |b|);
    }
  }

  /**
   The flat table, filled from its last cell back.  Slots are 32-bit: nothing is lost, because no
   entry exceeds the number of rows and an array has fewer than 2^32 of them.
   */
  method LcsLengths<T(==, !new)>(a: seq<T>, b: seq<T>) returns (table: array<nat>)
    requires |a| < 0x1_0000_0000
    ensures fresh(table) && Filled(table[..], a, b, 0, 0)
  {
    var columns := |b|;
    table := new nat[(|a| + 1) * (columns + 1)](_ => 0);
    BlankTable(table[..], a, b);
    var i := |a| - 1;
    while i >= 0
      invariant -1 <= i < |a|
      invariant Filled(table[..], a, b, i, columns)
    {
      var j := columns - 1;
      while j >= 0
        invariant -1 <= j < columns
        invariant Filled(table[..], a, b, i, j + 1)
      {
        var value := NextEntry(table, a, b, i, j);
        FillCell(table[..], a, b, i, j);
        SuffixLengthBounded(a, b, i, j);
        ghost var before := table[..];
        table[Cell(i, j, columns)] := ToUint32(value);
        assert table[..] == before[Cell(i, j, columns) := SuffixLength(a, b, i, j)];
        j := j - 1;
      }
      i := i - 1;
    }
  }

  /** The right-hand side of the table assignment, read from the three neighbouring cells. */
  function NextEntry<T(==, !new)>(table: array<nat>, a: seq<T>, b: seq<T>, i: nat, j: nat): (value: nat)
    requires i < |a| && j < |b| && Filled(table[..], a, b, i, j + 1)
    reads table
    ensures value == SuffixLength(a, b, i, j)
  {
    assert CellHolds(table[..], a, b, i + 1, j + 1);
    if a[i] == b[j] then table[Cell(i + 1, j + 1, |b|)] + 1
    else
      assert CellHolds(table[..], a, b, i + 1, j) && CellHolds(table[..], a, b, i, j + 1);
      var down, right := table[Cell(i + 1, j, |b|)], table[Cell(i, j + 1, |b|)];
      if down >= right then down else right
  }

  /** The tie rule as the walks read it off the table. */
  function PrefersDrop<T(==, !new)>(table: array<nat>, a: seq<T>, b: seq<T>, i: nat, j: nat): (drop: bool)
    requires i <= |a| && j <= |b| && !(i == |a| && j == |b|)
    requires Filled(table[..], a, b, 0, 0)
    reads table
    ensures drop == DropsSource(a, b, i, j)
  {
    if j == |b| then true
    else if i == |a| then false
    else
      assert CellHolds(table[..], a, b, i + 1, j) && CellHolds(table[..], a, b, i, j + 1);
      table[Cell(i + 1, j, |b|)] >= table[Cell(i, j + 1, |b|)]
  }
}
