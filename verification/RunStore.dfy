/**
 The run store with its table (`InMemoryRunStore` and `SQLiteRunStore` in `backend/run_store.py`):
 retention, expiry and what a restart makes of the stored runs.
 */
module RunStore {
  import opened Wrappers
  import opened RunTypes

  type RunId = nat

  /** What retention looks at; `interrupted` is the `RUN_INTERRUPTED` error a restart leaves behind. */
  datatype StoredRun = StoredRun(status: Status, updatedAt: nat, interrupted: bool)

  datatype CreateError = AlreadyExists | AtCapacity | PersistFailed

  // ----- eviction order

  /** Earlier update first; the run id breaks ties. */
  predicate Older(runs: map<RunId, StoredRun>, x: RunId, y: RunId)
    requires x in runs && y in runs
  {
    runs[x].updatedAt < runs[y].updatedAt || (runs[x].updatedAt == runs[y].updatedAt && x < y)
  }

  ghost predicate OldestFirst(runs: map<RunId, StoredRun>, ids: seq<RunId>) {
    && (forall id :: id in ids ==> id in runs)
    && forall i, j :: 0 <= i < j < |ids| ==> Older(runs, ids[i], ids[j])
  }

  function TerminalIds(runs: map<RunId, StoredRun>): set<RunId> {
    set id | id in runs && Terminal(runs[id].status)
  }

  function Ids(ids: seq<RunId>): set<RunId> { set id | id in ids }

  /**
   `evicted` are the oldest terminal runs, `needed` of them or all there are: never an active run, and
   nothing newer than a terminal run that stays.
   */
  ghost predicate EvictsOldest(runs: map<RunId, StoredRun>, evicted: seq<RunId>, needed: nat) {
    && OldestFirst(runs, evicted)
    && Ids(evicted) <= TerminalIds(runs)
    && |evicted| == (if needed <= |TerminalIds(runs)| then needed else |TerminalIds(runs)|)
    && forall e, k :: e in evicted && k in TerminalIds(runs) && k !in evicted ==> Older(runs, e, k)
  }

  /** Sorting the terminal runs, one insertion at a time. */
  method SortTerminal(runs: map<RunId, StoredRun>) returns (ids: seq<RunId>)
    ensures OldestFirst(runs, ids) && Ids(ids) == TerminalIds(runs)
  {
    ids := [];
    var rest := TerminalIds(runs);
    while rest != {}
      invariant rest <= TerminalIds(runs)
      invariant OldestFirst(runs, ids) && Ids(ids) == TerminalIds(runs) - rest
      decreases rest
    {
      var id :| id in rest;
      ids := InsertByAge(runs, ids, id);
      rest := rest - {id};
    }
  }

  method InsertByAge(runs: map<RunId, StoredRun>, ids: seq<RunId>, id: RunId) returns (out: seq<RunId>)
    requires OldestFirst(runs, ids) && id in runs && id !in ids
    ensures OldestFirst(runs, out) && Ids(out) == Ids(ids) + {id}
  {
    var k := 0;
    while k < |ids| && Older(runs, ids[k], id)
      invariant 0 <= k <= |ids|
      invariant k > 0 ==> Older(runs, ids[k - 1], id)
    {
      k := k + 1;
    }
    out := ids[..k] + [id] + ids[k..];
    InsertedInOrder(runs, ids, id, k);
    InsertedIds(ids, id, k);
  }

  lemma InsertedInOrder(runs: map<RunId, StoredRun>, ids: seq<RunId>, id: RunId, k: nat)
    requires OldestFirst(runs, ids) && id in runs && id !in ids && k <= |ids|
    requires (k > 0 ==> Older(runs, ids[k - 1], id)) && (k < |ids| ==> !Older(runs, ids[k], id))
    ensures OldestFirst(runs, ids[..k] + [id] + ids[k..])
  {
    hide Older;
    var out := ids[..k] + [id] + ids[k..];
    forall i, j | 0 <= i < j < |out| ensures out[i] in runs && out[j] in runs && Older(runs, out[i], out[j]) {
      var x := if i < k then i else i - 1;
      var y := if j < k then j else j - 1;
      if j == k {
        OlderIsAnOrder(runs, ids[i], ids[k - 1], id);
      } else if i == k {
        OlderIsAnOrder(runs, id, ids[k], ids[y]);
      } else {
        assert out[i] == ids[x] && out[j] == ids[y];
      }
    }
  }

  lemma OlderIsAnOrder(runs: map<RunId, StoredRun>, x: RunId, y: RunId, z: RunId)
    requires x in runs && y in runs && z in runs
    ensures (x == y || Older(runs, x, y)) && Older(runs, y, z) ==> Older(runs, x, z)
    ensures !Older(runs, y, x) && x != y && (y == z || Older(runs, y, z)) ==> Older(runs, x, z)
  {
  }

  lemma InsertedIds(ids: seq<RunId>, id: RunId, k: nat)
    requires k <= |ids|
    ensures Ids(ids[..k] + [id] + ids[k..]) == Ids(ids) + {id}
  {
    assert ids == ids[..k] + ids[k..];
  }

  lemma {:induction false} DistinctCount(runs: map<RunId, StoredRun>, ids: seq<RunId>)
    requires OldestFirst(runs, ids)
    ensures |Ids(ids)| == |ids|
  {
    if ids != [] {
      var front, last := ids[..|ids| - 1], ids[|ids| - 1];
      DistinctCount(runs, front);
      assert last !in front by {
        assert forall i :: 0 <= i < |front| ==> Older(runs, ids[i], last);
      }
      assert Ids(ids) == Ids(front) + {last};
    }
  }

  /** `_evictable_run_ids`. */
  method EvictableRunIds(runs: map<RunId, StoredRun>, needed: nat) returns (evicted: seq<RunId>)
    ensures EvictsOldest(runs, evicted, needed)
  {
    var terminal := SortTerminal(runs);
    DistinctCount(runs, terminal);
    evicted := if needed <= |terminal| then terminal[..needed] else terminal;
    forall e, k | e in evicted && k in TerminalIds(runs) && k !in evicted ensures Older(runs, e, k) {
      assert k in Ids(terminal);
      var j :| 0 <= j < |terminal| && terminal[j] == k;
      var i :| 0 <= i < |evicted| && evicted[i] == e;
      assert j >= |evicted|;
    }
  }

  lemma RemovedCount(runs: map<RunId, StoredRun>, ids: set<RunId>)
    requires ids <= runs.Keys
    ensures |runs - ids| == |runs| - |ids|
  {
    assert (runs - ids).Keys == runs.Keys - ids;
    assert |runs.Keys| == |runs| && |(runs - ids).Keys| == |runs - ids|;
  }

  /** After evicting for an overflow there is room, or only active runs are left. */
  lemma EvictionMakesRoom(runs: map<RunId, StoredRun>, evicted: seq<RunId>, needed: nat)
    requires EvictsOldest(runs, evicted, needed)
    ensures |runs - Ids(evicted)| <= |runs| - needed || TerminalIds(runs - Ids(evicted)) == {}
    ensures |runs - Ids(evicted)| == |runs| - |evicted|
    ensures forall id :: id in runs && !Terminal(runs[id].status) ==> id in runs - Ids(evicted)
  {
    DistinctCount(runs, evicted);
    RemovedCount(runs, Ids(evicted));
    if needed > |TerminalIds(runs)| {
      SubsetOfSameSize(Ids(evicted), TerminalIds(runs));
    }
  }

  lemma SubsetOfSameSize<T>(x: set<T>, y: set<T>)
    requires x <= y
    ensures |x| <= |y| && (|x| == |y| ==> x == y)
  {
    assert |y - x| == |y| - |x|;
  }

  // ----- restart

  /** The rows as the load reads them: each once, the last updated first, ties in any order. */
  ghost predicate IsListing(rows: map<RunId, StoredRun>, order: seq<RunId>) {
    && (forall id :: id in order <==> id in rows)
    && (forall p, q :: 0 <= p < q < |order| ==> order[p] != order[q])
    && (forall p, q :: 0 <= p < q < |order| ==> rows[order[p]].updatedAt >= rows[order[q]].updatedAt)
  }

  /** The clock has one reading per row, taken when the load comes to it. */
  ghost predicate IsRead(rows: map<RunId, StoredRun>, order: seq<RunId>, clock: seq<nat>) {
    IsListing(rows, order) && |clock| == |order|
  }

  /** A run found unfinished in the table was interrupted, and is stamped when it is found. */
  function Settle(run: StoredRun, now: nat): StoredRun {
    if Terminal(run.status) then run else StoredRun(Failed, now, true)
  }

  /** The first `n` rows, settled. */
  function SettleFirst(
    rows: map<RunId, StoredRun>, order: seq<RunId>, clock: seq<nat>, n: nat): (runs: map<RunId, StoredRun>)
    requires n <= |order| == |clock| && forall p :: 0 <= p < |order| ==> order[p] in rows
    ensures forall id :: id in runs <==> id in order[..n]
  {
    if n == 0 then map[]
    else SettleFirst(rows, order, clock, n - 1)[order[n - 1] := Settle(rows[order[n - 1]], clock[n - 1])]
  }

  ghost function SettleAll(rows: map<RunId, StoredRun>, order: seq<RunId>, clock: seq<nat>): map<RunId, StoredRun>
    requires IsRead(rows, order, clock)
  {
    assert forall p :: 0 <= p < |order| ==> order[p] in rows;
    SettleFirst(rows, order, clock, |order|)
  }

  lemma {:induction false} SettledFirst(rows: map<RunId, StoredRun>, order: seq<RunId>, clock: seq<nat>, n: nat, p: nat)
    requires p < n <= |order| == |clock| && forall q :: 0 <= q < |order| ==> order[q] in rows
    requires forall q :: p < q < |order| ==> order[p] != order[q]
    ensures order[p] in SettleFirst(rows, order, clock, n)
    ensures SettleFirst(rows, order, clock, n)[order[p]] == Settle(rows[order[p]], clock[p])
    decreases n
  {
    hide Settle;
    assert order[p] == order[..n][p];
    if p < n - 1 {
      SettledFirst(rows, order, clock, n - 1, p);
      assert order[n - 1] != order[p];
    }
  }

  /** What the load makes of the row it reads at `p`. */
  lemma SettledAt(rows: map<RunId, StoredRun>, order: seq<RunId>, clock: seq<nat>, p: nat)
    requires IsRead(rows, order, clock) && p < |order|
    ensures var settled := SettleAll(rows, order, clock);
      && order[p] in rows && order[p] in settled && settled[order[p]] == Settle(rows[order[p]], clock[p])
  {
    hide Settle, SettleFirst;
    assert forall q :: 0 <= q < |order| ==> order[q] in rows;
    SettledFirst(rows, order, clock, |order|, p);
  }

  lemma SettledKeys(rows: map<RunId, StoredRun>, order: seq<RunId>, clock: seq<nat>)
    requires IsRead(rows, order, clock)
    ensures SettleAll(rows, order, clock).Keys == rows.Keys
  {
    assert order[..|order|] == order;
  }

  /** The runs a restart keeps: all settled, and no more than `maxRuns` with the newest stamps. */
  ghost predicate IsLoad(
    rows: map<RunId, StoredRun>, order: seq<RunId>, clock: seq<nat>, maxRuns: nat, runs: map<RunId, StoredRun>)
    requires IsRead(rows, order, clock)
  {
    var settled := SettleAll(rows, order, clock);
    && runs.Keys <= settled.Keys
    && (forall id :: id in runs ==> runs[id] == settled[id])
    && |runs| == (if |rows| <= maxRuns then |rows| else maxRuns)
    && forall e, k :: e in settled && e !in runs && k in runs ==> Older(settled, e, k)
  }

  lemma SettledIsTerminal(rows: map<RunId, StoredRun>, order: seq<RunId>, clock: seq<nat>)
    requires IsRead(rows, order, clock)
    ensures var settled := SettleAll(rows, order, clock);
      forall id :: id in settled ==> Terminal(settled[id].status)
  {
    hide SettleAll;
    SettledKeys(rows, order, clock);
    var settled := SettleAll(rows, order, clock);
    forall id | id in settled ensures Terminal(settled[id].status) {
      assert id in order;
      var p :| 0 <= p < |order| && order[p] == id;
      SettledAt(rows, order, clock, p);
    }
  }

  /** Loading makes every run terminal and leaves at most `maxRuns`. */
  lemma LoadMakesTerminal(
    rows: map<RunId, StoredRun>, order: seq<RunId>, clock: seq<nat>, maxRuns: nat, runs: map<RunId, StoredRun>)
    requires IsRead(rows, order, clock) && IsLoad(rows, order, clock, maxRuns, runs)
    ensures forall id :: id in runs ==> Terminal(runs[id].status)
    ensures |runs| <= maxRuns
  {
    hide SettleAll, Terminal;
    SettledIsTerminal(rows, order, clock);
  }

  /** A second load, at any later time and however it reads the rows, changes nothing. */
  lemma SecondLoadIsIdle(
    rows: map<RunId, StoredRun>, order: seq<RunId>, clock: seq<nat>, maxRuns: nat, runs: map<RunId, StoredRun>,
    later: seq<RunId>, laterClock: seq<nat>, again: map<RunId, StoredRun>)
    requires IsRead(rows, order, clock) && IsLoad(rows, order, clock, maxRuns, runs)
    requires IsRead(runs, later, laterClock) && IsLoad(runs, later, laterClock, maxRuns, again)
    ensures again == runs
  {
    hide SettleAll;
    LoadMakesTerminal(rows, order, clock, maxRuns, runs);
    SettledKeys(runs, later, laterClock);
    var settled := SettleAll(runs, later, laterClock);
    forall id | id in runs ensures settled[id] == runs[id] {
      assert id in later;
      var p :| 0 <= p < |later| && later[p] == id;
      SettledAt(runs, later, laterClock, p);
    }
    assert |again.Keys| == |again| && |runs.Keys| == |runs|;
    SubsetOfSameSize(again.Keys, runs.Keys);
  }

  class RunStore {
    const maxRuns: nat
    var runs: map<RunId, StoredRun>
    var locks: set<RunId>
    /** The `runs` table. */
    var table: map<RunId, StoredRun>

    /** The map, the locks and the table always hold the same run ids. */
    ghost predicate Valid()
      reads this
    {
      runs.Keys == locks && table.Keys == locks
    }

    /**
     Opening the store over a table: `_load_snapshots`, then `_enforce_retention_on_load`.  `order` is the
     query's result and `clock` what the clock reads at each row.
     */
    constructor (maxRuns: nat, rows: map<RunId, StoredRun>, order: seq<RunId>, clock: seq<nat>)
      requires IsRead(rows, order, clock)
      ensures Valid() && this.maxRuns == maxRuns
      ensures IsLoad(rows, order, clock, maxRuns, runs) && table == runs
    {
      this.maxRuns := maxRuns;
      runs, locks, table := map[], {}, rows;
      new;
      var interrupted := LoadSnapshots(rows, order, clock);
      Persist(interrupted);
      SettledTable(rows, order, clock, interrupted, table);
      KeepEverything(rows, order, clock);
      var evicted := EnforceRetention();
      RetainedIsLoad(rows, order, clock, maxRuns, evicted);
    }

    /** Retention on load: the oldest terminal runs go when the table holds too many. */
    method EnforceRetention() returns (evicted: seq<RunId>)
      requires Valid() && TerminalIds(runs) == runs.Keys
      modifies this`runs, this`locks, this`table
      ensures Valid() && runs == old(runs) - Ids(evicted) && table == old(table) - Ids(evicted)
      ensures if |old(runs)| <= maxRuns then evicted == [] else EvictsOldest(old(runs), evicted, |old(runs)| - maxRuns)
    {
      var overflow := |runs| - maxRuns;
      if overflow <= 0 {
        evicted := [];
        assert Ids(evicted) == {};
        return;
      }
      evicted := EvictableRunIds(runs, overflow);
      Drop(evicted);
    }

    static lemma RetainedIsLoad(
      rows: map<RunId, StoredRun>, order: seq<RunId>, clock: seq<nat>, maxRuns: nat, evicted: seq<RunId>)
      requires IsRead(rows, order, clock) && |SettleAll(rows, order, clock)| == |rows|
      requires var settled := SettleAll(rows, order, clock);
        && TerminalIds(settled) == settled.Keys
        && if |settled| <= maxRuns then evicted == [] else EvictsOldest(settled, evicted, |settled| - maxRuns)
      ensures IsLoad(rows, order, clock, maxRuns, SettleAll(rows, order, clock) - Ids(evicted))
    {
      hide IsListing, SettleAll;
      var settled := SettleAll(rows, order, clock);
      assert |settled.Keys| == |settled|;
      if |settled| > maxRuns {
        EvictionMakesRoom(settled, evicted, |settled| - maxRuns);
      } else {
        assert settled - Ids(evicted) == settled;
      }
    }

    /** The load's loop over the rows: every run is kept in memory, an unfinished one as failed. */
    method LoadSnapshots(
      rows: map<RunId, StoredRun>, order: seq<RunId>, clock: seq<nat>) returns (interrupted: seq<RunId>)
      requires IsRead(rows, order, clock) && runs == map[] && locks == {}
      modifies this`runs, this`locks
      ensures runs == SettleAll(rows, order, clock) && locks == runs.Keys == rows.Keys
      ensures forall id :: id in interrupted <==> id in rows && !Terminal(rows[id].status)
    {
      hide IsListing, Settle;
      ListedRows(rows, order);
      SettledKeys(rows, order, clock);
      interrupted := [];
      for i := 0 to |order|
        invariant runs == SettleFirst(rows, order, clock, i) && locks == runs.Keys
        invariant forall id :: id in interrupted <==> id in order[..i] && id in rows && !Terminal(rows[id].status)
      {
        var id := order[i];
        assert order[..i + 1] == order[..i] + [id];
        var run := rows[id];
        if !Terminal(run.status) {
          interrupted := interrupted + [id];
        }
        run := Settle(run, clock[i]);
        runs, locks := runs[id := run], locks + {id};
      }
      assert order[..|order|] == order;
    }

    static lemma ListedRows(rows: map<RunId, StoredRun>, order: seq<RunId>)
      requires IsListing(rows, order)
      ensures forall id :: id in order <==> id in rows
      ensures forall p :: 0 <= p < |order| ==> order[p] in rows
    {
    }

    /** Interrupted runs are written back, one by one. */
    method Persist(ids: seq<RunId>)
      requires forall id :: id in ids ==> id in runs && id in table
      modifies this`table
      ensures table == map id | id in old(table) :: if id in ids then runs[id] else old(table)[id]
    {
      for i := 0 to |ids|
        invariant table == map id | id in old(table) :: if id in ids[..i] then runs[id] else old(table)[id]
      {
        assert ids[..i + 1] == ids[..i] + [ids[i]];
        table := table[ids[i] := runs[ids[i]]];
      }
      assert ids[..|ids|] == ids;
    }

    static lemma SettledTable(
      rows: map<RunId, StoredRun>, order: seq<RunId>, clock: seq<nat>, interrupted: seq<RunId>, table: map<RunId,
      StoredRun>)
      requires IsRead(rows, order, clock) && table.Keys == rows.Keys == SettleAll(rows, order, clock).Keys
      requires forall id :: id in interrupted <==> id in rows && !Terminal(rows[id].status)
      requires forall id ::
          id in rows ==> table[id] == (if id in interrupted then SettleAll(rows, order, clock)[id] else rows[id])
      ensures table == SettleAll(rows, order, clock)
    {
      hide SettleAll;
      forall id | id in rows ensures table[id] == SettleAll(rows, order, clock)[id] {
        assert id in order;
        var p :| 0 <= p < |order| && order[p] == id;
        SettledAt(rows, order, clock, p);
      }
    }

    static lemma KeepEverything(rows: map<RunId, StoredRun>, order: seq<RunId>, clock: seq<nat>)
      requires IsRead(rows, order, clock)
      ensures var settled := SettleAll(rows, order, clock);
        |settled| == |rows| && TerminalIds(settled) == settled.Keys
    {
      hide SettleAll;
      SettledKeys(rows, order, clock);
      var settled := SettleAll(rows, order, clock);
      assert |settled.Keys| == |settled| && |rows.Keys| == |rows|;
      SettledIsTerminal(rows, order, clock);
    }

    /** The three deletions that always go together. */
    method Drop(ids: seq<RunId>)
      requires Valid()
      modifies this`runs, this`locks, this`table
      ensures Valid()
      ensures runs == old(runs) - Ids(ids) && table == old(table) - Ids(ids)
    {
      runs, locks, table := runs - Ids(ids), locks - Ids(ids), table - Ids(ids);
    }

    /** `create`; a failing write to the table takes the run out of the map again. */
    method Create(id: RunId, run: StoredRun, persists: bool) returns (r: Result<(), CreateError>)
      requires Valid()
      modifies this
      ensures Valid()
      ensures r == if id in old(runs) then Failure(AlreadyExists)
                   else if |old(runs)| >= maxRuns then Failure(AtCapacity)
                   else if !persists then Failure(PersistFailed) else Success(())
      ensures r.Failure? ==> runs == old(runs) && table == old(table)
      ensures r.Success? ==> runs == old(runs)[id := run] && table == old(table)[id := run]
    {
      if id in runs {
        return Failure(AlreadyExists);
      }
      if |runs| >= maxRuns {
        return Failure(AtCapacity);
      }
      runs, locks := runs[id := run], locks + {id};
      if !persists {
        runs, locks := runs - {id}, locks - {id};
        return Failure(PersistFailed);
      }
      table := table[id := run];
      return Success(());
    }

    /** A commit's view of the store: the snapshot changes in memory, and is saved unless it was transient. */
    method Update(id: RunId, run: StoredRun, save: bool)
      requires Valid() && id in runs
      modifies this
      ensures Valid()
      ensures runs == old(runs)[id := run] && table == if save then old(table)[id := run] else old(table)
    {
      runs := runs[id := run];
      if save {
        table := table[id := run];
      }
    }

    /**
     `make_room`: exactly the oldest terminal runs an overflow calls for are evicted, never an active one,
     and then the incoming runs fit or only active runs remain.
     */
    method MakeRoom(incoming: nat) returns (evicted: seq<RunId>)
      requires Valid()
      modifies this
      ensures Valid()
      ensures runs == old(runs) - Ids(evicted) && table == old(table) - Ids(evicted)
      ensures |old(runs)| + incoming <= maxRuns ==> evicted == []
      ensures |old(runs)| + incoming > maxRuns ==> EvictsOldest(old(runs), evicted, |old(runs)| + incoming - maxRuns)
      ensures |runs| + incoming <= maxRuns || TerminalIds(runs) == {}
      ensures forall id :: id in old(runs) && !Terminal(old(runs)[id].status) ==> id in runs
    {
      var overflow := |runs| + incoming - maxRuns;
      if overflow <= 0 {
        evicted := [];
        assert Ids(evicted) == {};
        return;
      }
      evicted := EvictableRunIds(runs, overflow);
      EvictionMakesRoom(runs, evicted, overflow);
      Drop(evicted);
    }

    /** `cleanup_expired`: exactly the terminal runs whose time to live has passed. */
    method CleanupExpired(now: nat, ttl: nat) returns (expired: seq<RunId>)
      requires Valid()
      modifies this
      ensures Valid()
      ensures runs == old(runs) - Ids(expired) && table == old(table) - Ids(expired)
      ensures forall id ::
          id in expired <==> id in old(runs) && Terminal(old(runs)[id].status) && now - old(runs)[id].updatedAt >= ttl
    {
      expired := [];
      var rest := runs.Keys;
      while rest != {}
        invariant rest <= runs.Keys && runs == old(runs) && table == old(table) && locks == old(locks)
        invariant forall id :: id in expired <==>
          id in runs && id !in rest && Terminal(runs[id].status) && now - runs[id].updatedAt >= ttl
        decreases rest
      {
        var id :| id in rest;
        if Terminal(runs[id].status) && now - runs[id].updatedAt >= ttl {
          expired := expired + [id];
        }
        rest := rest - {id};
      }
      Drop(expired);
    }

    method Remove(id: RunId) returns (removed: bool)
      requires Valid()
      modifies this
      ensures Valid() && removed == (id in old(runs))
      ensures runs == old(runs) - {id} && table == old(table) - {id}
    {
      if id !in runs {
        return false;
      }
      runs, locks, table := runs - {id}, locks - {id}, table - {id};
      return true;
    }
  }
}
