/**
 Which runs survive a restart (`_load_snapshots` and `_enforce_retention_on_load` in
 `backend/run_store.py`) when the table holds more than the store may keep.
 */
module Survivors {
  import opened RunTypes
  import opened RunStore

  function InterruptedIds(rows: map<RunId, StoredRun>): set<RunId> {
    set id | id in rows && !Terminal(rows[id].status)
  }

  /** The clock rises from row to row, and every run that had ended did so before the restart. */
  ghost predicate RestartClock(rows: map<RunId, StoredRun>, clock: seq<nat>) {
    && (forall p, q :: 0 <= p < q < |clock| ==> clock[p] < clock[q])
    && (forall p, id :: 0 <= p < |clock| && id in rows && Terminal(rows[id].status) ==> rows[id].updatedAt < clock[p])
  }

  /** How many rows do not fit. */
  function Overflow(
    rows: map<RunId, StoredRun>, maxRuns: nat): nat { if |rows| <= maxRuns then 0 else |rows| - maxRuns }

  /** The one order in which a load gives runs up, for any two of them. */
  lemma StampOrder(rows: map<RunId, StoredRun>, order: seq<RunId>, clock: seq<nat>, p: nat, q: nat)
    requires IsRead(rows, order, clock) && RestartClock(rows, clock) && p < |order| && q < |order|
    ensures order[p] in rows && order[q] in rows
    ensures SettleAll(rows, order, clock).Keys == rows.Keys
    ensures !Terminal(rows[order[q]].status) && (Terminal(rows[order[p]].status) || p < q) ==>
      !Older(SettleAll(rows, order, clock), order[q], order[p])
  {
    hide SettleAll;
    SettledKeys(rows, order, clock);
    SettledAt(rows, order, clock, p);
    SettledAt(rows, order, clock, q);
  }

  /**
   An interrupted run survives before any run that had ended, and of two interrupted runs the one read
   later survives first: its stamp is newer, although its last update is not.
   */
  lemma InterruptedSurvive(
    rows: map<RunId, StoredRun>, order: seq<RunId>, clock: seq<nat>, maxRuns: nat, runs: map<RunId, StoredRun>,
    p: nat, q: nat)
    requires IsRead(rows, order, clock) && RestartClock(rows, clock) && IsLoad(rows, order, clock, maxRuns, runs)
    requires p < |order| && q < |order| && order[p] in rows && order[q] in rows && order[p] in runs
    requires !Terminal(rows[order[q]].status) && (Terminal(rows[order[p]].status) || p < q)
    ensures order[q] in runs
  {
    hide SettleAll;
    StampOrder(rows, order, clock, p, q);
  }

  lemma SplitByStatus(rows: map<RunId, StoredRun>)
    ensures TerminalIds(rows) + InterruptedIds(rows) == rows.Keys && TerminalIds(rows) !! InterruptedIds(rows)
    ensures |TerminalIds(rows)| + |InterruptedIds(rows)| == |rows|
  {
    assert TerminalIds(rows) + InterruptedIds(rows) == rows.Keys;
    assert |rows.Keys| == |rows|;
  }

  /** With enough ended runs to give up every interrupted run survives; otherwise only interrupted ones do. */
  lemma EndedRunsGoFirst(
    rows: map<RunId, StoredRun>, order: seq<RunId>, clock: seq<nat>, maxRuns: nat, runs: map<RunId, StoredRun>)
    requires IsRead(rows, order, clock) && RestartClock(rows, clock) && IsLoad(rows, order, clock, maxRuns, runs)
    ensures runs.Keys <= rows.Keys && |runs.Keys| == |rows| - Overflow(rows, maxRuns)
    ensures if Overflow(rows, maxRuns) <= |TerminalIds(rows)| then InterruptedIds(rows) <= runs.Keys
            else runs.Keys < InterruptedIds(rows)
  {
    hide SettleAll, RestartClock, IsListing;
    SettledKeys(rows, order, clock);
    SplitByStatus(rows);
    assert |runs.Keys| == |runs|;
    if exists k :: k in runs && k in TerminalIds(rows) {
      var k :| k in runs && k in TerminalIds(rows);
      EndedKeptMeansAllKept(rows, order, clock, maxRuns, runs, k);
      SubsetOfSameSize(InterruptedIds(rows) + {k}, runs.Keys);
    } else {
      assert runs.Keys <= InterruptedIds(rows);
      SubsetOfSameSize(runs.Keys, InterruptedIds(rows));
      assert runs.Keys == InterruptedIds(rows) ==> Overflow(rows, maxRuns) == |TerminalIds(rows)|;
    }
  }

  lemma EndedKeptMeansAllKept(
    rows: map<RunId, StoredRun>, order: seq<RunId>, clock: seq<nat>, maxRuns: nat, runs: map<RunId, StoredRun>,
    k: RunId)
    requires IsRead(rows, order, clock) && RestartClock(rows, clock) && IsLoad(rows, order, clock, maxRuns, runs)
    requires k in runs && k in TerminalIds(rows)
    ensures InterruptedIds(rows) <= runs.Keys
  {
    hide SettleAll, IsLoad, RestartClock;
    forall id | id in InterruptedIds(rows) ensures id in runs {
      assert k in order && id in order;
      var p :| 0 <= p < |order| && order[p] == k;
      var q :| 0 <= q < |order| && order[q] == id;
      InterruptedSurvive(rows, order, clock, maxRuns, runs, p, q);
    }
  }

  /** Of the interrupted runs, those last updated are kept: no one read earlier is given up for one read later. */
  ghost predicate KeepsNewestInterrupted(rows: map<RunId, StoredRun>, order: seq<RunId>, kept: set<RunId>) {
    forall p, q :: 0 <= p < q < |order| && order[p] in InterruptedIds(rows) && order[q] in InterruptedIds(rows) ==>
      (order[q] in kept ==> order[p] in kept)
  }

  /**
   The interrupted runs last updated survive a load if and only if the runs that had ended are enough to
   give up, or no run is kept at all; past that, the load gives up the newest of them first.
   */
  lemma NewestInterruptedSurviveIff(
    rows: map<RunId, StoredRun>, order: seq<RunId>, clock: seq<nat>, maxRuns: nat, runs: map<RunId, StoredRun>)
    requires IsRead(rows, order, clock) && RestartClock(rows, clock) && IsLoad(rows, order, clock, maxRuns, runs)
    ensures KeepsNewestInterrupted(rows, order, runs.Keys) <==>
      Overflow(rows, maxRuns) <= |TerminalIds(rows)| || maxRuns == 0
  {
    hide SettleAll, IsLoad, RestartClock;
    EndedRunsGoFirst(rows, order, clock, maxRuns, runs);
    if Overflow(rows, maxRuns) > |TerminalIds(rows)| && maxRuns > 0 {
      assert runs.Keys != {};
      var k :| k in runs.Keys;
      var e :| e in InterruptedIds(rows) && e !in runs.Keys;
      assert k in order && e in order;
      var q :| 0 <= q < |order| && order[q] == k;
      var p :| 0 <= p < |order| && order[p] == e;
      if q < p {
        InterruptedSurvive(rows, order, clock, maxRuns, runs, q, p);
      }
    }
  }

  /** No run is given up whose last update, as stored, is later than a kept one's. */
  ghost predicate KeepsNewestStored(rows: map<RunId, StoredRun>, kept: set<RunId>)
    requires kept <= rows.Keys
  {
    forall e, k :: e in rows && e !in kept && k in kept ==> rows[e].updatedAt <= rows[k].updatedAt
  }

  /** Every run of `ids` was last updated no later than any interrupted run. */
  ghost predicate NoneNewer(rows: map<RunId, StoredRun>, ids: set<RunId>)
    requires ids <= rows.Keys
  {
    forall e, k :: e in ids && k in InterruptedIds(rows) ==> rows[e].updatedAt <= rows[k].updatedAt
  }

  /** Enough of the ended runs are no newer than any interrupted one. */
  ghost predicate OldOnesSuffice(rows: map<RunId, StoredRun>, needed: nat) {
    exists ended: set<RunId> ::
        ended <= rows.Keys && ended <= TerminalIds(rows) && |ended| == needed && NoneNewer(rows, ended)
  }

  lemma EndedKeepTheirOrder(
    rows: map<RunId, StoredRun>, order: seq<RunId>, clock: seq<nat>, maxRuns: nat, runs: map<RunId, StoredRun>,
    e: RunId, k: RunId)
    requires IsRead(rows, order, clock) && IsLoad(rows, order, clock, maxRuns, runs)
    requires e in TerminalIds(rows) && k in TerminalIds(rows) && e !in runs && k in runs
    ensures rows[e].updatedAt <= rows[k].updatedAt
  {
    hide SettleAll;
    assert e in order && k in order;
    var p :| 0 <= p < |order| && order[p] == e;
    var q :| 0 <= q < |order| && order[q] == k;
    SettledAt(rows, order, clock, p);
    SettledAt(rows, order, clock, q);
  }

  /** While ended runs are enough to give up, the newest stay exactly when enough of those are old. */
  lemma NewestStoredSurviveIff(
    rows: map<RunId, StoredRun>, order: seq<RunId>, clock: seq<nat>, maxRuns: nat, runs: map<RunId, StoredRun>)
    requires IsRead(rows, order, clock) && RestartClock(rows, clock) && IsLoad(rows, order, clock, maxRuns, runs)
    requires Overflow(rows, maxRuns) <= |TerminalIds(rows)|
    ensures runs.Keys <= rows.Keys
    ensures KeepsNewestStored(rows, runs.Keys) <==> OldOnesSuffice(rows, Overflow(rows, maxRuns))
  {
    hide SettleAll, IsLoad, RestartClock;
    EndedRunsGoFirst(rows, order, clock, maxRuns, runs);
    SplitByStatus(rows);
    var gone := rows.Keys - runs.Keys;
    assert |gone| == |rows.Keys| - |runs.Keys| == Overflow(rows, maxRuns);
    assert gone <= TerminalIds(rows);
    if KeepsNewestStored(rows, runs.Keys) {
      assert NoneNewer(rows, gone);
    }
    if OldOnesSuffice(rows, Overflow(rows, maxRuns)) {
      var ended :| ended <= rows.Keys && ended <= TerminalIds(rows) && |ended| == Overflow(rows, maxRuns)
          && NoneNewer(rows, ended);
      forall e, k | e in rows && e !in runs.Keys && k in runs.Keys ensures rows[e].updatedAt <= rows[k].updatedAt {
        if k in TerminalIds(rows) {
          EndedKeepTheirOrder(rows, order, clock, maxRuns, runs, e, k);
        } else if e !in ended {
          var o := OneOutside(ended, gone, e);
          EndedKeepTheirOrder(rows, order, clock, maxRuns, runs, e, o);
        }
      }
    }
  }

  lemma OneOutside<T>(x: set<T>, y: set<T>, e: T) returns (o: T)
    requires |x| == |y| && e in y && e !in x
    ensures o in x && o !in y
  {
    if x <= y {
      SubsetOfSameSize(x, y);
      assert false;
    }
    o :| o in x && o !in y;
  }

  /** When only interrupted runs are kept, the newest stay exactly when no run is newer than any of those. */
  lemma NewestStoredLostIff(
    rows: map<RunId, StoredRun>, order: seq<RunId>, clock: seq<nat>, maxRuns: nat, runs: map<RunId, StoredRun>)
    requires IsRead(rows, order, clock) && RestartClock(rows, clock) && IsLoad(rows, order, clock, maxRuns, runs)
    requires Overflow(rows, maxRuns) > |TerminalIds(rows)| && maxRuns > 0
    ensures runs.Keys <= rows.Keys
    ensures KeepsNewestStored(rows, runs.Keys) <==> NoneNewer(rows, rows.Keys)
  {
    hide SettleAll, IsLoad, RestartClock;
    EndedRunsGoFirst(rows, order, clock, maxRuns, runs);
    if KeepsNewestStored(rows, runs.Keys) {
      var kept :| kept in runs.Keys;
      var gone :| gone in InterruptedIds(rows) && gone !in runs.Keys;
      forall e, k | e in rows && k in InterruptedIds(rows) ensures rows[e].updatedAt <= rows[k].updatedAt {
        var stays := if k in runs then k else kept;
        GivenUpIsNewer(rows, order, clock, maxRuns, runs, gone, if e in runs then e else kept);
        if k !in runs {
          GivenUpIsNewer(rows, order, clock, maxRuns, runs, k, kept);
        }
        assert rows[gone].updatedAt <= rows[stays].updatedAt;
      }
    }
  }

  /** Of two interrupted runs, the one given up was read first and so is no older by its last update. */
  lemma GivenUpIsNewer(
    rows: map<RunId, StoredRun>, order: seq<RunId>, clock: seq<nat>, maxRuns: nat, runs: map<RunId, StoredRun>,
    e: RunId, k: RunId)
    requires IsRead(rows, order, clock) && RestartClock(rows, clock) && IsLoad(rows, order, clock, maxRuns, runs)
    requires e in InterruptedIds(rows) && k in InterruptedIds(rows) && e !in runs && k in runs
    ensures rows[e].updatedAt >= rows[k].updatedAt
  {
    hide SettleAll, IsLoad, RestartClock;
    assert e in order && k in order;
    var p :| 0 <= p < |order| && order[p] == e;
    var q :| 0 <= q < |order| && order[q] == k;
    if q < p {
      InterruptedSurvive(rows, order, clock, maxRuns, runs, q, p);
    }
  }

  /** Two interrupted runs and room for one: the one updated last is lost. */
  lemma NewerInterruptedIsLost(runs: map<RunId, StoredRun>)
    ensures var rows := map[1 := StoredRun(Generating, 10, false), 2 := StoredRun(Generating, 20, false)];
      IsRead(rows, [2, 1], [30, 31]) && (IsLoad(rows, [2, 1], [30, 31], 1, runs) ==> runs.Keys == {1})
  {
    hide SettleAll, IsLoad;
    var rows := map[1 := StoredRun(Generating, 10, false), 2 := StoredRun(Generating, 20, false)];
    if IsLoad(rows, [2, 1], [30, 31], 1, runs) {
      OneOfTwo(rows, [2, 1], [30, 31], runs);
    }
  }

  /** A finished run and an older interrupted one, with room for one: the finished one is lost. */
  lemma NewerEndedIsLost(runs: map<RunId, StoredRun>)
    ensures var rows := map[1 := StoredRun(Status.Completed, 20, false), 2 := StoredRun(Generating, 10, false)];
      IsRead(rows, [1, 2], [30, 31]) && (IsLoad(rows, [1, 2], [30, 31], 1, runs) ==> runs.Keys == {2})
  {
    hide SettleAll, IsLoad;
    var rows := map[1 := StoredRun(Status.Completed, 20, false), 2 := StoredRun(Generating, 10, false)];
    if IsLoad(rows, [1, 2], [30, 31], 1, runs) {
      OneOfTwo(rows, [1, 2], [30, 31], runs);
    }
  }

  /** Of ended runs the one updated first goes first, and of two updated at the same time the one numbered first. */
  lemma EndedGoInOrder(
    rows: map<RunId, StoredRun>, order: seq<RunId>, clock: seq<nat>, maxRuns: nat, runs: map<RunId, StoredRun>,
    e: RunId, k: RunId)
    requires IsRead(rows, order, clock) && IsLoad(rows, order, clock, maxRuns, runs)
    requires e in rows && k in rows && Terminal(rows[e].status) && Terminal(rows[k].status)
    requires e !in runs && k in runs
    ensures rows[e].updatedAt < rows[k].updatedAt || (rows[e].updatedAt == rows[k].updatedAt && e < k)
  {
    hide SettleAll;
    assert e in order && k in order;
    var p :| 0 <= p < |order| && order[p] == e;
    var q :| 0 <= q < |order| && order[q] == k;
    SettledAt(rows, order, clock, p);
    SettledAt(rows, order, clock, q);
  }

  lemma OneOfTwo(rows: map<RunId, StoredRun>, order: seq<RunId>, clock: seq<nat>, runs: map<RunId, StoredRun>)
    requires IsRead(rows, order, clock) && RestartClock(rows, clock) && IsLoad(rows, order, clock, 1, runs)
    requires |order| == 2 && rows.Keys == {order[0], order[1]} && |rows| == 2 && !Terminal(rows[order[1]].status)
    ensures runs.Keys == {order[1]}
  {
    hide SettleAll, IsLoad, RestartClock;
    EndedRunsGoFirst(rows, order, clock, 1, runs);
    assert |rows.Keys| == 2;
    if order[0] in runs {
      InterruptedSurvive(rows, order, clock, 1, runs, 0, 1);
      SubsetOfSameSize(rows.Keys, runs.Keys);
    }
    SubsetOfSameSize(runs.Keys, {order[1]});
  }
}
