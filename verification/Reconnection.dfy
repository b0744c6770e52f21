/**
 Coming back to a run (`src/lib/runReducer.ts` against `backend/event_store.py` and
 `backend/run_store.py`): what a client shows that reconnects to a store, and what it shows when it loads
 the run again.

 A restart of the backend reopens both stores.  The run store settles an unfinished run as failed and tells
 no event of it, so a replay alone cannot show that.
 */
module Reconnection {
  import opened Wrappers
  import opened RunTypes
  import opened RunManager
  import opened Workflow
  import opened EventMeaning
  import opened Reducer
  import opened Simulation
  import opened LiveView
  import opened StoredLog
  import EventStore
  import RunStore
  import StatusSafety
  import RunShape
  import Recovery
  import Rehearsal

  // ----- the server's side of a restart

  /** The stored run after the backend was started again, each time settled if it is found unfinished. */
  function Resettled(row: RunStore.StoredRun, reopenings: seq<Reopening>): RunStore.StoredRun {
    if reopenings == [] then row
    else RunStore.Settle(Resettled(row, reopenings[..|reopenings| - 1]), reopenings[|reopenings| - 1].at)
  }

  /** Only the first restart matters, and only to a run that had not ended. */
  lemma {:induction false} FirstRestartSettles(row: RunStore.StoredRun, reopenings: seq<Reopening>)
    ensures Resettled(row, reopenings)
            == if reopenings == [] || Terminal(row.status) then row
               else RunStore.StoredRun(Failed, reopenings[0].at, true)
    decreases |reopenings|
  {
    if |reopenings| > 1 {
      FirstRestartSettles(row, reopenings[..|reopenings| - 1]);
    }
  }

  /** The server still is where the run was. */
  predicate Undisturbed(row: RunStore.StoredRun, reopenings: seq<Reopening>) {
    reopenings == [] || Terminal(row.status)
  }

  // ----- reconnecting

  /** What watching a run shows, whatever deltas are lost on the way. */
  lemma WatchingShows(
    states: seq<State>, actions: seq<Action>, maxIterations: nat, threshold: nat, i: nat, j: nat, dropped: set<nat>)
    requires IsRun(states, actions, maxIterations, threshold) && i <= j < |states| && LiveUntil(states, i, j)
    ensures var view, s := Watch(LoadSnapshot(states[i].run.snapshot), states, i, j, dropped), states[j];
      && Finished(view.drafts) == DoneDrafts(s.run.snapshot.docs.versions)
      && view.board.status == s.run.snapshot.status
      && (view.board == IdealBoard(s.run.snapshot.status, s.run.snapshot.docs) <==>
            NoBlankFindings(states[i].run.snapshot.docs.versions))
  {
    hide Next, Initial, Tellable, LoadSnapshot, LiveUntil, Finished, DoneDrafts, IdealBoard, NoBlankFindings,
      Watch, Collides, ShowsDrafts;
    ReachableIsTellable(states, actions, maxIterations, threshold, i);
    LoadShowsDrafts(states[i]);
    WatchedRunShowsDone(
      states, actions, maxIterations, threshold, i, j, LoadSnapshot(states[i].run.snapshot), dropped);
    Recovery.BoardIsShownIff(states, actions, maxIterations, threshold, i, j, dropped);
  }

  /** Replaying the store is watching the run, with some deltas lost. */
  lemma ReplayIsWatching(
    states: seq<State>, actions: seq<Action>, maxIterations: nat, threshold: nat, i: nat, j: nat, size: nat,
    reopenings: seq<Reopening>) returns (dropped: set<nat>)
    requires IsRun(states, actions, maxIterations, threshold) && i <= j < |states| && size > 0
    ensures var view := LoadSnapshot(states[i].run.snapshot);
      var st := Stored(states[j].run.log, size, reopenings);
      var replayed := EventStore.ReplayStream(st, states[i].run.snapshot.latestSequence);
      replayed.Success? && ReceiveAll(view, replayed.value) == Watch(view, states, i, j, dropped)
  {
    hide Next, Initial, Stored, EventStore.CompleteAfter, EventStore.ReplayStream, Tellable, LoadSnapshot,
      ReceiveAll, Surviving, Since, Watch, Delivers;
    var n := |states[i].run.log|;
    var st := Stored(states[j].run.log, size, reopenings);
    ReachableIsTellable(states, actions, maxIterations, threshold, i);
    ReachableIsTellable(states, actions, maxIterations, threshold, j);
    LogIsDense(states[i]);
    LogIsDense(states[j]);
    WatchIsReceiving(states, actions, maxIterations, threshold, i, j, LoadSnapshot(states[i].run.snapshot), {});
    RunCanBeReplayed(states, actions, maxIterations, threshold, j, size, reopenings, n);
    var found := EventStore.ReplayStream(st, n).value;
    dropped := ReplayIsSurviving(states[j].run.log, st, found, n);
    DeliversItself(found, n);
    DeliveryIsWatching(states, actions, maxIterations, threshold, i, j, dropped, found);
  }

  /**
   Reconnecting.  A client that loads any snapshot of a run and is later replayed from its cursor, out of
   a cache of any size and after any restarts that keep the run, shows the run's finished drafts and the
   status its log ends with.  That is the server's status if and only if no restart has happened or the run
   had ended, since a restart fails an unfinished run without telling; and everything but the draft in flight
   is the server's if and only if also no finding of the snapshot was blank.
   */
  lemma ReconnectShowsServer(
    states: seq<State>, actions: seq<Action>, maxIterations: nat, threshold: nat, i: nat, j: nat, size: nat,
    row: RunStore.StoredRun, reopenings: seq<Reopening>)
    requires IsRun(states, actions, maxIterations, threshold) && i <= j < |states| && LiveUntil(states, i, j)
    requires size > 0 && row.status == states[j].run.snapshot.status
    ensures var st := Stored(states[j].run.log, size, reopenings);
      var replayed := EventStore.ReplayStream(st, states[i].run.snapshot.latestSequence);
      replayed.Success? &&
      var view, docs := ReceiveAll(LoadSnapshot(states[i].run.snapshot), replayed.value), states[j].run.snapshot.docs;
      var server := Resettled(row, reopenings).status;
      && Finished(view.drafts) == DoneDrafts(docs.versions)
      && view.board.status == row.status
      && (view.board.status == server <==> Undisturbed(row, reopenings))
      && (view.board == IdealBoard(server, docs) <==>
            Undisturbed(row, reopenings) && NoBlankFindings(states[i].run.snapshot.docs.versions))
  {
    hide Next, Initial, Stored, EventStore.ReplayStream, LoadSnapshot, ReceiveAll, Finished, DoneDrafts,
      NoBlankFindings, Watch, LiveUntil, IdealReviews, IdealScores, IdealOutcome, Resettled;
    var dropped := ReplayIsWatching(states, actions, maxIterations, threshold, i, j, size, reopenings);
    WatchingShows(states, actions, maxIterations, threshold, i, j, dropped);
    FirstRestartSettles(row, reopenings);
  }

  // ----- loading the run again

  /** A loaded board depends on the status by itself and through the outcome, and not on the text in flight. */
  lemma BoardOfSettled(snapshot: Snapshot, settled: Snapshot)
    requires settled.docs.(currentPrd := snapshot.docs.currentPrd) == snapshot.docs
    requires settled.status == snapshot.status || (!ScoredEnding(settled.status) && !ScoredEnding(snapshot.status))
    ensures LoadSnapshot(settled).board == LoadSnapshot(snapshot).board.(status := settled.status)
    ensures IdealBoard(settled.status, settled.docs)
        == IdealBoard(snapshot.status, snapshot.docs).(status := settled.status)
  {
    hide SeededDrafts, EvaluatedReviews, ScoresFromSnapshot, ScanBest, IdealReviews, IdealScores;
  }

  lemma SettledDraftsAreDone(s: State, kept: Text)
    requires Tellable(s)
    ensures Finished(SeededDrafts(s.run.snapshot.docs.(currentPrd := kept)))
        == DoneDrafts(s.run.snapshot.docs.versions)
  {
    hide StatusSafety.StatusInv, RunShape.LocalsFit, RunShape.PastGate, RunShape.ReviewInv, RunShape.ScoreInv,
      RunShape.GateInv, RoundInv, DraftInv, RunShape.VersionsInOrder, SeededDrafts, Finished, DoneDrafts;
    assert RunShape.ShapeInv(s);
    SeededDraftsAreDone(s.run.snapshot.docs.(currentPrd := kept));
  }

  /**
   Loading the run again shows the failure.  After any restarts the stored snapshot has the settled status,
   the documents, and of the text in flight whatever part, `kept`, was saved.  A client that loads it shows
   the server's status and finished drafts, and everything but the draft in flight exactly when no finding
   is blank.
   */
  lemma ReloadShowsServer(
    states: seq<State>, actions: seq<Action>, maxIterations: nat, threshold: nat, j: nat, row: RunStore.StoredRun,
    reopenings: seq<Reopening>, kept: Text, sequence: nat)
    requires IsRun(states, actions, maxIterations, threshold) && j < |states|
    requires row.status == states[j].run.snapshot.status
    ensures var docs, server := states[j].run.snapshot.docs, Resettled(row, reopenings).status;
      var view := LoadSnapshot(states[j].run.snapshot.(
          status := server, latestSequence := sequence, docs := docs.(currentPrd := kept)));
      && Finished(view.drafts) == DoneDrafts(docs.versions)
      && view.board.status == server
      && (view.board == IdealBoard(server, docs) <==> NoBlankFindings(docs.versions))
  {
    hide Next, Initial, Tellable, Finished, DoneDrafts, NoBlankFindings, IdealBoard, SeededDrafts,
      ReviewsFromSnapshot, ScoresFromSnapshot, BestOfSnapshot, OutcomeFromSnapshot, Resettled, LoadSnapshot;
    var snapshot, server := states[j].run.snapshot, Resettled(row, reopenings).status;
    var settled := snapshot.(status := server, latestSequence := sequence, docs := snapshot.docs.(currentPrd := kept));
    ReachableIsTellable(states, actions, maxIterations, threshold, j);
    FirstRestartSettles(row, reopenings);
    LoadShowsBoard(states[j]);
    LoadShowsDrafts(states[j]);
    BoardOfSettled(snapshot, settled);
    SettledDraftsAreDone(states[j], kept);
    LoadedParts(snapshot);
    LoadedParts(settled);
    IdealIgnoresText(server, snapshot.docs, kept);
    IdealIgnoresText(snapshot.status, snapshot.docs, kept);
  }

  lemma LoadedParts(snapshot: Snapshot)
    ensures LoadSnapshot(snapshot).drafts == SeededDrafts(snapshot.docs)
    ensures LoadSnapshot(snapshot).board.status == snapshot.status
  {
    hide SeededDrafts, ReviewsFromSnapshot, ScoresFromSnapshot, BestOfSnapshot, OutcomeFromSnapshot;
  }

  lemma IdealIgnoresText(status: Status, docs: Docs, kept: Text)
    ensures IdealBoard(status, docs.(currentPrd := kept)) == IdealBoard(status, docs)
    ensures IdealBoard(status, docs).status == status
  {
    hide IdealReviews, IdealScores;
  }

  // ----- an interrupted run

  /** An unfinished run has been live all along. */
  lemma UnfinishedWasLive(
    states: seq<State>, actions: seq<Action>, maxIterations: nat, threshold: nat, j: nat)
    requires IsRun(states, actions, maxIterations, threshold) && j < |states|
    requires !Terminal(states[j].run.snapshot.status)
    ensures LiveUntil(states, 0, j)
  {
    hide Next, Initial, Terminal;
    forall m | 0 <= m < j ensures !Terminal(states[m].run.snapshot.status) {
      StatusSafety.TerminalIsForever(states, actions, maxIterations, threshold, m, j);
    }
  }

  /**
   Some run is interrupted while it generates.  A client that had watched it from the start and reconnects
   after the restart shows it generating, though the server has it as failed.
   */
  lemma InterruptedRunLooksAlive(size: nat, at: nat, sequence: nat)
    requires size > 0
    ensures exists states: seq<State>, actions: seq<Action> ::
      && IsRun(states, actions, 2, 850) && LooksAlive(states, size, [Reopening(at, sequence)])
  {
    hide Next, Initial, Rehearsal.Reaches, LooksAlive, Tellable;
    var t := Rehearsal.FirstStream();
    Rehearsal.ReachedIsTellable(t);
    var states, actions :| IsRun(states, actions, 2, 850) && states[|actions|] == t;
    InterruptedShowsStale(states, actions, size, [Reopening(at, sequence)]);
  }

  /** The client shows the last state of a run as generating, and the server has failed it. */
  ghost predicate LooksAlive(states: seq<State>, size: nat, reopenings: seq<Reopening>) {
    states != [] &&
    var first, last := states[0].run.snapshot, states[|states| - 1].run;
    var replayed := EventStore.ReplayStream(Stored(last.log, size, reopenings), first.latestSequence);
    && replayed.Success?
    && ReceiveAll(LoadSnapshot(first), replayed.value).board.status == Generating
    && forall t :: Resettled(RunStore.StoredRun(last.snapshot.status, t, false), reopenings).status == Failed
  }

  lemma InterruptedShowsStale(states: seq<State>, actions: seq<Action>, size: nat, reopenings: seq<Reopening>)
    requires IsRun(states, actions, 2, 850) && size > 0 && reopenings != []
    requires states[|actions|].run.snapshot.status.Generating?
    ensures LooksAlive(states, size, reopenings)
  {
    hide Next, Initial, LiveUntil, Stored, EventStore.ReplayStream, LoadSnapshot, ReceiveAll, Finished, DoneDrafts,
      NoBlankFindings, IdealBoard, Resettled;
    var n, status := |actions|, states[|actions|].run.snapshot.status;
    UnfinishedWasLive(states, actions, 2, 850, n);
    ReconnectShowsServer(states, actions, 2, 850, 0, n, size, RunStore.StoredRun(status, 0, false), reopenings);
    forall t ensures Resettled(RunStore.StoredRun(status, t, false), reopenings).status == Failed {
      FirstRestartSettles(RunStore.StoredRun(status, t, false), reopenings);
    }
  }
}
