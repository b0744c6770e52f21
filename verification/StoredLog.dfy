/**
 A run's log in the durable store (`backend/event_store.py` under `backend/run_manager.py`), and a replay
 of it as a delivery of the run's events.
 */
module StoredLog {
  import opened Wrappers
  import opened RunTypes
  import opened RunManager
  import opened Workflow
  import opened EventStore
  import opened Reducer
  import LiveView
  import EventMeaning

  // ----- a first durable event

  const EMPTY_STREAM := Stream([], 0, [], [])

  ghost predicate StartsAtOne(st: Stream) { st.rows != [] && st.rows[0].sequence == 1 }

  lemma StepKeepsStart(st: Stream, size: nat, step: StoreStep)
    requires StartsAtOne(st)
    ensures StartsAtOne(StepOf(st, size, step))
  {
    hide Newest, Push, WarmSequence;
  }

  lemma {:induction false} HistoryStartsAtOne(size: nat, steps: seq<StoreStep>)
    requires steps != [] && steps[0].Appends? && !steps[0].payload.PrdDelta?
    ensures StartsAtOne(HistoryOf(EMPTY_STREAM, size, steps))
    decreases |steps|
  {
    hide StepOf, StartsAtOne;
    var front := steps[..|steps| - 1];
    if front == [] {
      FirstRow(size, steps[0]);
      assert HistoryOf(EMPTY_STREAM, size, []) == EMPTY_STREAM;
    } else {
      HistoryStartsAtOne(size, front);
      StepKeepsStart(HistoryOf(EMPTY_STREAM, size, front), size, steps[|steps| - 1]);
    }
  }

  lemma FirstRow(size: nat, step: StoreStep)
    requires step.Appends? && !step.payload.PrdDelta?
    ensures StartsAtOne(StepOf(EMPTY_STREAM, size, step))
  {
  }

  /**
   A history that opens with a durable event never expires: whatever follows, appends, evictions or
   restarts, a replay from any cursor succeeds and is complete.
   */
  lemma FirstDurableNeverExpires(size: nat, steps: seq<StoreStep>, cursor: nat)
    requires size > 0 && steps != [] && steps[0].Appends? && !steps[0].payload.PrdDelta?
    ensures var st := HistoryOf(EMPTY_STREAM, size, steps);
      ReplayStream(st, cursor).Success? && CompleteAfter(ReplayStream(st, cursor).value, st, cursor)
  {
    hide HistoryOf, CompleteAfter;
    HistoryStartsAtOne(size, steps);
    StoreIsAlwaysComplete(size, steps, cursor);
  }

  // ----- a run's own log

  /** A run's first event is durable, and no delta comes before one. */
  ghost predicate OpensDurably(s: State) {
    && (s.run.log != [] ==> !s.run.log[0].payload.PrdDelta?)
    && (!s.pc.Start? ==> s.run.log != [])
  }

  lemma StepKeepsOpening(s: State, a: Action)
    requires OpensDurably(s) && EventMeaning.Tellable(s) && Next(s, a).Some?
    ensures OpensDurably(Next(s, a).value)
  {
    hide Next, EventMeaning.Tellable, EventMeaning.Matches, EventMeaning.Quiet;
    var s' := Next(s, a).value;
    EventMeaning.StepKeepsTellable(s, a);
    LogGrows(s, s');
    if s.run.log == [] {
      FirstStep(s, a);
    }
  }

  lemma LogGrows(s: State, s': State)
    requires EventMeaning.Explained(s, s')
    ensures s.run.log <= s'.run.log
  {
    hide EventMeaning.Matches;
    if EventMeaning.Tells(s, s') {
      assert s'.run.log[..|s.run.log|] == s.run.log;
    }
  }

  /** Before the workflow starts only a durable event can come first, and its start writes one. */
  lemma FirstStep(s: State, a: Action)
    requires Next(s, a).Some? && s.run.log == [] && s.pc.Start?
    ensures var s' := Next(s, a).value;
      (s'.run.log != [] ==> !s'.run.log[0].payload.PrdDelta?) && (!s'.pc.Start? ==> s'.run.log != [])
  {
    hide CanTransition, Terminal;
  }

  lemma {:induction false} ReachableOpensDurably(
    states: seq<State>, actions: seq<Action>, maxIterations: nat, threshold: nat, k: nat)
    requires IsRun(states, actions, maxIterations, threshold) && k < |states|
    ensures OpensDurably(states[k])
  {
    hide Next, EventMeaning.Tellable;
    if k > 0 {
      ReachableOpensDurably(states, actions, maxIterations, threshold, k - 1);
      EventMeaning.ReachableIsTellable(states, actions, maxIterations, threshold, k - 1);
      assert Next(states[k - 1], actions[k - 1]) == Some(states[k]);
      StepKeepsOpening(states[k - 1], actions[k - 1]);
    }
  }

  /** The appends that write a log, and any restarts after them. */
  function Appending(log: seq<Event>): seq<StoreStep> {
    if log == [] then []
    else Appending(log[..|log| - 1]) + [Appends(log[|log| - 1].iteration, log[|log| - 1].payload)]
  }

  /** The backend starts again at `at`, from a stored snapshot that knows `sequence` as its last event. */
  datatype Reopening = Reopening(at: nat, sequence: nat)

  function Restarting(reopenings: seq<Reopening>): seq<StoreStep> {
    if reopenings == [] then []
    else Restarting(reopenings[..|reopenings| - 1]) + [Restarts(reopenings[|reopenings| - 1].sequence)]
  }

  lemma {:induction false} AppendedIsLog(size: nat, log: seq<Event>)
    requires Dense(log)
    ensures var st := HistoryOf(EMPTY_STREAM, size, Appending(log));
      st.appended == log && st.sequence == |log|
    decreases |log|
  {
    hide Push, Transient;
    if log == [] {
      assert Appending(log) == [];
    } else {
      var n := |log| - 1;
      AppendedIsLog(size, log[..n]);
      var steps := Appending(log[..n]);
      assert (steps + [Appends(log[n].iteration, log[n].payload)])[..|steps|] == steps;
      assert log[..n] + [log[n]] == log;
    }
  }

  lemma {:induction false} RestartsAppendNothing(size: nat, steps: seq<StoreStep>, reopenings: seq<Reopening>)
    ensures HistoryOf(EMPTY_STREAM, size, steps + Restarting(reopenings)).appended
            == HistoryOf(EMPTY_STREAM, size, steps).appended
    decreases |reopenings|
  {
    hide Newest, WarmSequence;
    if reopenings == [] {
      assert steps + [] == steps;
    } else {
      var n := |reopenings| - 1;
      RestartsAppendNothing(size, steps, reopenings[..n]);
      var all := steps + Restarting(reopenings);
      assert all[..|all| - 1] == steps + Restarting(reopenings[..n]);
      assert all[|all| - 1] == Restarts(reopenings[n].sequence);
    }
  }

  /** The store after a run has written its log and any number of restarts. */
  function Stored(log: seq<Event>, size: nat, reopenings: seq<Reopening>): Stream {
    HistoryOf(EMPTY_STREAM, size, Appending(log) + Restarting(reopenings))
  }

  lemma NumberedIsDense(run: Run)
    requires Numbered(run)
    ensures Dense(run.log)
  {
  }

  lemma FirstAppend(log: seq<Event>, reopenings: seq<Reopening>)
    requires log != []
    ensures var steps := Appending(log) + Restarting(reopenings);
      steps != [] && steps[0] == Appends(log[0].iteration, log[0].payload)
    decreases |log|
  {
    if |log| > 1 {
      FirstAppend(log[..|log| - 1], reopenings);
      assert Appending(log[..|log| - 1]) != [];
      assert (Appending(log[..|log| - 1]) + Restarting(reopenings))[0] == Appending(log[..|log| - 1])[0];
    } else {
      assert Appending(log[..0]) == [];
    }
  }

  lemma {:induction false} NothingStored(size: nat, reopenings: seq<Reopening>, cursor: nat)
    requires size > 0
    ensures ReplayStream(Stored([], size, reopenings), cursor).Success?
  {
    var steps := Appending([]) + Restarting(reopenings);
    AppendedIsLog(size, []);
    RestartsAppendNothing(size, [], reopenings);
    assert Appending([]) == [] && steps == [] + Restarting(reopenings);
    HistoryKeepsStream(size, steps);
    DurableFacts(Stored([], size, reopenings).appended);
    var st := Stored([], size, reopenings);
    assert st.rows == [];
  }

  /**
   The store keeps a run.  However small the cache and however often the store is reopened, a replay of a
   reachable run's log never expires: from any cursor it returns every durable event after it, in order,
   and nothing the run did not append.
   */
  lemma RunCanBeReplayed(
    states: seq<State>, actions: seq<Action>, maxIterations: nat, threshold: nat, k: nat, size: nat,
    reopenings: seq<Reopening>, cursor: nat)
    requires IsRun(states, actions, maxIterations, threshold) && k < |states| && size > 0
    ensures var log := states[k].run.log;
      var st := Stored(log, size, reopenings);
      && st.appended == log && (forall e :: e in st.rows <==> e in log && !e.payload.PrdDelta?)
      && ReplayStream(st, cursor).Success? && CompleteAfter(ReplayStream(st, cursor).value, st, cursor)
  {
    hide Next, Initial, HistoryOf, CompleteAfter, FromOneSource, ReplayStream, Appending, Restarting;
    EventMeaning.ReachableIsTellable(states, actions, maxIterations, threshold, k);
    ReachableOpensDurably(states, actions, maxIterations, threshold, k);
    var log := states[k].run.log;
    LogIsDense(states[k]);
    AppendedIsLog(size, log);
    RestartsAppendNothing(size, Appending(log), reopenings);
    StoreIsAlwaysComplete(size, Appending(log) + Restarting(reopenings), cursor);
    if log == [] {
      NothingStored(size, reopenings, cursor);
    } else {
      FirstAppend(log, reopenings);
      FirstDurableNeverExpires(size, Appending(log) + Restarting(reopenings), cursor);
    }
  }

  lemma LogIsDense(s: State)
    requires EventMeaning.Tellable(s)
    ensures Dense(s.run.log) && Numbered(s.run)
  {
    hide EventMeaning.DraftInv, EventMeaning.RoundInv, Next;
    NumberedIsDense(s.run);
  }

  // ----- a replay as a delivery

  lemma {:induction false} AscendingUnique(x: seq<Event>, y: seq<Event>)
    requires Ascending(x) && Ascending(y) && forall e :: e in x <==> e in y
    ensures x == y
    decreases |x|
  {
    assert (x != [] ==> x[0] in x) && (y != [] ==> y[0] in y);
    if x != [] && y != [] {
      var n, m := |x| - 1, |y| - 1;
      assert x[n] in y && y[m] in x;
      assert x[n] == y[m];
      forall e ensures e in x[..n] <==> e in y[..m] {
        assert e in x[..n] <==> e in x && e != x[n] by { FrontMembers(x, e); }
        assert e in y[..m] <==> e in y && e != y[m] by { FrontMembers(y, e); }
      }
      AscendingUnique(x[..n], y[..m]);
      assert x == x[..n] + [x[n]] && y == y[..m] + [y[m]];
    }
  }

  lemma FrontMembers(x: seq<Event>, e: Event)
    requires Ascending(x) && x != []
    ensures e in x[..|x| - 1] <==> e in x && e != x[|x| - 1]
  {
    if e in x && e != x[|x| - 1] {
      var k :| 0 <= k < |x| && x[k] == e;
      assert x[..|x| - 1][k] == e;
    }
  }

  lemma {:induction false} SurvivingMembers(events: seq<Event>, dropped: set<nat>)
    ensures forall e ::
        e in LiveView.Surviving(events, dropped) <==> e in events && !(Transient(e) && e.sequence in dropped)
  {
    hide Transient;
    if events != [] {
      SurvivingMembers(events[1..], dropped);
      assert forall e :: e in events <==> e == events[0] || e in events[1..];
    }
  }

  lemma {:induction false} SurvivingAscends(events: seq<Event>, dropped: set<nat>)
    requires Ascending(events)
    ensures Ascending(LiveView.Surviving(events, dropped))
  {
    hide Transient;
    if events != [] {
      SurvivingAscends(events[1..], dropped);
      SurvivingMembers(events[1..], dropped);
      var rest := LiveView.Surviving(events[1..], dropped);
      forall k | 0 <= k < |rest| ensures events[0].sequence < rest[k].sequence {
        assert rest[k] in events[1..];
      }
    }
  }

  /** A complete replay is the rest of the log with some of its deltas left out. */
  lemma ReplayIsSurviving(log: seq<Event>, st: Stream, found: seq<Event>, cursor: nat) returns (dropped: set<nat>)
    requires Dense(log) && cursor <= |log| && st.appended == log && CompleteAfter(found, st, cursor)
    requires forall e :: e in st.rows <==> e in log && !Transient(e)
    ensures found == LiveView.Surviving(LiveView.Since(log, cursor), dropped)
  {
    hide Transient, Ascending;
    var rest := LiveView.Since(log, cursor);
    RestOfLog(log, cursor);
    dropped := Numbers(rest) - Numbers(found);
    SurvivingMembers(rest, dropped);
    SurvivingAscends(rest, dropped);
    NumberedMembers(rest);
    NumberedMembers(found);
    forall e ensures e in found <==> e in LiveView.Surviving(rest, dropped) {
      if e in rest && e.sequence in Numbers(found) {
        var f :| f in found && f.sequence == e.sequence;
        SameNumber(log, e, f);
      }
    }
    AscendingUnique(found, LiveView.Surviving(rest, dropped));
  }

  function Numbers(events: seq<Event>): set<nat> { set e | e in events :: e.sequence }

  lemma NumberedMembers(events: seq<Event>)
    ensures forall e :: e in events ==> e.sequence in Numbers(events)
  {
  }

  lemma RestOfLog(log: seq<Event>, cursor: nat)
    requires Dense(log) && cursor <= |log|
    ensures Ascending(LiveView.Since(log, cursor))
    ensures forall e :: e in LiveView.Since(log, cursor) <==> e in log && e.sequence > cursor
  {
    forall e ensures e in log[cursor..] <==> e in log && e.sequence > cursor {
      if e in log && e.sequence > cursor {
        var k :| 0 <= k < |log| && log[k] == e;
        assert log[cursor..][k - cursor] == e;
      }
    }
  }

  lemma SameNumber(log: seq<Event>, e: Event, f: Event)
    requires Dense(log) && e in log && f in log && e.sequence == f.sequence
    ensures e == f
  {
  }

  lemma {:induction false} DeliversItself(feed: seq<Event>, seen: nat)
    ensures Delivers(feed, feed, seen)
    decreases |feed|
  {
    if feed != [] {
      DeliversItself(feed[1..], feed[0].sequence);
    }
  }
}
