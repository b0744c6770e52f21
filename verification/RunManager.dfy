/**
 The run manager (`backend/run_manager.py`): what each of its operations does to one run, as functions,
 and the class whose methods do it to the dictionaries of all runs.

 A run's event stream is kept here as its whole log; how the stores cache and persist it is the
 subject of `EventStore`.
 */
module RunManager {
  import opened Wrappers
  import opened RunTypes

  datatype Error = RunNotFound | IllegalTransition | RunTerminal | NotPausable | NotPaused | WorkflowCancelled

  datatype Run = Run(snapshot: Snapshot, log: seq<Event>, cancelSignal: bool, resumeSignal: bool)

  // ----- the commit discipline

  /** A commit that appends an event: the snapshot records the new event's sequence number. */
  function Emit(run: Run, snapshot: Snapshot, payload: Payload): Run {
    var n := |run.log| + 1;
    run.(snapshot := snapshot.(latestSequence := n), log := run.log + [Event(n, snapshot.docs.iteration, payload)])
  }

  /** `commit`: apply the mutation, then append the event when there is one. */
  function Commit(run: Run, snapshot: Snapshot, payload: Option<Payload>): Run {
    if payload.Some? then Emit(run, snapshot, payload.value) else run.(snapshot := snapshot)
  }

  /** `transition`: only along the table. */
  function Transition(run: Run, target: Status, payload: Payload): Result<Run, Error> {
    if CanTransition(run.snapshot.status, target)
    then Success(Emit(run, run.snapshot.(status := target), payload))
    else Failure(IllegalTransition)
  }

  /** `set_stage`: a pending pause or cancel keeps its status. */
  function SetStage(run: Run, target: Status): Result<Run, Error> {
    var status := run.snapshot.status;
    if status.PauseRequested? || status.CancelRequested? || status == target then Success(run)
    else Transition(run, target, StatusChanged(status, target))
  }

  // ----- user controls

  function RequestPause(run: Run): Result<Run, Error> {
    var status := run.snapshot.status;
    if Terminal(status) then Failure(RunTerminal)
    else if status.PauseRequested? || status.Paused? then Success(run)
    else if !(status.Generating? || status.Reviewing? || status.Aggregating? || status.Optimizing?)
    then Failure(NotPausable)
    else Transition(run, PauseRequested, PauseAsked(status, PauseRequested))
  }

  function EnterPaused(run: Run): Result<Run, Error> {
    match Transition(run, Paused, RunPaused)
    case Success(paused) => Success(paused.(resumeSignal := false))
    case Failure(error) => Failure(error)
  }

  function Resume(run: Run, userOverride: Option<Text>): Result<Run, Error> {
    if !run.snapshot.status.Paused? then Failure(NotPaused)
    else
      var snapshot := run.snapshot.(status := Optimizing, pendingOverride := userOverride);
      Success(Emit(run, snapshot, RunResumed(userOverride.Some?)).(resumeSignal := true))
  }

  /** First half of `cancel_run`, up to the request being on record. */
  function RequestCancel(run: Run): Result<Run, Error> {
    var status := run.snapshot.status;
    if status.Cancelled? || status.CancelRequested? then Success(run)
    else if Terminal(status) then Failure(RunTerminal)
    else Transition(run, CancelRequested, StatusChanged(status, CancelRequested))
  }

  function SignalCancel(run: Run): Run { run.(cancelSignal := true, resumeSignal := true) }

  function FinalizeCancel(run: Run): Run {
    if !run.snapshot.status.CancelRequested? then run
    else Emit(run, run.snapshot.(status := Cancelled), RunCancelled)
  }

  /** `fail_run` writes the status directly, past `require_transition`. */
  function FailRun(run: Run): Run {
    if Terminal(run.snapshot.status) then run
    else Emit(run, run.snapshot.(status := Failed), RunFailed)
  }

  // ----- spending

  function AddTimingTo(spending: Spending, timing: Timing): Spending {
    spending.(timings := spending.timings + [timing])
  }

  function Spend(spending: Spending, node: Node, usage: Usage): Spending {
    spending.(byNode := spending.byNode.Add(node, usage), total := AddUsage(spending.total, usage))
  }

  function RecordTiming(run: Run, timing: Timing): Run {
    Commit(run, run.snapshot.(spending := AddTimingTo(run.snapshot.spending, timing)), None)
  }

  function RecordUsage(run: Run, node: Node, usage: Usage): Run {
    var spending := Spend(run.snapshot.spending, node, usage);
    Emit(run, run.snapshot.(spending := spending), TelemetryUpdated(spending.total))
  }

  // ----- what every operation keeps

  /** The log numbers its events from one without a gap, and the snapshot knows the last number. */
  ghost predicate Numbered(run: Run) {
    && run.snapshot.latestSequence == |run.log|
    && forall k :: 0 <= k < |run.log| ==> run.log[k].sequence == k + 1
  }

  /** No status is left except along the table. */
  ghost predicate FollowsTable(before: Run, after: Run) {
    before.snapshot.status == after.snapshot.status || CanTransition(before.snapshot.status, after.snapshot.status)
  }

  /** Every status the manager writes, `fail_run`'s unchecked one included, follows the table. */
  lemma ManagerFollowsTable(run: Run, target: Status, payload: Payload, userOverride: Option<Text>)
    ensures Transition(run, target, payload).Success? ==> FollowsTable(run, Transition(run, target, payload).value)
    ensures SetStage(run, target).Success? ==> FollowsTable(run, SetStage(run, target).value)
    ensures RequestPause(run).Success? ==> FollowsTable(run, RequestPause(run).value)
    ensures EnterPaused(run).Success? ==> FollowsTable(run, EnterPaused(run).value)
    ensures Resume(run, userOverride).Success? ==> FollowsTable(run, Resume(run, userOverride).value)
    ensures RequestCancel(run).Success? ==> FollowsTable(run, RequestCancel(run).value)
    ensures FollowsTable(run, FinalizeCancel(run)) && FollowsTable(run, FailRun(run))
  {
    TerminalHasNoWayOut(run.snapshot.status);
  }

  /** A request to cancel is refused only by a run that already ended otherwise. */
  lemma CancelIsNeverIllegal(run: Run)
    ensures RequestCancel(run) != Failure(IllegalTransition)
    ensures RequestCancel(run).Failure? <==> Terminal(run.snapshot.status) && !run.snapshot.status.Cancelled?
    ensures RequestCancel(run).Success? ==>
        FinalizeCancel(SignalCancel(RequestCancel(run).value)).snapshot.status.Cancelled?
    ensures RequestPause(run) != Failure(IllegalTransition)
    ensures var signalled := SignalCancel(run);
      signalled.cancelSignal && signalled.resumeSignal && signalled.snapshot == run.snapshot && signalled.log == run.log
  {
  }

  /** Entering a stage gives way to a pending pause or cancel, and otherwise goes along the table, telling so. */
  lemma StageIsEntered(run: Run, target: Status)
    ensures var status := run.snapshot.status;
      && (status.PauseRequested? || status.CancelRequested? || status == target ==>
            SetStage(run, target) == Success(run))
      && (!status.PauseRequested? && !status.CancelRequested? && status != target ==>
            if !CanTransition(status, target) then SetStage(run, target) == Failure(IllegalTransition)
            else
              SetStage(run, target).Success? &&
              var staged := SetStage(run, target).value;
              && staged.snapshot.status == target && |staged.log| == |run.log| + 1
              && staged.log[|run.log|].payload == StatusChanged(status, target))
  {
    hide CanTransition;
  }

  /** Parking needs the table's leave, tells the client, and clears the signal it is about to wait for. */
  lemma ParkingIsEntered(run: Run)
    ensures EnterPaused(run).Success? <==> CanTransition(run.snapshot.status, Paused)
    ensures EnterPaused(run).Success? ==>
      var parked := EnterPaused(run).value;
      && parked.snapshot.status.Paused? && !parked.resumeSignal && parked.cancelSignal == run.cancelSignal
      && |parked.log| == |run.log| + 1 && parked.log[|run.log|].payload == RunPaused
  {
    hide CanTransition;
  }

  /** A pause is accepted exactly while the workflow is at work or a pause is already under way, and kept quiet then. */
  lemma PauseIsAccepted(run: Run)
    ensures var status := run.snapshot.status;
      && (RequestPause(run).Success? <==> Working(status) || status.PauseRequested? || status.Paused?)
      && (Working(status) ==>
            var paused := RequestPause(run).value;
            && paused.snapshot.status.PauseRequested? && |paused.log| == |run.log| + 1
            && paused.log[|run.log|].payload == PauseAsked(status, PauseRequested))
      && (RequestPause(run).Success? && !Working(status) ==> RequestPause(run).value == run)
      && (RequestPause(run).Failure? ==>
            RequestPause(run).error == (if Terminal(status) then RunTerminal else NotPausable))
  {
  }

  /** A resume is accepted exactly by a paused run; it stores the override and wakes whoever waits. */
  lemma ResumeIsAccepted(run: Run, userOverride: Option<Text>)
    ensures Resume(run, userOverride).Success? <==> run.snapshot.status.Paused?
    ensures Resume(run, userOverride).Success? ==>
      var resumed := Resume(run, userOverride).value;
      && resumed.snapshot.status.Optimizing? && resumed.snapshot.pendingOverride == userOverride
      && resumed.resumeSignal && resumed.cancelSignal == run.cancelSignal
      && resumed.snapshot.docs == run.snapshot.docs && resumed.snapshot.spending == run.snapshot.spending
  {
  }

  // ----- the class

  type RunId = nat

  /** The per-run dictionaries of the manager and of the stores it writes to. */
  class Manager {
    var snapshots: map<RunId, Snapshot>
    var logs: map<RunId, seq<Event>>
    /** The runs whose cancel (resume) event is set. */
    var cancelled: set<RunId>
    var resumed: set<RunId>

    ghost predicate Valid()
      reads this
    {
      && snapshots.Keys == logs.Keys
      && cancelled <= snapshots.Keys && resumed <= snapshots.Keys
      && AllNumbered()
    }

    ghost predicate AllNumbered()
      requires snapshots.Keys == logs.Keys
      reads this
    {
      forall id :: id in snapshots ==> Numbered(RunOf(id))
    }

    /** Everything the dictionaries hold about one run. */
    ghost function RunOf(id: RunId): Run
      requires id in snapshots && id in logs
      reads this
    {
      Run(snapshots[id], logs[id], id in cancelled, id in resumed)
    }

    /** The set of runs is the same, and only `id` may differ from before. */
    twostate predicate OnlyTouches(id: RunId)
      requires snapshots.Keys == logs.Keys && old(snapshots.Keys == logs.Keys)
      reads this
    {
      && snapshots.Keys == old(snapshots.Keys)
      && forall other :: other in snapshots && other != id ==> RunOf(other) == old(RunOf(other))
    }

    constructor ()
      ensures Valid() && snapshots == map[]
    {
      snapshots, logs, cancelled, resumed := map[], map[], {}, {};
    }

    /** `create_run`, from the stored snapshot on: a fresh log and two clear signals. */
    method CreateRun(id: RunId, snapshot: Snapshot)
      requires Valid() && id !in snapshots && snapshot.latestSequence == 0
      modifies this
      ensures Valid() && snapshots.Keys == old(snapshots.Keys) + {id}
      ensures RunOf(id) == Run(snapshot, [], false, false)
      ensures forall other :: other in old(snapshots) ==> RunOf(other) == old(RunOf(other))
    {
      snapshots := snapshots[id := snapshot];
      logs := logs[id := []];
      cancelled, resumed := cancelled - {id}, resumed - {id};
    }

    /** The event half of a commit: append to the log, number it, store the snapshot. */
    method Store(id: RunId, snapshot: Snapshot, payload: Option<Payload>)
      requires Valid() && id in snapshots
      requires payload.None? ==> snapshot.latestSequence == snapshots[id].latestSequence
      modifies this`snapshots, this`logs
      ensures Valid() && OnlyTouches(id)
      ensures RunOf(id) == Commit(old(RunOf(id)), snapshot, payload)
    {
      if payload.Some? {
        var sequence := |logs[id]| + 1;
        logs := logs[id := logs[id] + [Event(sequence, snapshot.docs.iteration, payload.value)]];
        snapshots := snapshots[id := snapshot.(latestSequence := sequence)];
      } else {
        snapshots := snapshots[id := snapshot];
      }
    }

    method TransitionTo(id: RunId, target: Status, payload: Payload) returns (r: Result<Snapshot, Error>)
      requires Valid()
      modifies this`snapshots, this`logs
      ensures Valid() && OnlyTouches(id)
      ensures id !in snapshots ==> r == Failure(RunNotFound)
      ensures id in snapshots ==> match Transition(old(RunOf(id)), target, payload)
        case Success(run) => RunOf(id) == run && r == Success(run.snapshot)
        case Failure(error) => RunOf(id) == old(RunOf(id)) && r == Failure(error)
    {
      if id !in snapshots {
        return Failure(RunNotFound);
      }
      var state := snapshots[id];
      if !CanTransition(state.status, target) {
        return Failure(IllegalTransition);
      }
      Store(id, state.(status := target), Some(payload));
      return Success(snapshots[id]);
    }

    method EnterStage(id: RunId, target: Status) returns (r: Result<Snapshot, Error>)
      requires Valid()
      modifies this`snapshots, this`logs
      ensures Valid() && OnlyTouches(id)
      ensures id !in snapshots ==> r == Failure(RunNotFound)
      ensures id in snapshots ==> match SetStage(old(RunOf(id)), target)
        case Success(run) => RunOf(id) == run && r == Success(run.snapshot)
        case Failure(error) => RunOf(id) == old(RunOf(id)) && r == Failure(error)
    {
      if id !in snapshots {
        return Failure(RunNotFound);
      }
      var state := snapshots[id];
      if state.status.PauseRequested? || state.status.CancelRequested? {
        return Success(state);
      }
      if state.status == target {
        return Success(state);
      }
      r := TransitionTo(id, target, StatusChanged(state.status, target));
    }

    method Pause(id: RunId) returns (r: Result<Snapshot, Error>)
      requires Valid()
      modifies this`snapshots, this`logs
      ensures Valid() && OnlyTouches(id)
      ensures id !in snapshots ==> r == Failure(RunNotFound)
      ensures id in snapshots ==> match RequestPause(old(RunOf(id)))
        case Success(run) => RunOf(id) == run && r == Success(run.snapshot)
        case Failure(error) => RunOf(id) == old(RunOf(id)) && r == Failure(error)
    {
      if id !in snapshots {
        return Failure(RunNotFound);
      }
      var status := snapshots[id].status;
      if Terminal(status) {
        return Failure(RunTerminal);
      }
      if status.PauseRequested? || status.Paused? {
        return Success(snapshots[id]);
      }
      if !(status.Generating? || status.Reviewing? || status.Aggregating? || status.Optimizing?) {
        return Failure(NotPausable);
      }
      r := TransitionTo(id, PauseRequested, PauseAsked(status, PauseRequested));
    }

    method Park(id: RunId) returns (r: Result<Snapshot, Error>)
      requires Valid()
      modifies this`snapshots, this`logs, this`resumed
      ensures Valid() && OnlyTouches(id)
      ensures id !in snapshots ==> r == Failure(RunNotFound)
      ensures id in snapshots ==> match EnterPaused(old(RunOf(id)))
        case Success(run) => RunOf(id) == run && r == Success(run.snapshot)
        case Failure(error) => RunOf(id) == old(RunOf(id)) && r == Failure(error)
    {
      r := TransitionTo(id, Paused, RunPaused);
      if r.Success? {
        resumed := resumed - {id};
      }
    }

    method ResumeRun(id: RunId, userOverride: Option<Text>) returns (r: Result<Snapshot, Error>)
      requires Valid()
      modifies this`snapshots, this`logs, this`resumed
      ensures Valid() && OnlyTouches(id)
      ensures id !in snapshots ==> r == Failure(RunNotFound)
      ensures id in snapshots ==> match Resume(old(RunOf(id)), userOverride)
        case Success(run) => RunOf(id) == run && r == Success(run.snapshot)
        case Failure(error) => RunOf(id) == old(RunOf(id)) && r == Failure(error)
    {
      if id !in snapshots {
        return Failure(RunNotFound);
      }
      if !snapshots[id].status.Paused? {
        return Failure(NotPaused);
      }
      var state := snapshots[id].(status := Optimizing, pendingOverride := userOverride);
      Store(id, state, Some(RunResumed(userOverride.Some?)));
      resumed := resumed + {id};
      return Success(snapshots[id]);
    }

    /** The first step of `cancel_run`: the request goes on record, unless the run already ended. */
    method AskCancel(id: RunId) returns (r: Result<Snapshot, Error>)
      requires Valid()
      modifies this`snapshots, this`logs
      ensures Valid() && OnlyTouches(id)
      ensures id !in snapshots ==> r == Failure(RunNotFound)
      ensures id in snapshots ==> match RequestCancel(old(RunOf(id)))
        case Success(run) => RunOf(id) == run && r == Success(run.snapshot)
        case Failure(error) => RunOf(id) == old(RunOf(id)) && r == Failure(error)
    {
      if id !in snapshots {
        return Failure(RunNotFound);
      }
      var status := snapshots[id].status;
      if status.Cancelled? || status.CancelRequested? {
        return Success(snapshots[id]);
      }
      if status.Completed? || status.MaxIterationsReached? || status.Failed? {
        return Failure(RunTerminal);
      }
      r := TransitionTo(id, CancelRequested, StatusChanged(status, CancelRequested));
    }

    /** The second step: wake whoever waits on either event. */
    method SetSignals(id: RunId)
      requires Valid() && id in snapshots
      modifies this`cancelled, this`resumed
      ensures Valid() && OnlyTouches(id)
      ensures RunOf(id) == SignalCancel(old(RunOf(id)))
    {
      cancelled, resumed := cancelled + {id}, resumed + {id};
    }

    /** `cancel_run` with nothing interleaved: request, signal, finalize. */
    method CancelRun(id: RunId) returns (r: Result<Snapshot, Error>)
      requires Valid()
      modifies this
      ensures Valid() && OnlyTouches(id)
      ensures id !in snapshots ==> r == Failure(RunNotFound)
      ensures id in snapshots && old(RunOf(id)).snapshot.status.Cancelled? ==>
        RunOf(id) == old(RunOf(id)) && r == Success(snapshots[id])
      ensures id in snapshots && !old(RunOf(id)).snapshot.status.Cancelled? ==> match RequestCancel(old(RunOf(id)))
        case Success(run) => RunOf(id) == FinalizeCancel(SignalCancel(run)) && r == Success(snapshots[id])
        case Failure(error) => RunOf(id) == old(RunOf(id)) && r == Failure(error)
    {
      hide RequestCancel, SignalCancel, FinalizeCancel, Numbered;
      if id !in snapshots {
        return Failure(RunNotFound);
      }
      if snapshots[id].status.Cancelled? {
        return Success(snapshots[id]);
      }
      r := AskCancel(id);
      if r.Success? {
        SetSignals(id);
        r := Finalize(id);
      }
    }

    method Finalize(id: RunId) returns (r: Result<Snapshot, Error>)
      requires Valid()
      modifies this`snapshots, this`logs
      ensures Valid() && OnlyTouches(id)
      ensures id !in snapshots ==> r == Failure(RunNotFound)
      ensures id in snapshots ==> RunOf(id) == FinalizeCancel(old(RunOf(id))) && r == Success(snapshots[id])
    {
      if id !in snapshots {
        return Failure(RunNotFound);
      }
      if snapshots[id].status.CancelRequested? {
        r := TransitionTo(id, Cancelled, RunCancelled);
      }
      return Success(snapshots[id]);
    }

    method Fail(id: RunId) returns (r: Result<Snapshot, Error>)
      requires Valid()
      modifies this`snapshots, this`logs
      ensures Valid() && OnlyTouches(id)
      ensures id !in snapshots ==> r == Failure(RunNotFound)
      ensures id in snapshots ==> RunOf(id) == FailRun(old(RunOf(id))) && r == Success(snapshots[id])
    {
      if id !in snapshots {
        return Failure(RunNotFound);
      }
      var state := snapshots[id];
      if !Terminal(state.status) {
        Store(id, state.(status := Failed), Some(RunFailed));
      }
      return Success(snapshots[id]);
    }

    method AddTiming(id: RunId, timing: Timing) returns (r: Result<Snapshot, Error>)
      requires Valid()
      modifies this`snapshots, this`logs
      ensures Valid() && OnlyTouches(id)
      ensures id !in snapshots ==> r == Failure(RunNotFound)
      ensures id in snapshots ==> RunOf(id) == RecordTiming(old(RunOf(id)), timing) && r == Success(snapshots[id])
    {
      if id !in snapshots {
        return Failure(RunNotFound);
      }
      var state := snapshots[id];
      Store(id, state.(spending := state.spending.(timings := state.spending.timings + [timing])), None);
      return Success(snapshots[id]);
    }

    method AddUsageOf(id: RunId, node: Node, usage: Usage) returns (r: Result<Snapshot, Error>)
      requires Valid()
      modifies this`snapshots, this`logs
      ensures Valid() && OnlyTouches(id)
      ensures id !in snapshots ==> r == Failure(RunNotFound)
      ensures id in snapshots ==> RunOf(id) == RecordUsage(old(RunOf(id)), node, usage) && r == Success(snapshots[id])
    {
      if id !in snapshots {
        return Failure(RunNotFound);
      }
      var state := snapshots[id];
      var total := AddUsage(state.spending.total, usage);
      var spending := state.spending.(byNode := state.spending.byNode.Add(node, usage), total := total);
      Store(id, state.(spending := spending), Some(TelemetryUpdated(total)));
      return Success(snapshots[id]);
    }
  }
}
