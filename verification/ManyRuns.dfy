/**
 Many runs under one manager: whatever calls on different runs interleave, each run sees only its own
 (`backend/run_manager.py`), and every step of the protocol is such a call.
 */
module ManyRuns {
  import opened Wrappers
  import opened RunTypes
  import opened RunManager
  import opened Workflow

  /**
   What is asked of one run; a cancel is its three steps.  `Commits` is a general commit, whose mutation may
   write anything but the number of the last event, and `Moves` a general transition.
   */
  datatype Operation =
    | Commits(mutation: Snapshot -> Snapshot, payload: Option<Payload>) | Moves(next: Status, told: Payload)
    | Stages(target: Status)
    | Pauses | Parks | Resumes(userOverride: Option<Text>)
    | AsksCancel | SignalsCancel | FinalizesCancel
    | Fails | Times(timing: Timing) | Spends(node: Node, usage: Usage)

  datatype Call = Call(id: RunId, operation: Operation)

  function Kept(run: Run, r: Result<Run, Error>): Run { if r.Success? then r.value else run }

  function Mutated(snapshot: Snapshot, mutation: Snapshot -> Snapshot): Snapshot {
    mutation(snapshot).(latestSequence := snapshot.latestSequence)
  }

  /** What an operation makes of its run; a refused one changes nothing. */
  function Operate(run: Run, operation: Operation): Run {
    match operation
    case Commits(mutation, payload) => Commit(run, Mutated(run.snapshot, mutation), payload)
    case Moves(next, told) => Kept(run, Transition(run, next, told))
    case Stages(target) => Kept(run, SetStage(run, target))
    case Pauses => Kept(run, RequestPause(run))
    case Parks => Kept(run, EnterPaused(run))
    case Resumes(userOverride) => Kept(run, Resume(run, userOverride))
    case AsksCancel => Kept(run, RequestCancel(run))
    case SignalsCancel => SignalCancel(run)
    case FinalizesCancel => FinalizeCancel(run)
    case Fails => FailRun(run)
    case Times(timing) => RecordTiming(run, timing)
    case Spends(node, usage) => RecordUsage(run, node, usage)
  }

  function OperateAll(run: Run, operations: seq<Operation>): Run {
    if operations == [] then run
    else Operate(OperateAll(run, operations[..|operations| - 1]), operations[|operations| - 1])
  }

  /** The operations asked of one run, in order. */
  function OperationsOn(calls: seq<Call>, id: RunId): seq<Operation> {
    if calls == [] then []
    else
      var last := calls[|calls| - 1];
      OperationsOn(calls[..|calls| - 1], id) + (if last.id == id then [last.operation] else [])
  }

  /** The run asked is operated on, and every other run is as it was. */
  twostate predicate Handled(manager: Manager, call: Call)
    requires manager.snapshots.Keys == manager.logs.Keys && old(manager.snapshots.Keys == manager.logs.Keys)
    reads manager
  {
    && manager.snapshots.Keys == old(manager.snapshots.Keys)
    && forall id :: id in manager.snapshots ==>
      manager.RunOf(id)
          == (if id == call.id then Operate(old(manager.RunOf(id)), call.operation) else old(manager.RunOf(id)))
  }

  predicate IsWrite(operation: Operation) {
    operation.Commits? || operation.Moves? || operation.Fails? || operation.Times? || operation.Spends?
  }

  /** One call, dispatched to the manager; a call on an unknown run changes nothing. */
  method Handle(manager: Manager, call: Call)
    requires manager.Valid()
    modifies manager
    ensures manager.Valid() && Handled(manager, call)
  {
    hide Numbered, Transition, SetStage, RequestPause, EnterPaused, Resume, RequestCancel, SignalCancel,
      FinalizeCancel, FailRun, RecordTiming, RecordUsage, Commit;
    if IsWrite(call.operation) {
      HandleWrite(manager, call);
      return;
    }
    var r: Result<Snapshot, Error>;
    match call.operation
    case Stages(target) => r := manager.EnterStage(call.id, target);
    case Pauses => r := manager.Pause(call.id);
    case Parks => r := manager.Park(call.id);
    case Resumes(userOverride) => r := manager.ResumeRun(call.id, userOverride);
    case AsksCancel => r := manager.AskCancel(call.id);
    case SignalsCancel =>
      if call.id in manager.snapshots {
        manager.SetSignals(call.id);
      }
    case FinalizesCancel => r := manager.Finalize(call.id);
    case _ => assert false;
  }

  method HandleWrite(manager: Manager, call: Call)
    requires manager.Valid() && IsWrite(call.operation)
    modifies manager
    ensures manager.Valid() && Handled(manager, call)
  {
    hide Numbered, Transition, FailRun, RecordTiming, RecordUsage, Commit;
    var r: Result<Snapshot, Error>;
    match call.operation
    case Commits(mutation, payload) =>
      if call.id in manager.snapshots {
        manager.Store(call.id, Mutated(manager.snapshots[call.id], mutation), payload);
      }
    case Moves(next, told) => r := manager.TransitionTo(call.id, next, told);
    case Fails => r := manager.Fail(call.id);
    case Times(timing) => r := manager.AddTiming(call.id, timing);
    case Spends(node, usage) => r := manager.AddUsageOf(call.id, node, usage);
    case _ => assert false;
  }

  /**
   Isolation.  After any interleaving of calls on any runs, each run is what the calls on it alone, in
   their order, make of it.
   */
  method HandleAll(manager: Manager, calls: seq<Call>)
    requires manager.Valid()
    modifies manager
    ensures manager.Valid() && manager.snapshots.Keys == old(manager.snapshots.Keys)
    ensures forall id :: id in manager.snapshots ==>
      manager.RunOf(id) == OperateAll(old(manager.RunOf(id)), OperationsOn(calls, id))
  {
    hide Operate, Numbered;
    for i := 0 to |calls|
      invariant manager.Valid() && manager.snapshots.Keys == old(manager.snapshots.Keys)
      invariant forall id :: id in manager.snapshots ==>
        manager.RunOf(id) == OperateAll(old(manager.RunOf(id)), OperationsOn(calls[..i], id))
    {
      assert calls[..i + 1][..i] == calls[..i];
      Handle(manager, calls[i]);
      forall id | id in manager.snapshots
        ensures manager.RunOf(id) == OperateAll(old(manager.RunOf(id)), OperationsOn(calls[..i + 1], id))
      {
        OneMoreCall(old(manager.RunOf(id)), calls[..i], calls[i], id);
        assert calls[..i + 1] == calls[..i] + [calls[i]];
      }
    }
    assert calls[..|calls|] == calls;
  }

  lemma OneMoreCall(run: Run, calls: seq<Call>, call: Call, id: RunId)
    ensures var before := OperateAll(run, OperationsOn(calls, id));
      OperateAll(run, OperationsOn(calls + [call], id)) == if call.id == id then Operate(before, call.operation)
          else before
  {
    hide Operate;
    assert (calls + [call])[..|calls|] == calls;
    var operations := OperationsOn(calls, id);
    assert (operations + [call.operation])[..|operations|] == operations;
    assert operations + [] == operations;
  }

  /** The operation behind a user's step. */
  function OperationOf(a: Action): Operation
    requires !a.Work? && !a.Review?
  {
    match a
    case UserPause => Pauses
    case UserResume(userOverride) => Resumes(userOverride)
    case UserCancelAsks => AsksCancel
    case UserCancelSignals => SignalsCancel
    case UserCancelFinalizes => FinalizesCancel
  }

  /** A user's step of the protocol does to its run what the manager's operation does. */
  lemma UserStepsAreOperations(s: State, a: Action)
    requires !a.Work? && !a.Review? && UserStep(s, a).Some?
    ensures UserStep(s, a).value.run == Operate(s.run, OperationOf(a))
  {
    hide CanTransition, Emit;
  }

  /** A general commit leaves status and spending to the operations that are made for them. */
  ghost predicate Proper(operation: Operation, run: Run) {
    operation.Commits? ==>
      var after := Mutated(run.snapshot, operation.mutation);
      after.status == run.snapshot.status && after.spending == run.snapshot.spending
  }

  /** Every operation keeps the log numbered and the status on the table. */
  lemma OperationsKeepRuns(run: Run, operation: Operation)
    requires Numbered(run) && Proper(operation, run)
    ensures Numbered(Operate(run, operation)) && FollowsTable(run, Operate(run, operation))
  {
    TerminalHasNoWayOut(run.snapshot.status);
  }

  // ----- the protocol's steps as operations

  /** `after` is `before`, or what one proper operation makes of it. */
  ghost predicate OneOperation(before: Run, after: Run) {
    after == before || exists operation :: Proper(operation, before) && Operate(before, operation) == after
  }

  /** What the workflow calls besides general commits. */
  lemma CallsAreOne(run: Run)
    ensures forall target ::
      SetStage(run, target).Success? ==> OneOperation(run, SetStage(run, target).value)
    ensures forall next, told ::
      Transition(run, next, told).Success? ==> OneOperation(run, Transition(run, next, told).value)
    ensures EnterPaused(run).Success? ==> OneOperation(run, EnterPaused(run).value)
    ensures OneOperation(run, FinalizeCancel(run)) && OneOperation(run, FailRun(run))
    ensures forall timing :: OneOperation(run, RecordTiming(run, timing))
    ensures forall node, usage :: OneOperation(run, RecordUsage(run, node, usage))
  {
    hide Transition, SetStage, EnterPaused, FinalizeCancel, FailRun, RecordTiming, RecordUsage;
    forall target | SetStage(run, target).Success? ensures OneOperation(run, SetStage(run, target).value) {
      assert Proper(Stages(target), run) && Operate(run, Stages(target)) == SetStage(run, target).value;
    }
    forall next, told | Transition(run, next, told).Success?
      ensures OneOperation(run, Transition(run, next, told).value)
    {
      assert Proper(Moves(next, told), run) && Operate(run, Moves(next, told)) == Transition(run, next, told).value;
    }
    assert Proper(Parks, run) && Operate(run, Parks) == Kept(run, EnterPaused(run));
    assert Proper(FinalizesCancel, run) && Operate(run, FinalizesCancel) == FinalizeCancel(run);
    assert Proper(Fails, run) && Operate(run, Fails) == FailRun(run);
    forall timing ensures OneOperation(run, RecordTiming(run, timing)) {
      assert Proper(Times(timing), run) && Operate(run, Times(timing)) == RecordTiming(run, timing);
    }
    forall node, usage ensures OneOperation(run, RecordUsage(run, node, usage)) {
      assert Proper(Spends(node, usage), run) && Operate(run, Spends(node, usage)) == RecordUsage(run, node, usage);
    }
  }

  /** A commit that leaves status, spending and signals alone, with an event or without. */
  ghost predicate Written(before: Run, after: Run) {
    var n := |before.log|;
    && after == before.(snapshot := after.snapshot, log := after.log)
    && after.snapshot.status == before.snapshot.status && after.snapshot.spending == before.snapshot.spending
    && if |after.log| == n
       then after.log == before.log && after.snapshot.latestSequence == before.snapshot.latestSequence
       else
         && |after.log| == n + 1 && after.log[..n] == before.log && after.snapshot.latestSequence == n + 1
         && after.log[n].sequence == n + 1 && after.log[n].iteration == after.snapshot.docs.iteration
  }

  lemma WrittenIsOne(before: Run, after: Run)
    requires Written(before, after)
    ensures OneOperation(before, after)
  {
    var n := |before.log|;
    var payload := if |after.log| == n then None else Some(after.log[n].payload);
    var operation := Commits(_ => after.snapshot, payload);
    assert |after.log| > n ==> after.log == before.log + [after.log[n]];
    assert Proper(operation, before) && Operate(before, operation) == after;
  }

  lemma SameIsOne(run: Run)
    ensures OneOperation(run, run)
  {
  }

  lemma BeginIsOne(s: State, g: GenLocals, attempt: nat)
    ensures OneOperation(s.run, BeginStream(s, g, attempt).run)
  {
    hide OneOperation;
    WrittenIsOne(s.run, BeginStream(s, g, attempt).run);
  }

  lemma EntryIsOne(s: State, s': State, input: Input)
    requires EntryStep(s, input) == Some(s')
    ensures OneOperation(s.run, s'.run)
  {
    hide OneOperation, SetStage, BeginStream;
    CallsAreOne(s.run);
    SameIsOne(s.run);
    if s.pc.GenBegin? {
      BeginIsOne(s, s.pc.g, s.pc.attempt);
    } else if Written(s.run, s'.run) {
      WrittenIsOne(s.run, s'.run);
    }
  }

  lemma StreamIsOne(s: State, s': State, input: Input)
    requires StreamStep(s, input) == Some(s')
    ensures OneOperation(s.run, s'.run)
  {
    hide OneOperation, RecordTiming, RecordUsage;
    CallsAreOne(s.run);
    SameIsOne(s.run);
    if Written(s.run, s'.run) {
      WrittenIsOne(s.run, s'.run);
    }
  }

  lemma FinishIsOne(s: State, s': State, input: Input)
    requires FinishStep(s, input) == Some(s')
    ensures OneOperation(s.run, s'.run)
  {
    hide OneOperation, SetStage, RecordTiming, RecordUsage;
    CallsAreOne(s.run);
    SameIsOne(s.run);
    if Written(s.run, s'.run) {
      WrittenIsOne(s.run, s'.run);
    }
  }

  lemma AggregatorIsOne(s: State, s': State, input: Input)
    requires AggregatorStep(s, input) == Some(s')
    ensures OneOperation(s.run, s'.run)
  {
    hide OneOperation, SetStage, Aggregated, EvaluateReviews, AllReviewed, ScoresPayload;
    CallsAreOne(s.run);
    SameIsOne(s.run);
    if Written(s.run, s'.run) {
      WrittenIsOne(s.run, s'.run);
    }
  }

  lemma RouteIsOne(s: State, s': State, input: Input)
    requires RouteStep(s, input) == Some(s')
    ensures OneOperation(s.run, s'.run)
  {
    hide OneOperation, SetStage, Transition, EnterPaused, OutcomeOf, GatePassed;
    CallsAreOne(s.run);
    SameIsOne(s.run);
    if Written(s.run, s'.run) {
      WrittenIsOne(s.run, s'.run);
    }
  }

  lemma ParkIsOne(s: State, s': State, input: Input)
    requires ParkStep(s, input) == Some(s')
    ensures OneOperation(s.run, s'.run)
  {
    hide OneOperation, SetStage, EnterPaused;
    CallsAreOne(s.run);
    SameIsOne(s.run);
    if Written(s.run, s'.run) {
      WrittenIsOne(s.run, s'.run);
    }
  }

  lemma PlanIsOne(s: State, s': State, input: Input)
    requires PlanStep(s, input) == Some(s')
    ensures OneOperation(s.run, s'.run)
  {
    hide OneOperation, SetStage, RecordTiming, RecordUsage, ValidatedStructured;
    CallsAreOne(s.run);
    SameIsOne(s.run);
    if Written(s.run, s'.run) {
      WrittenIsOne(s.run, s'.run);
    }
  }

  lemma CloseIsOne(s: State, s': State, input: Input)
    requires CloseStep(s, input) == Some(s')
    ensures OneOperation(s.run, s'.run)
  {
    hide OneOperation, FinalizeCancel, FailRun;
    CallsAreOne(s.run);
    SameIsOne(s.run);
    if Written(s.run, s'.run) {
      WrittenIsOne(s.run, s'.run);
    }
  }

  lemma FinishReviewIsOne(s: State, role: Role, iteration: nat, review: RunTypes.Review, usage: Usage)
    ensures OneOperation(s.run, FinishReview(s, role, iteration, review, usage).run)
  {
    hide OneOperation;
    WrittenIsOne(s.run, FinishReview(s, role, iteration, review, usage).run);
  }

  lemma ReviewIsOne(s: State, s': State, role: Role, input: Input)
    requires ReviewStep(s, role, input) == Some(s')
    ensures OneOperation(s.run, s'.run)
  {
    hide OneOperation, RecordTiming, RecordUsage, ValidatedStructured, FinishReview;
    var before := s.reviewers.Get(role);
    CallsAreOne(s.run);
    SameIsOne(s.run);
    if before.RevCommit? {
      FinishReviewIsOne(s, role, before.iteration, before.review, before.used);
    } else if Written(s.run, s'.run) {
      WrittenIsOne(s.run, s'.run);
    }
  }

  /** Every step of the protocol, the user's included, is at most one operation of the manager on its run. */
  lemma StepIsOneOperation(s: State, a: Action)
    requires Next(s, a).Some?
    ensures OneOperation(s.run, Next(s, a).value.run)
  {
    hide OneOperation, EntryStep, StreamStep, FinishStep, AggregatorStep, RouteStep, ParkStep, PlanStep, CloseStep,
      ReviewStep, UserStep;
    var s' := Next(s, a).value;
    match a
    case Work(input) =>
      match PhaseOf(s.pc) {
        case Entering => EntryIsOne(s, s', input);
        case Streaming => StreamIsOne(s, s', input);
        case Finishing => FinishIsOne(s, s', input);
        case InReview => SameIsOne(s.run);
        case Scoring => AggregatorIsOne(s, s', input);
        case Routing => RouteIsOne(s, s', input);
        case Parking => ParkIsOne(s, s', input);
        case Planning => PlanIsOne(s, s', input);
        case Closing => CloseIsOne(s, s', input);
      }
    case Review(role, input) => ReviewIsOne(s, s', role, input);
    case _ => UserIsOne(s, s', a);
  }

  lemma UserIsOne(s: State, s': State, a: Action)
    requires !a.Work? && !a.Review? && UserStep(s, a) == Some(s')
    ensures OneOperation(s.run, s'.run)
  {
    hide Operate, UserStep;
    UserStepsAreOperations(s, a);
    assert Proper(OperationOf(a), s.run) && Operate(s.run, OperationOf(a)) == s'.run;
  }

  /** Each operation, on the run as it then is, is a proper one. */
  ghost predicate AllProper(run: Run, operations: seq<Operation>) {
    operations == [] ||
    var front := operations[..|operations| - 1];
    AllProper(run, front) && Proper(operations[|operations| - 1], OperateAll(run, front))
  }

  /**
   A run of the protocol is a sequence of the manager's operations on one run.  With `HandleAll`, whatever
   else the manager is asked meanwhile, each run's protocol goes as if it were alone.
   */
  lemma {:induction false} RunIsOperations(
    states: seq<State>, actions: seq<Action>, maxIterations: nat, threshold: nat, k: nat)
    returns (operations: seq<Operation>)
    requires IsRun(states, actions, maxIterations, threshold) && k < |states|
    ensures |operations| <= k && AllProper(states[0].run, operations)
    ensures OperateAll(states[0].run, operations) == states[k].run
  {
    hide Next, Initial, Operate, Proper;
    if k == 0 {
      return [];
    }
    operations := RunIsOperations(states, actions, maxIterations, threshold, k - 1);
    assert Next(states[k - 1], actions[k - 1]) == Some(states[k]);
    StepIsOneOperation(states[k - 1], actions[k - 1]);
    var before := states[k - 1].run;
    if states[k].run != before {
      var operation :| Proper(operation, before) && Operate(before, operation) == states[k].run;
      var longer := operations + [operation];
      assert longer[..|longer| - 1] == operations;
      operations := longer;
    }
  }
}
