/**
 Which status a run can show where, and why the workflow's transitions are never refused
 (`backend/state_machine.py`, `backend/run_manager.py`, `backend/workflow.py`).
 */
module StatusSafety {
  import opened Wrappers
  import opened RunTypes
  import opened RunManager
  import opened Workflow

  // ----- the invariant

  /** The stage the workflow set, or a pause asked for since. */
  predicate StageOrPause(status: Status, stage: Status) { status == stage || status.PauseRequested? }

  /** In a wait, the resume event is set exactly when the status has moved on from `PAUSED`. */
  predicate WaitingStatus(status: Status, resumed: bool) {
    if resumed then StageOrPause(status, Optimizing) else status.Paused?
  }

  /** The statuses possible at each point of the workflow while nobody has asked for a cancel. */
  predicate StatusFits(pc: Pc, status: Status, resumed: bool) {
    match pc
    case Start => status.Queued?
    case GenEnter => status.Queued? || StageOrPause(status, Generating)
    case Reviews => StageOrPause(status, Reviewing)
    case AggEnter => StageOrPause(status, Reviewing)
    case AggMark => StageOrPause(status, Aggregating)
    case AggCommit => StageOrPause(status, Aggregating)
    case AggDecide(_, seen) => StageOrPause(status, Aggregating) && (seen.PauseRequested? ==> status.PauseRequested?)
    case AggWait => WaitingStatus(status, resumed)
    case OptWait => WaitingStatus(status, resumed)
    case OptWaitAgain => WaitingStatus(status, resumed)
    case AggRoute => StageOrPause(status, Optimizing) || status.Completed? || status.MaxIterationsReached?
    case OptPause => status.PauseRequested?
    case OptPauseAgain => status.PauseRequested?
    case Ending(cause) => cause.Faulted? && !Terminal(status) && !status.Paused?
    case Done => Terminal(status)
    case _ => StageOrPause(status, if PhaseOf(pc).Parking? || PhaseOf(pc).Planning? then Optimizing else Generating)
  }

  predicate FaultsOnly(reviewer: RevPc) { reviewer.RevRaised? ==> reviewer.cause.Faulted? }

  /** After a cancel was asked for, the status is on its way out. */
  predicate Leaving(status: Status) { status.CancelRequested? || status.Cancelled? || status.Failed? }

  ghost predicate StatusInv(s: State) {
    var status := s.run.snapshot.status;
    && (s.everCancelled ==> Leaving(status))
    && (s.everCancelled && status.Failed? ==> s.pc.Done?)
    && (s.everCancelled && s.pc.Done? ==> Terminal(status))
    && (!s.everCancelled ==>
          && !s.run.cancelSignal && s.askedCancels == 0 && s.signalledCancels == 0
          && !status.CancelRequested? && !status.Cancelled?
          && StatusFits(s.pc, status, s.run.resumeSignal)
          && FaultsOnly(s.reviewers.tech) && FaultsOnly(s.reviewers.ux) && FaultsOnly(s.reviewers.biz))
    && (s.askedCancels + s.signalledCancels > 0 ==> s.everCancelled)
    && (s.everCancelled && s.askedCancels == 0 ==> s.run.cancelSignal)
    && (status.Cancelled? || s.signalledCancels > 0 || s.pc == Ending(CancelSeen) ==> s.run.cancelSignal)
    && (CancelRaised(s.reviewers.tech) || CancelRaised(s.reviewers.ux) || CancelRaised(s.reviewers.biz) ==>
        s.run.cancelSignal)
  }

  predicate CancelRaised(reviewer: RevPc) { reviewer == RevRaised(CancelSeen) }

  // ----- what the manager's moves do to status and signals

  lemma TransitionFacts(run: Run, target: Status, payload: Payload)
    ensures Transition(run, target, payload).Success? <==> CanTransition(run.snapshot.status, target)
    ensures Transition(run, target, payload).Success? ==>
      var moved := Transition(run, target, payload).value;
      && moved.snapshot.status == target
      && moved.cancelSignal == run.cancelSignal && moved.resumeSignal == run.resumeSignal
  {
    hide CanTransition;
  }

  lemma StageFacts(run: Run, target: Status)
    ensures var status := run.snapshot.status;
      var stays := status.PauseRequested? || status.CancelRequested? || status == target;
      && (SetStage(run, target).Success? <==> stays || CanTransition(status, target))
      && (SetStage(run, target).Success? ==>
            var moved := SetStage(run, target).value;
            && moved.snapshot.status == (if stays then status else target)
            && moved.cancelSignal == run.cancelSignal && moved.resumeSignal == run.resumeSignal)
  {
    hide CanTransition;
  }

  lemma PausedFacts(run: Run)
    ensures EnterPaused(run).Success? <==> CanTransition(run.snapshot.status, Paused)
    ensures EnterPaused(run).Success? ==>
      var moved := EnterPaused(run).value;
      moved.snapshot.status == Paused && moved.cancelSignal == run.cancelSignal && !moved.resumeSignal
  {
    hide CanTransition;
  }

  // ----- every step keeps it

  lemma EntryCheckKeepsStatus(s: State, input: Input)
    requires (s.pc.GenEnter?) && StatusInv(s) && EntryStep(s, input).Some?
    ensures StatusInv(EntryStep(s, input).value)
    ensures FollowsTable(s.run, EntryStep(s, input).value.run)
  {
  }

  lemma EntryOpenKeepsStatus(s: State, input: Input)
    requires (s.pc.Start? || s.pc.GenMark? || s.pc.GenBegin?) && StatusInv(s) && EntryStep(s, input).Some?
    ensures StatusInv(EntryStep(s, input).value)
    ensures FollowsTable(s.run, EntryStep(s, input).value.run)
  {
  }

  lemma EntryKeepsStatus(s: State, input: Input)
    requires StatusInv(s) && EntryStep(s, input).Some?
    ensures StatusInv(EntryStep(s, input).value)
    ensures FollowsTable(s.run, EntryStep(s, input).value.run)
  {
    hide StatusInv, FollowsTable;
    if s.pc.GenEnter? {
      EntryCheckKeepsStatus(s, input);
    } else {
      EntryOpenKeepsStatus(s, input);
    }
  }

  lemma ReceiveKeepsStatus(s: State, input: Input)
    requires s.pc.GenStream? && StatusInv(s) && StreamStep(s, input).Some?
    ensures StatusInv(StreamStep(s, input).value)
    ensures FollowsTable(s.run, StreamStep(s, input).value.run)
  {
    hide CanTransition, RecordTiming, RecordUsage, RetryOrRaise;
  }

  lemma RetryKeepsStatus(s: State, input: Input)
    requires !s.pc.GenStream? && StatusInv(s) && StreamStep(s, input).Some?
    ensures StatusInv(StreamStep(s, input).value)
    ensures FollowsTable(s.run, StreamStep(s, input).value.run)
  {
    hide CanTransition, Spend, AddTimingTo, FlushDelta;
  }

  lemma StreamKeepsStatus(s: State, input: Input)
    requires StatusInv(s) && StreamStep(s, input).Some?
    ensures StatusInv(StreamStep(s, input).value)
    ensures FollowsTable(s.run, StreamStep(s, input).value.run)
  {
    hide StatusInv, FollowsTable, StreamStep;
    if s.pc.GenStream? {
      ReceiveKeepsStatus(s, input);
    } else {
      RetryKeepsStatus(s, input);
    }
  }

  lemma GenerateKeepsStatus(s: State, input: Input)
    requires s.pc.GenCommit? && StatusInv(s) && FinishStep(s, input).Some?
    ensures StatusInv(FinishStep(s, input).value)
    ensures FollowsTable(s.run, FinishStep(s, input).value.run)
  {
    hide CanTransition, SetStage, RecordUsage, RecordTiming;
  }

  lemma RecordKeepsStatus(s: State, input: Input)
    requires !s.pc.GenCommit? && StatusInv(s) && FinishStep(s, input).Some?
    ensures StatusInv(FinishStep(s, input).value)
    ensures FollowsTable(s.run, FinishStep(s, input).value.run)
  {
    hide FinishGeneration, Spend, AddTimingTo, SetStage;
    StageFacts(s.run, Reviewing);
  }

  lemma FinishKeepsStatus(s: State, input: Input)
    requires StatusInv(s) && FinishStep(s, input).Some?
    ensures StatusInv(FinishStep(s, input).value)
    ensures FollowsTable(s.run, FinishStep(s, input).value.run)
  {
    hide StatusInv, FollowsTable, FinishStep;
    if s.pc.GenCommit? {
      GenerateKeepsStatus(s, input);
    } else {
      RecordKeepsStatus(s, input);
    }
  }

  lemma JoinKeepsStatus(s: State, input: Input)
    requires StatusInv(s) && s.pc.Reviews? && JoinStep(s, input).Some?
    ensures StatusInv(JoinStep(s, input).value)
    ensures FollowsTable(s.run, JoinStep(s, input).value.run)
  {
  }

  lemma AggregateKeepsStatus(s: State)
    requires s.pc.AggCommit? && StatusInv(s)
    ensures StatusInv(AggregateStep(s))
    ensures FollowsTable(s.run, AggregateStep(s).run)
  {
    hide Aggregated, EvaluateReviews, ScoresPayload, AllReviewed, CanTransition;
  }

  lemma AggregatorKeepsStatus(s: State, input: Input)
    requires StatusInv(s) && AggregatorStep(s, input).Some?
    ensures StatusInv(AggregatorStep(s, input).value)
    ensures FollowsTable(s.run, AggregatorStep(s, input).value.run)
  {
    hide AggregateStep, SetStage;
    StageFacts(s.run, Aggregating);
    if s.pc.AggCommit? {
      AggregateKeepsStatus(s);
    }
  }

  lemma RouteDecidedKeepsStatus(s: State, input: Input)
    requires (s.pc.AggDecide?) && StatusInv(s) && RouteStep(s, input).Some?
    ensures StatusInv(RouteStep(s, input).value)
    ensures FollowsTable(s.run, RouteStep(s, input).value.run)
  {
    hide GatePassed, OutcomeOf, Transition, SetStage, EnterPaused;
    var outcome := OutcomeOf(s.run.snapshot.docs, s.pc.evaluation);
    TransitionFacts(s.run, Completed, RunCompleted(outcome));
    TransitionFacts(s.run, MaxIterationsReached, BudgetSpent(outcome));
    PausedFacts(s.run);
    StageFacts(s.run, Optimizing);
  }

  lemma RouteOnwardKeepsStatus(s: State, input: Input)
    requires (s.pc.AggWait? || s.pc.AggRoute?) && StatusInv(s) && RouteStep(s, input).Some?
    ensures StatusInv(RouteStep(s, input).value)
    ensures FollowsTable(s.run, RouteStep(s, input).value.run)
  {
    hide DecideStep, CanTransition;
  }

  lemma RouteKeepsStatus(s: State, input: Input)
    requires StatusInv(s) && RouteStep(s, input).Some?
    ensures StatusInv(RouteStep(s, input).value)
    ensures FollowsTable(s.run, RouteStep(s, input).value.run)
  {
    hide StatusInv, FollowsTable;
    if s.pc.AggDecide? {
      RouteDecidedKeepsStatus(s, input);
    } else {
      RouteOnwardKeepsStatus(s, input);
    }
  }

  lemma ParkFirstKeepsStatus(s: State, input: Input)
    requires (s.pc.OptEnter? || s.pc.OptPause? || s.pc.OptWait?) && StatusInv(s) && ParkStep(s, input).Some?
    ensures StatusInv(ParkStep(s, input).value)
    ensures FollowsTable(s.run, ParkStep(s, input).value.run)
  {
    hide SetStage, EnterPaused;
    PausedFacts(s.run);
  }

  lemma ParkStageKeepsStatus(s: State, input: Input)
    requires (s.pc.OptStage? || s.pc.OptStageAgain?) && StatusInv(s) && ParkStep(s, input).Some?
    ensures StatusInv(ParkStep(s, input).value)
    ensures FollowsTable(s.run, ParkStep(s, input).value.run)
  {
    hide EnterPaused, WakeStep, SetStage;
    StageFacts(s.run, Optimizing);
  }

  lemma ParkAgainKeepsStatus(s: State, input: Input)
    requires (s.pc.OptPauseAgain? || s.pc.OptWaitAgain?) && StatusInv(s) && ParkStep(s, input).Some?
    ensures StatusInv(ParkStep(s, input).value)
    ensures FollowsTable(s.run, ParkStep(s, input).value.run)
  {
    hide SetStage, EnterPaused;
    PausedFacts(s.run);
  }

  lemma ParkKeepsStatus(s: State, input: Input)
    requires StatusInv(s) && ParkStep(s, input).Some?
    ensures StatusInv(ParkStep(s, input).value)
    ensures FollowsTable(s.run, ParkStep(s, input).value.run)
  {
    hide StatusInv, FollowsTable;
    if s.pc.OptEnter? || s.pc.OptPause? || s.pc.OptWait? {
      ParkFirstKeepsStatus(s, input);
    } else if s.pc.OptStage? || s.pc.OptStageAgain? {
      ParkStageKeepsStatus(s, input);
    } else {
      ParkAgainKeepsStatus(s, input);
    }
  }

  lemma PlanCallKeepsStatus(s: State, input: Input)
    requires (s.pc.OptMark? || s.pc.OptCall?) && StatusInv(s) && PlanStep(s, input).Some?
    ensures StatusInv(PlanStep(s, input).value)
    ensures FollowsTable(s.run, PlanStep(s, input).value.run)
  {
    hide RecordUsage, RecordTiming, FinishOptimizer, ValidatedStructured, CanTransition;
  }

  lemma PlanCommitKeepsStatus(s: State, input: Input)
    requires s.pc.OptCommit? && StatusInv(s) && PlanStep(s, input).Some?
    ensures StatusInv(PlanStep(s, input).value)
    ensures FollowsTable(s.run, PlanStep(s, input).value.run)
  {
    hide RecordTiming, RecordUsage, SetStage, CanTransition;
  }

  lemma PlanRecordKeepsStatus(s: State, input: Input)
    requires (s.pc.OptUsage? || s.pc.OptTiming? || s.pc.OptStageNext?) && StatusInv(s) && PlanStep(s, input).Some?
    ensures StatusInv(PlanStep(s, input).value)
    ensures FollowsTable(s.run, PlanStep(s, input).value.run)
  {
    hide Spend, AddTimingTo, FinishOptimizer, SetStage;
    StageFacts(s.run, Generating);
  }

  lemma PlanKeepsStatus(s: State, input: Input)
    requires StatusInv(s) && PlanStep(s, input).Some?
    ensures StatusInv(PlanStep(s, input).value)
    ensures FollowsTable(s.run, PlanStep(s, input).value.run)
  {
    hide StatusInv, FollowsTable;
    if s.pc.OptMark? || s.pc.OptCall? {
      PlanCallKeepsStatus(s, input);
    } else if s.pc.OptCommit? {
      PlanCommitKeepsStatus(s, input);
    } else {
      PlanRecordKeepsStatus(s, input);
    }
  }

  lemma CloseKeepsStatus(s: State, input: Input)
    requires StatusInv(s) && CloseStep(s, input).Some?
    ensures StatusInv(CloseStep(s, input).value)
    ensures FollowsTable(s.run, CloseStep(s, input).value.run)
  {
    TerminalHasNoWayOut(s.run.snapshot.status);
  }

  lemma ReviewCallKeepsStatus(s: State, role: Role, input: Input)
    requires s.reviewers.Get(role).RevEnter? || s.reviewers.Get(role).RevCall?
    requires StatusInv(s) && ReviewStep(s, role, input).Some?
    ensures StatusInv(ReviewStep(s, role, input).value)
    ensures FollowsTable(s.run, ReviewStep(s, role, input).value.run)
  {
    hide ValidatedStructured, StatusFits;
  }

  lemma ReviewCommitKeepsStatus(s: State, role: Role, input: Input)
    requires !(s.reviewers.Get(role).RevEnter? || s.reviewers.Get(role).RevCall?)
    requires StatusInv(s) && ReviewStep(s, role, input).Some?
    ensures StatusInv(ReviewStep(s, role, input).value)
    ensures FollowsTable(s.run, ReviewStep(s, role, input).value.run)
  {
    hide Spend, AddTimingTo, StatusFits;
  }

  lemma ReviewKeepsStatus(s: State, role: Role, input: Input)
    requires StatusInv(s) && ReviewStep(s, role, input).Some?
    ensures StatusInv(ReviewStep(s, role, input).value)
    ensures FollowsTable(s.run, ReviewStep(s, role, input).value.run)
  {
    hide StatusInv, FollowsTable;
    if s.reviewers.Get(role).RevEnter? || s.reviewers.Get(role).RevCall? {
      ReviewCallKeepsStatus(s, role, input);
    } else {
      ReviewCommitKeepsStatus(s, role, input);
    }
  }

  lemma PauseKeepsStatus(s: State, a: Action)
    requires StatusInv(s) && (a.UserPause? || a.UserResume?)
    ensures StatusInv(UserStep(s, a).value)
    ensures FollowsTable(s.run, UserStep(s, a).value.run)
  {
    hide RequestCancel, FinalizeCancel;
  }

  lemma CancelKeepsStatus(s: State, a: Action)
    requires StatusInv(s) && !a.Work? && !a.Review? && !a.UserPause? && !a.UserResume? && UserStep(s, a).Some?
    ensures StatusInv(UserStep(s, a).value)
    ensures FollowsTable(s.run, UserStep(s, a).value.run)
  {
    hide RequestPause, Resume;
  }

  lemma UserKeepsStatus(s: State, a: Action)
    requires StatusInv(s) && !a.Work? && !a.Review? && UserStep(s, a).Some?
    ensures StatusInv(UserStep(s, a).value)
    ensures FollowsTable(s.run, UserStep(s, a).value.run)
  {
    hide StatusInv, FollowsTable, UserStep;
    if a.UserPause? || a.UserResume? {
      PauseKeepsStatus(s, a);
    } else {
      CancelKeepsStatus(s, a);
    }
  }

  /** One step keeps the invariant, and writes a status only along the table. */
  lemma StepKeepsStatus(s: State, a: Action)
    requires StatusInv(s) && Next(s, a).Some?
    ensures StatusInv(Next(s, a).value)
    ensures FollowsTable(s.run, Next(s, a).value.run)
  {
    hide StatusInv, FollowsTable, EntryStep, StreamStep, FinishStep, JoinStep, AggregatorStep, RouteStep, ParkStep,
      PlanStep, CloseStep, ReviewStep, UserStep;
    match a
    case Work(input) =>
      match PhaseOf(s.pc) {
        case Entering => EntryKeepsStatus(s, input);
        case Streaming => StreamKeepsStatus(s, input);
        case Finishing => FinishKeepsStatus(s, input);
        case InReview => JoinKeepsStatus(s, input);
        case Scoring => AggregatorKeepsStatus(s, input);
        case Routing => RouteKeepsStatus(s, input);
        case Parking => ParkKeepsStatus(s, input);
        case Planning => PlanKeepsStatus(s, input);
        case Closing => CloseKeepsStatus(s, input);
      }
    case Review(role, input) => ReviewKeepsStatus(s, role, input);
    case _ => UserKeepsStatus(s, a);
  }

  // ----- over whole runs

  lemma {:induction false} RunKeepsStatus(
    states: seq<State>, actions: seq<Action>, maxIterations: nat, threshold: nat, k: nat)
    requires IsRun(states, actions, maxIterations, threshold) && k < |states|
    ensures StatusInv(states[k])
  {
    hide Next;
    if k > 0 {
      RunKeepsStatus(states, actions, maxIterations, threshold, k - 1);
      assert Next(states[k - 1], actions[k - 1]) == Some(states[k]);
      StepKeepsStatus(states[k - 1], actions[k - 1]);
    }
  }

  /**
   Whatever pauses and resumes interleave, while no cancel was asked for no transition the workflow
   asks of the table is refused.
   */
  lemma NoTransitionIsRefused(states: seq<State>, actions: seq<Action>, maxIterations: nat, threshold: nat, k: nat)
    requires IsRun(states, actions, maxIterations, threshold) && k < |states|
    requires !states[k].everCancelled
    ensures states[k].pc != Ending(Illegal)
    ensures forall role :: states[k].reviewers.Get(role) != RevRaised(Illegal)
  {
    RunKeepsStatus(states, actions, maxIterations, threshold, k);
  }

  /** Over all runs every status write follows the table, so a terminal status is never left. */
  lemma {:induction false} TerminalIsForever(
    states: seq<State>, actions: seq<Action>, maxIterations: nat, threshold: nat, j: nat, k: nat)
    requires IsRun(states, actions, maxIterations, threshold) && j <= k < |states|
    ensures k > 0 ==> FollowsTable(states[k - 1].run, states[k].run)
    ensures Terminal(states[j].run.snapshot.status) ==> states[k].run.snapshot.status == states[j].run.snapshot.status
    decreases k
  {
    if k > 0 {
      RunKeepsStatus(states, actions, maxIterations, threshold, k - 1);
      StepInRunFollowsTable(states, actions, maxIterations, threshold, k - 1);
      if j < k {
        TerminalIsForever(states, actions, maxIterations, threshold, j, k - 1);
        TerminalHasNoWayOut(states[k - 1].run.snapshot.status);
      }
    }
  }

  lemma StepInRunFollowsTable(states: seq<State>, actions: seq<Action>, maxIterations: nat, threshold: nat, k: nat)
    requires IsRun(states, actions, maxIterations, threshold) && k < |actions| && StatusInv(states[k])
    ensures FollowsTable(states[k].run, states[k + 1].run)
  {
    hide StatusInv, Next, FollowsTable;
    assert Next(states[k], actions[k]) == Some(states[k + 1]);
    StepKeepsStatus(states[k], actions[k]);
  }

  /** A finished workflow leaves a terminal status, and a cancel asked for ends cancelled or failed. */
  lemma FinishedMeansTerminal(states: seq<State>, actions: seq<Action>, maxIterations: nat, threshold: nat, k: nat)
    requires IsRun(states, actions, maxIterations, threshold) && k < |states| && states[k].pc.Done?
    ensures Terminal(states[k].run.snapshot.status)
    ensures states[k].everCancelled ==>
        states[k].run.snapshot.status.Cancelled? || states[k].run.snapshot.status.Failed?
  {
    RunKeepsStatus(states, actions, maxIterations, threshold, k);
  }

  /**
   A wakeup is never lost: a workflow parked with neither event set is still shown as paused, exactly
   unless a cancel call has put its request on record and is about to set both.
   */
  lemma ParkedMeansPaused(states: seq<State>, actions: seq<Action>, maxIterations: nat, threshold: nat, k: nat)
    requires IsRun(states, actions, maxIterations, threshold) && k < |states|
    requires states[k].pc.AggWait? || states[k].pc.OptWait? || states[k].pc.OptWaitAgain?
    requires !states[k].run.resumeSignal && !states[k].run.cancelSignal
    ensures states[k].run.snapshot.status.Paused? <==> states[k].askedCancels == 0
    ensures states[k].askedCancels > 0 ==> states[k].run.snapshot.status.CancelRequested?
  {
    RunKeepsStatus(states, actions, maxIterations, threshold, k);
  }
}
