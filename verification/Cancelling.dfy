/**
 What a cancel comes to (`cancel_run` in `backend/run_manager.py`, the checks and exception handlers of
 `backend/workflow.py`): a run whose cancel was signalled in time ends cancelled and never failed, and
 stops within one more superstep.
 */
module Cancelling {
  import opened Wrappers
  import opened RunTypes
  import opened RunManager
  import opened Workflow
  import opened StepFlow
  import opened RunShape
  import opened Progress
  import StatusSafety

  // ----- it ends cancelled

  /** The request is on record and the workflow has been signalled. */
  predicate Signalled(s: State) { s.run.cancelSignal && s.run.snapshot.status.CancelRequested? }

  predicate Answered(s: State) {
    s.run.cancelSignal && (s.run.snapshot.status.CancelRequested? || s.run.snapshot.status.Cancelled?)
  }

  lemma CloseCancels(s: State, input: Input)
    requires Signalled(s) && CloseStep(s, input).Some?
    ensures CloseStep(s, input).value.run.snapshot.status.Cancelled?
  {
  }

  lemma UserKeepsRequest(s: State, a: Action)
    requires Signalled(s) && !a.Work? && !a.Review? && UserStep(s, a).Some?
    ensures Answered(UserStep(s, a).value)
  {
    hide CanTransition;
  }

  /** No step of a signalled run but the closing one leaves the request, and that one cancels. */
  lemma StepAnswers(s: State, a: Action)
    requires Signalled(s) && StatusSafety.StatusInv(s) && Next(s, a).Some?
    ensures Answered(Next(s, a).value)
  {
    hide EntryStep, StreamStep, FinishStep, JoinStep, AggregatorStep, RouteStep, ParkStep, PlanStep, CloseStep,
      ReviewStep, UserStep, StatusSafety.StatusFits, Aggregated, EvaluateReviews, AllReviewed, DecisionFits, NotDecided;
    CancelIsRemembered(s, a);
    StatusSafety.StepKeepsStatus(s, a);
    match a
    case Work(input) =>
      match PhaseOf(s.pc) {
        case Entering => EntryFlow(s, input);
        case Streaming => StreamFlow(s, input);
        case Finishing => FinishFlow(s, input);
        case InReview => JoinFlow(s, input);
        case Scoring => AggregatorFlow(s, input);
        case Routing => RouteFlow(s, input);
        case Parking => ParkFlow(s, input);
        case Planning => PlanFlow(s, input);
        case Closing => CloseCancels(s, input);
      }
    case Review(role, input) => ReviewFlow(s, role, input);
    case _ => UserKeepsRequest(s, a);
  }

  /**
   A cancel is kept.  Once a request is on record and signalled, no later status is any other than the
   request or `CANCELLED`, whatever fails meanwhile; a finished workflow leaves the run cancelled.
   */
  lemma {:induction false} SignalledRunsEndCancelled(
    states: seq<State>, actions: seq<Action>, maxIterations: nat, threshold: nat, j: nat, k: nat)
    requires IsRun(states, actions, maxIterations, threshold) && j <= k < |states| && Signalled(states[j])
    ensures Answered(states[k])
    ensures states[k].pc.Done? ==> states[k].run.snapshot.status.Cancelled?
    decreases k - j
  {
    hide Next, StatusSafety.StatusInv;
    if states[k].pc.Done? {
      StatusSafety.FinishedMeansTerminal(states, actions, maxIterations, threshold, k);
    }
    if j < k {
      SignalledRunsEndCancelled(states, actions, maxIterations, threshold, j, k - 1);
      assert Next(states[k - 1], actions[k - 1]) == Some(states[k]);
      StatusSafety.RunKeepsStatus(states, actions, maxIterations, threshold, k - 1);
      if states[k - 1].run.snapshot.status.Cancelled? {
        StatusSafety.TerminalIsForever(states, actions, maxIterations, threshold, k - 1, k);
        CancelIsRemembered(states[k - 1], actions[k - 1]);
      } else {
        StepAnswers(states[k - 1], actions[k - 1]);
      }
    }
  }

  // ----- it stops soon

  /** This reviewer can only raise, once the cancel event is set. */
  predicate MustRaise(reviewer: RevPc) {
    reviewer.RevEnter? || reviewer.RevCall? || reviewer.RevCommit? || reviewer.RevRaised?
  }

  /** Supersteps a cancelled workflow may still start. */
  function SuperstepsLeft(s: State): nat {
    match s.pc
    case Start => 1
    case GenUsage(_, _, _) => 1
    case GenTiming(_, _, _) => 1
    case GenStage => 1
    case Reviews =>
      if MustRaise(s.reviewers.tech) || MustRaise(s.reviewers.ux) || MustRaise(s.reviewers.biz) then 0 else 1
    case AggMark => 1
    case AggCommit => 1
    case AggDecide(_, _) => 1
    case AggRoute => 1
    case OptUsage(_, _) => 1
    case OptTiming(_, _) => 1
    case OptStageNext => 1
    case _ => 0
  }

  /** Generation streams it may still open: a retry looks at the cancel only when text arrives. */
  function StreamsLeft(pc: Pc): nat {
    match pc
    case GenMark(_) => 2
    case GenBegin(_, attempt) => if attempt <= 1 then 2 else 1
    case GenStream(_, attempt) => if attempt <= 1 then 1 else 0
    case GenFailTiming(_, attempt, _) => if attempt <= 1 then 1 else 0
    case GenFailUsage(_, attempt, _) => if attempt <= 1 then 1 else 0
    case _ => 0
  }

  predicate Slows(s: State, s': State) {
    && s'.supersteps + SuperstepsLeft(s') <= s.supersteps + SuperstepsLeft(s)
    && s'.streams + StreamsLeft(s'.pc) <= s.streams + StreamsLeft(s.pc)
  }

  lemma EntrySlows(s: State, input: Input)
    requires s.run.cancelSignal && LocalsFit(s.pc, s.run.snapshot.docs) && EntryStep(s, input).Some?
    ensures Slows(s, EntryStep(s, input).value)
  {
    hide SetStage, Emit, Commit;
  }

  lemma StreamSlows(s: State, input: Input)
    requires s.run.cancelSignal && LocalsFit(s.pc, s.run.snapshot.docs) && StreamStep(s, input).Some?
    ensures Slows(s, StreamStep(s, input).value)
  {
    hide Emit, RecordUsage, RecordTiming;
  }

  lemma FinishSlows(s: State, input: Input)
    requires s.run.cancelSignal && FinishStep(s, input).Some?
    ensures Slows(s, FinishStep(s, input).value)
  {
    hide SetStage, Emit, RecordUsage, RecordTiming;
  }

  lemma JoinSlows(s: State, input: Input)
    requires s.pc.Reviews? && JoinStep(s, input).Some?
    ensures Slows(s, JoinStep(s, input).value)
  {
  }

  lemma AggregatorSlows(s: State, input: Input)
    requires s.run.cancelSignal && AggregatorStep(s, input).Some?
    ensures Slows(s, AggregatorStep(s, input).value)
  {
    hide SetStage, Emit, Aggregated, EvaluateReviews, AllReviewed, ScoresPayload;
  }

  lemma RouteSlows(s: State, input: Input)
    requires s.run.cancelSignal && RouteStep(s, input).Some?
    ensures Slows(s, RouteStep(s, input).value)
  {
    hide SetStage, EnterPaused, Transition, GatePassed, OutcomeOf, Terminal;
  }

  lemma ParkSlows(s: State, input: Input)
    requires s.run.cancelSignal && ParkStep(s, input).Some?
    ensures Slows(s, ParkStep(s, input).value)
  {
    hide SetStage, EnterPaused;
  }

  lemma PlanSlows(s: State, input: Input)
    requires s.run.cancelSignal && PlanStep(s, input).Some?
    ensures Slows(s, PlanStep(s, input).value)
  {
    hide SetStage, Emit, RecordUsage, RecordTiming, ValidatedStructured;
  }

  lemma CloseSlows(s: State, input: Input)
    requires CloseStep(s, input).Some?
    ensures Slows(s, CloseStep(s, input).value)
  {
    hide FinalizeCancel, FailRun;
  }

  lemma ReviewSlows(s: State, role: Role, input: Input)
    requires s.run.cancelSignal && ReviewStep(s, role, input).Some?
    ensures Slows(s, ReviewStep(s, role, input).value)
  {
    hide Emit, RecordUsage, RecordTiming, ValidatedStructured, FinishReview;
  }

  lemma UserSlows(s: State, a: Action)
    requires !a.Work? && !a.Review? && UserStep(s, a).Some?
    ensures Slows(s, UserStep(s, a).value)
  {
    hide UserStep, NotDecided;
    UserFlow(s, a);
    OtherCounts(s, a);
  }

  lemma StepSlows(s: State, a: Action)
    requires s.run.cancelSignal && LocalsFit(s.pc, s.run.snapshot.docs) && Next(s, a).Some?
    ensures Slows(s, Next(s, a).value)
  {
    hide EntryStep, StreamStep, FinishStep, JoinStep, AggregatorStep, RouteStep, ParkStep, PlanStep, CloseStep,
      ReviewStep, UserStep, Slows;
    match a
    case Work(input) =>
      match PhaseOf(s.pc) {
        case Entering => EntrySlows(s, input);
        case Streaming => StreamSlows(s, input);
        case Finishing => FinishSlows(s, input);
        case InReview => JoinSlows(s, input);
        case Scoring => AggregatorSlows(s, input);
        case Routing => RouteSlows(s, input);
        case Parking => ParkSlows(s, input);
        case Planning => PlanSlows(s, input);
        case Closing => CloseSlows(s, input);
      }
    case Review(role, input) => ReviewSlows(s, role, input);
    case _ => UserSlows(s, a);
  }

  lemma {:induction false} CancelLeavesLittle(
    states: seq<State>, actions: seq<Action>, maxIterations: nat, threshold: nat, j: nat, k: nat)
    requires IsRun(states, actions, maxIterations, threshold) && j <= k < |states| && states[j].run.cancelSignal
    ensures states[k].run.cancelSignal && Slows(states[j], states[k])
    decreases k - j
  {
    hide Next, Initial, SuperstepsLeft, StreamsLeft, StatusSafety.StatusInv, ReviewInv, ScoreInv, GateInv,
      VersionsInOrder;
    if j < k {
      CancelLeavesLittle(states, actions, maxIterations, threshold, j, k - 1);
      assert Next(states[k - 1], actions[k - 1]) == Some(states[k]);
      ReachableIsGood(states, actions, maxIterations, threshold, k - 1);
      assert ShapeInv(states[k - 1]);
      CancelIsRemembered(states[k - 1], actions[k - 1]);
      StepSlows(states[k - 1], actions[k - 1]);
    }
  }

  /**
   A cancel stops the work soon.  Once the event is set, in any interleaving, the graph starts at most one
   more superstep and the generator opens at most two more streams: the checks on entering a node stop it.
   */
  lemma CancelStopsSoon(
    states: seq<State>, actions: seq<Action>, maxIterations: nat, threshold: nat, j: nat, k: nat)
    requires IsRun(states, actions, maxIterations, threshold) && j <= k < |states| && states[j].run.cancelSignal
    ensures states[k].supersteps <= states[j].supersteps + 1 && states[k].streams <= states[j].streams + 2
  {
    hide Next, Initial;
    CancelLeavesLittle(states, actions, maxIterations, threshold, j, k);
    assert SuperstepsLeft(states[j]) <= 1 && StreamsLeft(states[j].pc) <= 2;
  }

  // ----- where it is noticed

  /** On entering a node, and inside each commit of its result, a cancelled workflow raises and stores nothing. */
  lemma NodesLookAtCancel(s: State)
    requires s.run.cancelSignal
    ensures s.pc.GenEnter? || s.pc.AggEnter? || s.pc.OptEnter? || s.pc.GenCommit? || s.pc.OptCommit? ==>
      Next(s, Work(Go)) == Some(s.(pc := Ending(CancelSeen)))
    ensures forall role :: s.pc.Reviews? && (s.reviewers.Get(role).RevEnter? || s.reviewers.Get(role).RevCommit?) ==>
      Next(s, Action.Review(role, Go)) == Some(s.(reviewers := s.reviewers.Set(role, RevRaised(CancelSeen))))
  {
    hide SetStage, Emit, Commit, RecordUsage, RecordTiming, ValidatedStructured;
  }

  /** Nor does an answer that comes after the signal get any further, whatever it holds. */
  lemma LateAnswersRaise(s: State, input: Input, role: Role)
    requires s.run.cancelSignal
    ensures s.pc.OptCall? && Next(s, Work(input)).Some? ==> Next(s, Work(input)).value.pc.Ending?
    ensures s.pc.Reviews? && s.reviewers.Get(role).RevCall? && Next(s, Action.Review(role, input)).Some? ==>
      Next(s, Action.Review(role, input)).value.reviewers.Get(role) == RevRaised(CancelSeen)
  {
    hide SetStage, Emit, Commit, RecordUsage, RecordTiming, ValidatedStructured;
  }

  lemma StepStartsNoReview(s: State, a: Action, role: Role)
    requires s.run.cancelSignal && Next(s, a).Some? && Next(s, a).value.reviewers.Get(role).RevCall?
    ensures Next(s, a).value.reviewers.Get(role) == s.reviewers.Get(role)
  {
    hide WorkStep, ReviewStep, UserStep, NotDecided;
    match a
    case Work(input) => WorkStartsNoReview(s, input);
    case Review(r, input) =>
      ReviewFlow(s, r, input);
      if r == role {
        ReviewerStartsNothing(s, role, input);
      }
    case _ => UserFlow(s, a);
  }

  lemma ReviewerStartsNothing(s: State, role: Role, input: Input)
    requires s.run.cancelSignal && ReviewStep(s, role, input).Some?
    ensures !ReviewStep(s, role, input).value.reviewers.Get(role).RevCall?
  {
    hide Emit, RecordUsage, RecordTiming, ValidatedStructured, FinishReview;
  }

  lemma WorkStartsNoReview(s: State, input: Input)
    requires WorkStep(s, input).Some?
    ensures var after := WorkStep(s, input).value.reviewers;
      after == s.reviewers || after == Trio(RevEnter, RevEnter, RevEnter)
  {
    hide EntryStep, StreamStep, FinishStep, JoinStep, AggregatorStep, RouteStep, ParkStep, PlanStep, CloseStep,
      Aggregated, EvaluateReviews, AllReviewed, DecisionFits, Terminal, NotDecided;
    match PhaseOf(s.pc)
    case Entering => EntryFlow(s, input);
    case Streaming => StreamFlow(s, input);
    case Finishing => FinishFlow(s, input);
    case InReview => JoinFlow(s, input);
    case Scoring => AggregatorFlow(s, input);
    case Routing => RouteFlow(s, input);
    case Parking => ParkFlow(s, input);
    case Planning => PlanFlow(s, input);
    case Closing => CloseFlow(s, input);
  }

  /** Once the event is set no reviewer calls a provider that was not calling it already. */
  lemma {:induction false} NoReviewStarts(
    states: seq<State>, actions: seq<Action>, maxIterations: nat, threshold: nat, j: nat, k: nat, role: Role)
    requires IsRun(states, actions, maxIterations, threshold) && j <= k < |states| && states[j].run.cancelSignal
    ensures states[k].run.cancelSignal
    ensures states[k].reviewers.Get(role).RevCall? ==> states[k].reviewers.Get(role) == states[j].reviewers.Get(role)
    decreases k - j
  {
    hide Next, Initial;
    if j < k {
      NoReviewStarts(states, actions, maxIterations, threshold, j, k - 1, role);
      assert Next(states[k - 1], actions[k - 1]) == Some(states[k]);
      CancelIsRemembered(states[k - 1], actions[k - 1]);
      if states[k].reviewers.Get(role).RevCall? {
        StepStartsNoReview(states[k - 1], actions[k - 1], role);
      }
    }
  }

  // ----- the user's call and the deadline

  /** Every cancel of a run that has not ended goes on record, is signalled and finalized, also a repeated one. */
  lemma EveryCancelIsHeard(s: State)
    requires !Terminal(s.run.snapshot.status)
    ensures var asked := Next(s, UserCancelAsks);
      asked.Some? && Signalled(s.(run := SignalCancel(asked.value.run))) &&
      var signalled := Next(asked.value, UserCancelSignals);
      signalled.Some? && Signalled(signalled.value) && signalled.value.run.resumeSignal &&
      var finalized := Next(signalled.value, UserCancelFinalizes);
      finalized.Some? && finalized.value.run.snapshot.status.Cancelled?
  {
    hide WorkStep, ReviewStep;
  }

  /** A deadline that has passed is seen at the same points, and faults the node instead. */
  lemma DeadlinesAreSeen(s: State)
    requires !s.run.cancelSignal
    ensures s.pc.GenEnter? || s.pc.AggEnter? || s.pc.OptEnter? || s.pc.GenCommit? || s.pc.OptCommit? ==>
      Next(s, Work(Expire)) == Some(s.(pc := Ending(Faulted)))
    ensures (s.pc.AggWait? || s.pc.OptWait? || s.pc.OptWaitAgain?) && s.run.resumeSignal ==>
      Next(s, Work(Expire)) == Some(s.(pc := Ending(Faulted)))
    ensures forall role :: s.pc.Reviews? && (s.reviewers.Get(role).RevEnter? || s.reviewers.Get(role).RevCommit?) ==>
      Next(s, Action.Review(role, Expire)) == Some(s.(reviewers := s.reviewers.Set(role, RevRaised(Faulted))))
  {
    hide SetStage, Emit, Commit, RecordUsage, RecordTiming, ValidatedStructured;
  }
}
