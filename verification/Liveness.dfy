/**
 When the workflow can go on (`backend/workflow.py`): always, until it is done, except while it is parked
 at a pause with neither signal set.  With the bound on its steps this is termination.
 */
module Liveness {
  import opened Wrappers
  import opened RunTypes
  import opened RunManager
  import opened Workflow
  import opened StepFlow
  import opened RunShape
  import opened Progress

  /** Waiting at a pause, with nothing to wake it. */
  predicate Parked(s: State) {
    (s.pc.AggWait? || s.pc.OptWait? || s.pc.OptWaitAgain?) && !s.run.resumeSignal && !s.run.cancelSignal
  }

  /** A step of the workflow other than flushing one more delta. */
  ghost predicate CanGoOn(s: State) {
    exists a :: ByWorkflow(a) && !IsDelta(s, a) && Next(s, a).Some?
  }

  predicate Started(reviewer: RevPc) { !reviewer.RevIdle? }

  /** Once the reviews have started no reviewer is idle. */
  predicate ReviewersStarted(s: State) {
    s.pc.Reviews? ==> Started(s.reviewers.tech) && Started(s.reviewers.ux) && Started(s.reviewers.biz)
  }

  lemma WorkKeepsReviewersStarted(s: State, input: Input)
    requires ReviewersStarted(s) && WorkStep(s, input).Some?
    ensures ReviewersStarted(WorkStep(s, input).value)
  {
    hide EntryStep, StreamStep, FinishStep, JoinStep, AggregatorStep, RouteStep, ParkStep, PlanStep, CloseStep;
    match PhaseOf(s.pc) {
      case Entering => EntryFlow(s, input);
      case Streaming => StreamFlow(s, input);
      case Finishing => FinishFlow(s, input);
      case InReview => JoinFlow(s, input);
      case Scoring => AggregatorFlow(s, input);
      case Routing => RouteFlow(s, input);
      case Parking => ParkFlow(s, input);
      case Planning => PlanFlow(s, input);
      case Closing => CloseFlow(s, input);
    }
  }

  lemma StepKeepsReviewersStarted(s: State, a: Action)
    requires ReviewersStarted(s) && Next(s, a).Some?
    ensures ReviewersStarted(Next(s, a).value)
  {
    hide WorkStep, ReviewStep, UserStep;
    match a
    case Work(input) => WorkKeepsReviewersStarted(s, input);
    case Review(role, input) => ReviewFlow(s, role, input);
    case _ => UserFlow(s, a);
  }

  lemma {:induction false} ReachableReviewersStarted(
    states: seq<State>, actions: seq<Action>, maxIterations: nat, threshold: nat, k: nat)
    requires IsRun(states, actions, maxIterations, threshold) && k < |states|
    ensures ReviewersStarted(states[k])
  {
    hide Next;
    if k > 0 {
      ReachableReviewersStarted(states, actions, maxIterations, threshold, k - 1);
      assert Next(states[k - 1], actions[k - 1]) == Some(states[k]);
      StepKeepsReviewersStarted(states[k - 1], actions[k - 1]);
    }
  }

  // ----- a pause that was asked for

  /** Asked for before the optimizer looks, a pause parks it before it plans anything. */
  lemma PauseParks(s: State)
    requires s.pc.OptEnter? && s.run.snapshot.status.PauseRequested? && !s.run.cancelSignal
    ensures var entered := Next(s, Work(Go));
      entered.Some? && entered.value.run == s.run &&
      var parked := Next(entered.value, Work(Go));
      && parked.Some? && parked.value.pc.OptWait? && parked.value.run.snapshot.status.Paused?
      && Parked(parked.value)
  {
    hide EntryStep, StreamStep, FinishStep, JoinStep, AggregatorStep, RouteStep, PlanStep, CloseStep, ReviewStep,
      UserStep;
  }

  /** Asked for while the optimizer's stage is being set, it parks it all the same. */
  lemma LatePauseParks(s: State)
    requires s.pc.OptStage? && s.run.snapshot.status.PauseRequested? && !s.run.cancelSignal
    ensures var staged := Next(s, Work(Go));
      staged.Some? && staged.value.run == s.run &&
      var parked := Next(staged.value, Work(Go));
      && parked.Some? && parked.value.pc.OptWaitAgain? && parked.value.run.snapshot.status.Paused?
      && Parked(parked.value)
  {
    hide EntryStep, StreamStep, FinishStep, JoinStep, AggregatorStep, RouteStep, PlanStep, CloseStep, ReviewStep,
      UserStep;
  }

  /** A parked workflow goes on with a resume, and stops with a cancel even if it was resumed as well. */
  lemma WakingLooksAtCancelFirst(s: State)
    requires s.pc.AggWait? || s.pc.OptWait? || s.pc.OptWaitAgain?
    ensures s.run.cancelSignal ==> Next(s, Work(Go)) == Some(s.(pc := Ending(CancelSeen)))
    ensures s.run.resumeSignal && !s.run.cancelSignal ==>
      Next(s, Work(Go))
          == Some(s.(pc := if s.pc.AggWait? then AggRoute else if s.pc.OptWait? then OptStage else OptStageAgain))
  {
    hide EntryStep, StreamStep, FinishStep, JoinStep, AggregatorStep, PlanStep, CloseStep, ReviewStep, UserStep;
  }

  // ----- what is enabled where

  lemma EntryGoesOn(s: State)
    requires PhaseOf(s.pc).Entering?
    ensures EntryStep(s, Go).Some?
  {
    hide SetStage, Emit, Commit;
  }

  /** A stream can always break off. */
  lemma StreamGoesOn(s: State)
    requires PhaseOf(s.pc).Streaming?
    ensures StreamStep(s, if s.pc.GenStream? then StreamFails(false, None) else Go).Some?
  {
    hide RecordTiming, RecordUsage;
  }

  lemma FinishGoesOn(s: State)
    requires PhaseOf(s.pc).Finishing?
    ensures FinishStep(s, Go).Some?
  {
    hide SetStage, RecordTiming, RecordUsage, FinishGeneration;
  }

  /** What the reviewer at hand waits for: a failed call is always possible. */
  function ReviewerInput(reviewer: RevPc): Input {
    if reviewer.RevCall? then Reviewed(OtherError, OtherError, OtherError) else Go
  }

  lemma ReviewerGoesOn(s: State, role: Role)
    requires s.pc.Reviews? && Started(s.reviewers.Get(role))
    requires !s.reviewers.Get(role).RevDone? && !s.reviewers.Get(role).RevRaised?
    ensures ReviewStep(s, role, ReviewerInput(s.reviewers.Get(role))).Some?
  {
    hide RecordTiming, RecordUsage, FinishReview, Emit;
  }

  lemma ReviewsGoOn(s: State)
    requires s.pc.Reviews? && ReviewersStarted(s)
    ensures CanGoOn(s)
  {
    hide ReviewStep, Terminal;
    if role :| !s.reviewers.Get(role).RevDone? && !s.reviewers.Get(role).RevRaised? {
      var a := Action.Review(role, ReviewerInput(s.reviewers.Get(role)));
      ReviewerGoesOn(s, role);
      assert Next(s, a).Some? && ByWorkflow(a) && !IsDelta(s, a);
    } else if role :| s.reviewers.Get(role).RevRaised? {
      var a := Work(Collapse(role));
      assert Next(s, a).Some? && ByWorkflow(a) && !IsDelta(s, a);
    } else {
      assert s.reviewers.Get(Tech).RevDone? && s.reviewers.Get(Ux).RevDone? && s.reviewers.Get(Biz).RevDone?;
      var a := Work(Go);
      assert Next(s, a).Some? && ByWorkflow(a) && !IsDelta(s, a);
    }
  }

  lemma LaterGoesOn(s: State)
    requires PhaseOf(s.pc).Scoring? || PhaseOf(s.pc).Routing? || PhaseOf(s.pc).Parking?
    ensures WorkStep(s, Go).Some? <==> !Parked(s)
    ensures Parked(s) ==> forall input :: WorkStep(s, input).None?
  {
    hide SetStage, EnterPaused, Transition, Emit, GatePassed, OutcomeOf, AggregateStep, DecideStep, EntryStep,
      StreamStep, FinishStep, JoinStep, PlanStep, CloseStep;
  }

  lemma PlanGoesOn(s: State)
    requires PhaseOf(s.pc).Planning?
    ensures PlanStep(s, Go).Some? || PlanStep(s, Planned(OtherError, OtherError, OtherError)).Some?
  {
    hide SetStage, RecordTiming, RecordUsage, FinishOptimizer, Emit;
  }

  lemma WorkIsAStep(s: State, input: Input)
    requires WorkStep(s, input).Some? && !input.Delta?
    ensures CanGoOn(s)
  {
    hide WorkStep;
    var a := Work(input);
    assert Next(s, a).Some? && ByWorkflow(a) && !IsDelta(s, a);
  }

  lemma GoesOn(s: State)
    requires ReviewersStarted(s) && !s.pc.Done? && !Parked(s)
    ensures CanGoOn(s)
  {
    hide EntryStep, StreamStep, FinishStep, JoinStep, AggregatorStep, RouteStep, ParkStep, PlanStep, CanGoOn, Next,
      EndStep, ReviewersStarted, Parked;
    match PhaseOf(s.pc) {
      case Entering => EntryGoesOn(s); WorkIsAStep(s, Go);
      case Streaming => StreamGoesOn(s); WorkIsAStep(s, if s.pc.GenStream? then StreamFails(false, None) else Go);
      case Finishing => FinishGoesOn(s); WorkIsAStep(s, Go);
      case InReview => ReviewsGoOn(s);
      case Scoring => LaterGoesOn(s); WorkIsAStep(s, Go);
      case Routing => LaterGoesOn(s); WorkIsAStep(s, Go);
      case Parking => LaterGoesOn(s); WorkIsAStep(s, Go);
      case Planning =>
        PlanGoesOn(s);
        WorkIsAStep(s, if PlanStep(s, Go).Some? then Go else Planned(OtherError, OtherError, OtherError));
      case Closing => WorkIsAStep(s, Go);
    }
  }

  lemma ParkedStays(s: State)
    requires Parked(s)
    ensures !CanGoOn(s)
  {
    hide WorkStep;
    LaterGoesOn(s);
  }

  lemma DoneStays(s: State)
    requires s.pc.Done?
    ensures !CanGoOn(s)
  {
  }

  /**
   Progress.  In every reachable state the workflow can take a step that brings it closer to its end if
   and only if it is neither done nor parked at a pause with neither signal set.
   */
  lemma WorkflowGoesOnIff(states: seq<State>, actions: seq<Action>, maxIterations: nat, threshold: nat, k: nat)
    requires IsRun(states, actions, maxIterations, threshold) && k < |states|
    ensures CanGoOn(states[k]) <==> !states[k].pc.Done? && !Parked(states[k])
  {
    hide Next, Initial, CanGoOn, Parked, ReviewersStarted;
    ReachableReviewersStarted(states, actions, maxIterations, threshold, k);
    if states[k].pc.Done? {
      DoneStays(states[k]);
    } else if Parked(states[k]) {
      ParkedStays(states[k]);
    } else {
      GoesOn(states[k]);
    }
  }

  /** The run can be extended, step by step, by its workflow alone. */
  ghost predicate Extends(states: seq<State>, actions: seq<Action>, longer: seq<State>, more: seq<Action>)
    requires |states| == |actions| + 1 && |longer| == |more| + 1
  {
    && states <= longer && actions <= more
    && forall k :: |actions| <= k < |more| ==> ByWorkflow(more[k]) && !IsDelta(longer[k], more[k])
  }

  /**
   Termination.  Every run, however far it has come, can be finished or brought to a pause by steps of the
   workflow alone, and fewer of them than its rank: no reachable state is a dead end.
   */
  lemma {:induction false} RunsCanFinish(states: seq<State>, actions: seq<Action>, maxIterations: nat, threshold: nat)
    returns (longer: seq<State>, more: seq<Action>)
    requires IsRun(states, actions, maxIterations, threshold)
    ensures IsRun(longer, more, maxIterations, threshold) && Extends(states, actions, longer, more)
    ensures longer[|more|].pc.Done? || Parked(longer[|more|])
    ensures |more| - |actions| <= Rank(states[|actions|])
    decreases Rank(states[|actions|])
  {
    hide Next, Initial, CanGoOn, Parked, Rank, IsDelta;
    var s := states[|actions|];
    WorkflowGoesOnIff(states, actions, maxIterations, threshold, |actions|);
    RankIsNatural(states, actions, maxIterations, threshold, |actions|);
    if s.pc.Done? || Parked(s) {
      longer, more := states, actions;
    } else {
      var a := NextStep(s);
      StepLowersRank(s, a);
      LoweredRank(s, Next(s, a).value);
      var s' := Next(s, a).value;
      OneStepLonger(states, actions, maxIterations, threshold, a);
      longer, more := RunsCanFinish(states + [s'], actions + [a], maxIterations, threshold);
      assert (actions + [a])[|actions|] == a && longer[|actions|] == (states + [s'])[|actions|] == s;
    }
  }

  lemma NextStep(s: State) returns (a: Action)
    requires CanGoOn(s)
    ensures ByWorkflow(a) && !IsDelta(s, a) && Next(s, a).Some?
  {
    hide Next, IsDelta;
    a :| ByWorkflow(a) && !IsDelta(s, a) && Next(s, a).Some?;
  }

  lemma LoweredRank(s: State, s': State)
    requires Lowers(s, s', true)
    ensures Rank(s') < Rank(s)
  {
    hide Rank;
  }

  lemma OneStepLonger(states: seq<State>, actions: seq<Action>, maxIterations: nat, threshold: nat, a: Action)
    requires IsRun(states, actions, maxIterations, threshold) && Next(states[|actions|], a).Some?
    ensures IsRun(states + [Next(states[|actions|], a).value], actions + [a], maxIterations, threshold)
  {
    hide Next, Initial;
  }
}
