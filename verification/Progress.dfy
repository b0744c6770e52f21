/**
 How long a run can go on (`backend/workflow.py`): every step of the workflow other than flushing a
 delta uses up a rank, the graph's supersteps and generation streams are bounded by the budget, and
 nothing a cancelled workflow was still waiting for is ever stored.
 */
module Progress {
  import opened Wrappers
  import opened RunTypes
  import opened RunManager
  import opened Workflow
  import opened StepFlow
  import opened RunShape
  import StatusSafety

  // ----- a rank every step uses up

  const ITERATION_COST: int := 100

  /** Where in an iteration the workflow stands, counting down to the revision plan's commit. */
  function PcRank(pc: Pc): int {
    match pc
    case Start => 99
    case OptUsage(_, _) => 98
    case OptTiming(_, _) => 97
    case OptStageNext => 96
    case GenEnter => 95
    case GenMark(_) => 94
    case GenBegin(_, attempt) => 93 - 5 * attempt
    case GenStream(_, attempt) => 92 - 5 * attempt
    case GenFailTiming(_, attempt, _) => 91 - 5 * attempt
    case GenFailUsage(_, attempt, _) => 90 - 5 * attempt
    case GenCommit(_, _, _, _) => 79
    case GenUsage(_, _, _) => 78
    case GenTiming(_, _, _) => 77
    case GenStage => 76
    case Reviews => 50
    case AggEnter => 49
    case AggMark => 48
    case AggCommit => 47
    case AggDecide(_, _) => 46
    case AggWait => 45
    case AggRoute => 44
    case OptEnter => 43
    case OptPause => 42
    case OptWait => 41
    case OptStage => 40
    case OptPauseAgain => 39
    case OptWaitAgain => 38
    case OptStageAgain => 37
    case OptMark => 36
    case OptCall(_) => 35
    case OptCommit(_, _, _) => 34
    case Ending(_) => 1
    case Done => 0
  }

  function ReviewerRank(reviewer: RevPc): int {
    match reviewer
    case RevEnter => 5
    case RevCall(_) => 4
    case RevCommit(_, _, _) => 3
    case RevUsage(_, _) => 2
    case RevTiming(_, _) => 1
    case _ => 0
  }

  function Rank(s: State): int {
    var docs := s.run.snapshot.docs;
    ITERATION_COST * (docs.maxIterations - docs.iteration) + PcRank(s.pc)
    + (if s.pc.Reviews?
        then ReviewerRank(s.reviewers.tech) + ReviewerRank(s.reviewers.ux) + ReviewerRank(s.reviewers.biz) else 0)
  }

  predicate IsDelta(s: State, a: Action) {
    a.Work? && a.input.Delta? && s.pc.GenStream? && !s.run.cancelSignal
  }

  predicate ByWorkflow(a: Action) { a.Work? || a.Review? }

  lemma ParkFirstRank(s: State, input: Input)
    requires (s.pc.OptEnter? || s.pc.OptPause? || s.pc.OptWait?) && ParkStep(s, input).Some?
    ensures PcRank(ParkStep(s, input).value.pc) < PcRank(s.pc)
  {
    hide SetStage, EnterPaused, PhaseOf;
  }

  lemma ParkAgainRank(s: State, input: Input)
    requires !s.pc.OptEnter? && !s.pc.OptPause? && !s.pc.OptWait? && ParkStep(s, input).Some?
    ensures PcRank(ParkStep(s, input).value.pc) < PcRank(s.pc)
  {
    hide SetStage, EnterPaused, PhaseOf;
  }

  lemma ParkRank(s: State, input: Input)
    requires ParkStep(s, input).Some?
    ensures PcRank(ParkStep(s, input).value.pc) < PcRank(s.pc)
  {
    hide ParkStep, PcRank;
    if s.pc.OptEnter? || s.pc.OptPause? || s.pc.OptWait? {
      ParkFirstRank(s, input);
    } else {
      ParkAgainRank(s, input);
    }
  }

  lemma RouteRank(s: State, input: Input)
    requires RouteStep(s, input).Some?
    ensures PcRank(RouteStep(s, input).value.pc) < PcRank(s.pc)
  {
    hide SetStage, EnterPaused, Transition, GatePassed, OutcomeOf, Terminal;
  }

  lemma EntryRank(s: State, input: Input)
    requires EntryStep(s, input).Some? && LocalsFit(s.pc, s.run.snapshot.docs)
    ensures PcRank(EntryStep(s, input).value.pc) < PcRank(s.pc)
  {
    hide SetStage, Emit, Commit;
  }

  lemma StreamRank(s: State, input: Input)
    requires StreamStep(s, input).Some? && LocalsFit(s.pc, s.run.snapshot.docs) && !IsDelta(s, Work(input))
    ensures PcRank(StreamStep(s, input).value.pc) < PcRank(s.pc)
  {
    hide Emit, RecordUsage, RecordTiming;
  }

  /** The step left the budget alone and, unless it flushed a delta, lowered the rank. */
  predicate Lowers(s: State, s': State, counted: bool) {
    && s'.run.snapshot.docs.maxIterations == s.run.snapshot.docs.maxIterations
    && if counted then Rank(s') < Rank(s) else Rank(s') == Rank(s)
  }

  lemma DraftingLowersRank(s: State, input: Input)
    requires ShapeInv(s) && WorkStep(s, input).Some?
    requires PhaseOf(s.pc).Entering? || PhaseOf(s.pc).Streaming? || PhaseOf(s.pc).Finishing? || PhaseOf(s.pc).InReview?
    ensures Lowers(s, WorkStep(s, input).value, !IsDelta(s, Work(input)))
  {
    hide EntryStep, StreamStep, FinishStep, JoinStep, VersionsInOrder, PastGate, Terminal;
    match PhaseOf(s.pc) {
      case Entering => EntryFlow(s, input); EntryRank(s, input);
      case Streaming =>
        StreamFlow(s, input);
        if !IsDelta(s, Work(input)) {
          StreamRank(s, input);
        } else {
          DeltaStays(s, input);
        }
      case Finishing => FinishFlow(s, input);
      case InReview => JoinFlow(s, input);
    }
  }

  lemma DecidingLowersRank(s: State, input: Input)
    requires ShapeInv(s) && WorkStep(s, input).Some?
    requires PhaseOf(s.pc).Scoring? || PhaseOf(s.pc).Routing? || PhaseOf(s.pc).Parking? || PhaseOf(s.pc).Planning?
        || PhaseOf(s.pc).Closing?
    ensures Lowers(s, WorkStep(s, input).value, true)
  {
    hide AggregatorStep, RouteStep, ParkStep, PlanStep, CloseStep, VersionsInOrder, LocalsFit, Aggregated,
      EvaluateReviews, AllReviewed, DecisionFits, Terminal;
    match PhaseOf(s.pc) {
      case Scoring => AggregatorFlow(s, input); AggregatedKeepsBudget(s.run.snapshot.docs);
      case Routing => RouteFlow(s, input); RouteRank(s, input);
      case Parking => ParkFlow(s, input); ParkRank(s, input);
      case Planning => PlanFlow(s, input);
      case Closing => CloseFlow(s, input);
    }
  }

  lemma OthersLowerRank(s: State, a: Action)
    requires !a.Work? && Next(s, a).Some?
    ensures Lowers(s, Next(s, a).value, a.Review?)
  {
    hide ReviewStep, UserStep;
    match a
    case Review(role, input) => ReviewFlow(s, role, input);
    case _ => UserFlow(s, a);
  }

  lemma RankIsNotNegative(s: State)
    requires ShapeInv(s)
    ensures Rank(s) >= 0
  {
    hide VersionsInOrder, PastGate;
  }

  /** Every step of the workflow but a flushed delta lowers the rank; deltas and the user keep it. */
  lemma StepLowersRank(s: State, a: Action)
    requires ShapeInv(s) && Next(s, a).Some?
    ensures Lowers(s, Next(s, a).value, ByWorkflow(a) && !IsDelta(s, a)) && Rank(s) >= 0
  {
    hide ShapeInv, Lowers, WorkStep, ReviewStep, UserStep, Rank, IsDelta;
    RankIsNotNegative(s);
    OnlyWorkFlushes(s, a);
    if a.Work? {
      if PhaseOf(s.pc).Entering? || PhaseOf(s.pc).Streaming? || PhaseOf(s.pc).Finishing? || PhaseOf(s.pc).InReview? {
        DraftingLowersRank(s, a.input);
      } else {
        DecidingLowersRank(s, a.input);
      }
    } else {
      OthersLowerRank(s, a);
    }
  }

  lemma OnlyWorkFlushes(s: State, a: Action)
    ensures IsDelta(s, a) ==> a.Work? && PhaseOf(s.pc).Streaming?
  {
  }

  lemma DeltaStays(s: State, input: Input)
    requires StreamStep(s, input).Some? && IsDelta(s, Work(input))
    ensures StreamStep(s, input).value.pc == s.pc
  {
    hide Emit;
  }

  lemma AggregatedKeepsBudget(docs: Docs)
    ensures AllReviewed(docs.reviews) ==>
      && Aggregated(docs, EvaluateReviews(docs.reviews)).iteration == docs.iteration
      && Aggregated(docs, EvaluateReviews(docs.reviews)).maxIterations == docs.maxIterations
  {
    hide EvaluateReviews, ScoreVersions;
  }

  /** How many of the actions are steps of the workflow other than flushed deltas. */
  function WorkSteps(states: seq<State>, actions: seq<Action>): nat
    requires |states| == |actions| + 1
    decreases |actions|
  {
    if actions == [] then 0
    else
      var n := |actions| - 1;
      WorkSteps(states[..n + 1], actions[..n]) + (if ByWorkflow(actions[n]) && !IsDelta(states[n], actions[n]) then 1
          else 0)
  }

  lemma PrefixIsRun(states: seq<State>, actions: seq<Action>, maxIterations: nat, threshold: nat)
    requires IsRun(states, actions, maxIterations, threshold) && actions != []
    ensures IsRun(states[..|actions|], actions[..|actions| - 1], maxIterations, threshold)
    ensures Next(states[|actions| - 1], actions[|actions| - 1]) == Some(states[|actions|])
  {
    hide Next, Initial;
  }

  /**
   Bounded termination.  However the user pauses and resumes, a run takes fewer than 100 workflow steps
   per iteration of its budget, not counting flushed deltas.
   */
  lemma {:induction false} RunIsBounded(states: seq<State>, actions: seq<Action>, maxIterations: nat, threshold: nat)
    requires IsRun(states, actions, maxIterations, threshold)
    ensures WorkSteps(states, actions) + Rank(states[|actions|]) <= Rank(states[0])
    ensures WorkSteps(states, actions) < ITERATION_COST * maxIterations
    decreases |actions|
  {
    hide Next, Initial, Rank;
    InitialRank(maxIterations, threshold);
    var n := |actions|;
    if n == 0 {
      RankIsNatural(states, actions, maxIterations, threshold, 0);
    } else {
      PrefixIsRun(states, actions, maxIterations, threshold);
      RunIsBounded(states[..n], actions[..n - 1], maxIterations, threshold);
      RankIsNatural(states, actions, maxIterations, threshold, n - 1);
      RankIsNatural(states, actions, maxIterations, threshold, n);
      StepLowersRank(states[n - 1], actions[n - 1]);
      assert states[..n - 1 + 1] == states[..n];
    }
  }

  lemma InitialRank(maxIterations: nat, threshold: nat)
    ensures Rank(Initial(maxIterations, threshold)) == ITERATION_COST * maxIterations - 1
  {
  }

  lemma RankIsNatural(states: seq<State>, actions: seq<Action>, maxIterations: nat, threshold: nat, k: nat)
    requires IsRun(states, actions, maxIterations, threshold) && k < |states|
    ensures ShapeInv(states[k]) && Rank(states[k]) >= 0
  {
    hide Next, Initial, StatusSafety.StatusInv, ReviewInv, ScoreInv, GateInv, VersionsInOrder;
    ReachableIsGood(states, actions, maxIterations, threshold, k);
    assert ShapeInv(states[k]);
  }

  // ----- supersteps and streams

  /** The graph supersteps of the current iteration that have started. */
  function Supersteps(pc: Pc): nat {
    match PhaseOf(pc)
    case Entering => if pc.Start? then 0 else 1
    case Streaming => 1
    case Finishing => 1
    case InReview => 2
    case Scoring => 3
    case Routing => 3
    case Parking => 4
    case Planning => if pc.OptUsage? || pc.OptTiming? || pc.OptStageNext? then 0 else 4
    case Closing => 0
  }

  /** At most this many generation streams of the current iteration have started. */
  function AttemptsStarted(pc: Pc): nat {
    match pc
    case Start => 0
    case GenEnter => 0
    case GenMark(_) => 0
    case GenBegin(_, attempt) => if attempt > 1 then attempt - 1 else 0
    case GenStream(_, attempt) => attempt
    case GenFailTiming(_, attempt, _) => attempt
    case GenFailUsage(_, attempt, _) => attempt
    case OptUsage(_, _) => 0
    case OptTiming(_, _) => 0
    case OptStageNext => 0
    case _ => 2
  }

  ghost predicate StepsInv(s: State) {
    var docs := s.run.snapshot.docs;
    && (!PhaseOf(s.pc).Closing? ==> s.supersteps == 4 * (docs.iteration - 1) + Supersteps(s.pc))
    && s.supersteps <= 4 * docs.maxIterations - 1
    && s.streams <= 2 * (docs.iteration - 1) + AttemptsStarted(s.pc)
  }

  lemma EntryCounts(s: State, input: Input)
    requires EntryStep(s, input).Some?
    ensures var s' := EntryStep(s, input).value;
      && s'.supersteps == s.supersteps + (if s.pc.Start? then 1 else 0)
      && s'.streams == s.streams + (if s.pc.GenBegin? then 1 else 0)
  {
    hide SetStage, Emit, Commit;
  }

  lemma StreamCounts(s: State, input: Input)
    requires StreamStep(s, input).Some?
    ensures StreamStep(s, input).value.supersteps == s.supersteps && StreamStep(s, input).value.streams == s.streams
  {
    hide Emit, RecordUsage, RecordTiming;
  }

  lemma FinishCounts(s: State, input: Input)
    requires FinishStep(s, input).Some?
    ensures var s' := FinishStep(s, input).value;
      s'.supersteps == s.supersteps + (if s.pc.GenStage? then 1 else 0) && s'.streams == s.streams
  {
    hide SetStage, Emit, RecordUsage, RecordTiming;
  }

  lemma LaterCounts(s: State, input: Input)
    requires WorkStep(s, input).Some?
    requires PhaseOf(s.pc).InReview? || PhaseOf(s.pc).Scoring? || PhaseOf(s.pc).Routing? || PhaseOf(s.pc).Closing?
    ensures var s' := WorkStep(s, input).value;
      && s'.streams == s.streams
      && s'.supersteps == s.supersteps + (if s'.pc.AggEnter? || (s.pc.AggRoute? && s'.pc.OptEnter?) then 1 else 0)
  {
    hide SetStage, EnterPaused, Transition, Emit, GatePassed, OutcomeOf, Terminal, AllReviewed, Aggregated,
      EvaluateReviews, EntryStep, StreamStep, FinishStep, ParkStep, PlanStep, FailRun, FinalizeCancel;
  }

  lemma ParkCounts(s: State, input: Input)
    requires ParkStep(s, input).Some?
    ensures ParkStep(s, input).value.supersteps == s.supersteps && ParkStep(s, input).value.streams == s.streams
  {
    hide SetStage, EnterPaused;
  }

  lemma PlanCounts(s: State, input: Input)
    requires PlanStep(s, input).Some?
    ensures var s' := PlanStep(s, input).value;
      s'.supersteps == s.supersteps + (if s.pc.OptStageNext? then 1 else 0) && s'.streams == s.streams
  {
    hide SetStage, Emit, RecordUsage, RecordTiming, ValidatedStructured;
  }

  lemma OtherCounts(s: State, a: Action)
    requires Next(s, a).Some? && !a.Work?
    ensures Next(s, a).value.supersteps == s.supersteps && Next(s, a).value.streams == s.streams
  {
    hide Emit, RecordUsage, RecordTiming, ValidatedStructured, RequestPause, Resume, RequestCancel, FinalizeCancel,
      WorkStep;
  }

  lemma DraftingKeepsCounts(s: State, input: Input)
    requires StepsInv(s) && ShapeInv(s) && WorkStep(s, input).Some?
    requires PhaseOf(s.pc).Entering? || PhaseOf(s.pc).Streaming? || PhaseOf(s.pc).Finishing? || PhaseOf(s.pc).InReview?
    ensures StepsInv(WorkStep(s, input).value)
  {
    hide EntryStep, StreamStep, FinishStep, JoinStep, VersionsInOrder, PastGate, Terminal;
    match PhaseOf(s.pc) {
      case Entering => EntryFlow(s, input); EntryCounts(s, input);
      case Streaming => StreamFlow(s, input); StreamCounts(s, input);
      case Finishing => FinishFlow(s, input); FinishCounts(s, input);
      case InReview => JoinFlow(s, input); LaterCounts(s, input);
    }
  }

  lemma DecidingKeepsCounts(s: State, input: Input)
    requires StepsInv(s) && ShapeInv(s) && WorkStep(s, input).Some?
    requires !PhaseOf(s.pc).Entering? && !PhaseOf(s.pc).Streaming?
    requires !PhaseOf(s.pc).Finishing? && !PhaseOf(s.pc).InReview?
    ensures StepsInv(WorkStep(s, input).value)
  {
    hide AggregatorStep, RouteStep, ParkStep, PlanStep, CloseStep, VersionsInOrder, LocalsFit, Aggregated,
      EvaluateReviews, AllReviewed, DecisionFits, Terminal;
    match PhaseOf(s.pc) {
      case Scoring => AggregatorFlow(s, input); LaterCounts(s, input); AggregatedKeepsBudget(s.run.snapshot.docs);
      case Routing => RouteFlow(s, input); LaterCounts(s, input);
      case Parking => ParkFlow(s, input); ParkCounts(s, input);
      case Planning => PlanFlow(s, input); PlanCounts(s, input);
      case Closing => CloseFlow(s, input); LaterCounts(s, input);
    }
  }

  lemma OthersKeepCounts(s: State, a: Action)
    requires StepsInv(s) && ShapeInv(s) && !a.Work? && Next(s, a).Some?
    ensures StepsInv(Next(s, a).value)
  {
    hide ReviewStep, UserStep, VersionsInOrder, LocalsFit, PastGate;
    OtherCounts(s, a);
    match a
    case Review(role, input) => ReviewFlow(s, role, input);
    case _ => UserFlow(s, a);
  }

  lemma StepKeepsCounts(s: State, a: Action)
    requires StepsInv(s) && ShapeInv(s) && Next(s, a).Some?
    ensures StepsInv(Next(s, a).value)
  {
    hide StepsInv, ShapeInv, WorkStep, ReviewStep, UserStep;
    if !a.Work? {
      OthersKeepCounts(s, a);
    } else {
      match PhaseOf(s.pc)
      case Entering => DraftingKeepsCounts(s, a.input);
      case Streaming => DraftingKeepsCounts(s, a.input);
      case Finishing => DraftingKeepsCounts(s, a.input);
      case InReview => DraftingKeepsCounts(s, a.input);
      case _ => DecidingKeepsCounts(s, a.input);
    }
  }

  lemma {:induction false} ReachableCounts(
    states: seq<State>, actions: seq<Action>, maxIterations: nat, threshold: nat, k: nat)
    requires IsRun(states, actions, maxIterations, threshold) && k < |states|
    ensures StepsInv(states[k]) && states[k].run.snapshot.docs.maxIterations == maxIterations
  {
    hide Next, StepsInv, Rank;
    if k == 0 {
      InitialCounts(maxIterations, threshold);
    } else {
      ReachableCounts(states, actions, maxIterations, threshold, k - 1);
      RankIsNatural(states, actions, maxIterations, threshold, k - 1);
      assert Next(states[k - 1], actions[k - 1]) == Some(states[k]);
      StepKeepsCounts(states[k - 1], actions[k - 1]);
      StepLowersRank(states[k - 1], actions[k - 1]);
    }
  }

  lemma InitialCounts(maxIterations: nat, threshold: nat)
    requires 1 <= maxIterations
    ensures StepsInv(Initial(maxIterations, threshold))
  {
  }

  /**
   A run takes at most 4n - 1 graph supersteps and opens at most 2n generation streams for a budget of n
   iterations; for the largest budget, five, that is nineteen supersteps, under the recursion limit of 40.
   */
  lemma BudgetBoundsSupersteps(states: seq<State>, actions: seq<Action>, maxIterations: nat, threshold: nat, k: nat)
    requires IsRun(states, actions, maxIterations, threshold) && k < |states|
    ensures states[k].supersteps <= 4 * maxIterations - 1 && states[k].streams <= 2 * maxIterations
    ensures maxIterations <= 5 ==> states[k].supersteps <= 19 < 40
  {
    hide Next, Initial, VersionsInOrder;
    ReachableCounts(states, actions, maxIterations, threshold, k);
    RankIsNatural(states, actions, maxIterations, threshold, k);
  }

  // ----- late results

  /** No version, review, plan or text was added; scores may still be filled in, and a new attempt starts empty. */
  ghost predicate SameResults(before: Docs, after: Docs) {
    && |after.versions| == |before.versions|
    && (forall i :: 0 <= i < |before.versions| ==>
          && after.versions[i].number == before.versions[i].number
          && after.versions[i].content == before.versions[i].content
          && after.versions[i].plan == before.versions[i].plan)
    && after.reviews == before.reviews
    && after.pendingPlan == before.pendingPlan
    && after.iteration == before.iteration
    && (after.currentPrd == before.currentPrd || after.currentPrd == [])
  }

  /** The three commits look at the event again, inside the commit. */
  lemma CancelledCommitsRaise(s: State, input: Input, role: Role)
    requires s.run.cancelSignal
    ensures s.pc.GenCommit? && FinishStep(s, input).Some? ==> FinishStep(s, input).value.pc.Ending?
    ensures s.pc.OptCommit? && PlanStep(s, input).Some? ==> PlanStep(s, input).value.pc.Ending?
    ensures s.reviewers.Get(role).RevCommit? && ReviewStep(s, role, input).Some? ==>
      ReviewStep(s, role, input).value.reviewers.Get(role).RevRaised?
  {
    hide SetStage, Emit, RecordUsage, RecordTiming;
  }

  lemma ScoringKeepsResults(docs: Docs, e: Evaluation)
    ensures SameResults(docs, Aggregated(docs, e))
  {
  }

  lemma DraftingKeepsSignal(s: State, input: Input)
    requires s.run.cancelSignal && WorkStep(s, input).Some?
    requires PhaseOf(s.pc).Entering? || PhaseOf(s.pc).Streaming? || PhaseOf(s.pc).Finishing? || PhaseOf(s.pc).InReview?
    ensures WorkStep(s, input).value.run.cancelSignal
  {
    hide CanTransition, Spend, AddTimingTo, AggregatorStep, RouteStep, ParkStep, PlanStep, CloseStep;
  }

  lemma DecidingKeepsSignal(s: State, input: Input)
    requires s.run.cancelSignal && WorkStep(s, input).Some?
    requires PhaseOf(s.pc).Scoring? || PhaseOf(s.pc).Routing? || PhaseOf(s.pc).Parking?
    ensures WorkStep(s, input).value.run.cancelSignal
  {
    hide CanTransition, Aggregated, EvaluateReviews, AllReviewed, OutcomeOf, GatePassed, ScoresPayload, Terminal,
      EntryStep, StreamStep, FinishStep, JoinStep, PlanStep, CloseStep;
  }

  lemma PlanningKeepsSignal(s: State, input: Input)
    requires s.run.cancelSignal && WorkStep(s, input).Some? && (PhaseOf(s.pc).Planning? || PhaseOf(s.pc).Closing?)
    ensures WorkStep(s, input).value.run.cancelSignal
  {
    hide CanTransition, Spend, AddTimingTo, ValidatedStructured, EntryStep, StreamStep, FinishStep, JoinStep,
      AggregatorStep, RouteStep, ParkStep;
  }

  lemma OthersKeepSignal(s: State, a: Action)
    requires s.run.cancelSignal && !a.Work? && Next(s, a).Some?
    ensures Next(s, a).value.run.cancelSignal
  {
    hide CanTransition, Spend, AddTimingTo, ValidatedStructured, Terminal;
  }

  lemma CancelIsRemembered(s: State, a: Action)
    requires s.run.cancelSignal && Next(s, a).Some?
    ensures Next(s, a).value.run.cancelSignal
  {
    hide WorkStep, ReviewStep, UserStep;
    if !a.Work? {
      OthersKeepSignal(s, a);
    } else if PhaseOf(s.pc).Planning? || PhaseOf(s.pc).Closing? {
      PlanningKeepsSignal(s, a.input);
    } else if PhaseOf(s.pc).Scoring? || PhaseOf(s.pc).Routing? || PhaseOf(s.pc).Parking? {
      DecidingKeepsSignal(s, a.input);
    } else {
      DraftingKeepsSignal(s, a.input);
    }
  }

  lemma StepRejectsLateResults(s: State, a: Action)
    requires s.run.cancelSignal && Next(s, a).Some?
    ensures SameResults(s.run.snapshot.docs, Next(s, a).value.run.snapshot.docs)
  {
    hide EntryStep, StreamStep, FinishStep, JoinStep, AggregatorStep, RouteStep, ParkStep, PlanStep, CloseStep,
      ReviewStep, UserStep, Aggregated, EvaluateReviews, AllReviewed, DecisionFits, Terminal, NotDecided;
    match a
    case Work(input) =>
      CancelledCommitsRaise(s, input, Tech);
      match PhaseOf(s.pc) {
        case Entering => EntryFlow(s, input);
        case Streaming => StreamFlow(s, input);
        case Finishing => FinishFlow(s, input);
        case InReview => JoinFlow(s, input);
        case Scoring =>
          AggregatorFlow(s, input);
          if AllReviewed(s.run.snapshot.docs.reviews) {
            ScoringKeepsResults(s.run.snapshot.docs, EvaluateReviews(s.run.snapshot.docs.reviews));
          }
        case Routing => RouteFlow(s, input);
        case Parking => ParkFlow(s, input);
        case Planning => PlanFlow(s, input);
        case Closing => CloseFlow(s, input);
      }
    case Review(role, input) =>
      CancelledCommitsRaise(s, input, role);
      ReviewFlow(s, role, input);
    case _ => UserFlow(s, a);
  }

  /** Once the cancel event is set, no later step of any node adds a version, a review, a plan or any text. */
  lemma {:induction false} LateResultsAreRejected(
    states: seq<State>, actions: seq<Action>, maxIterations: nat, threshold: nat, j: nat, k: nat)
    requires IsRun(states, actions, maxIterations, threshold) && j <= k < |states|
    requires states[j].run.cancelSignal
    ensures states[k].run.cancelSignal && SameResults(states[j].run.snapshot.docs, states[k].run.snapshot.docs)
    decreases k - j
  {
    hide Next, Initial;
    if j < k {
      LateResultsAreRejected(states, actions, maxIterations, threshold, j, k - 1);
      assert Next(states[k - 1], actions[k - 1]) == Some(states[k]);
      CancelIsRemembered(states[k - 1], actions[k - 1]);
      StepRejectsLateResults(states[k - 1], actions[k - 1]);
    }
  }
}
