/**
 One run as a concurrent protocol (`backend/workflow.py` over `backend/run_manager.py`).

 The workflow, its three parallel reviewers and the user's pause, resume and cancel calls take
 turns.  A step is one commit or transition together with the checks made directly before it: there is
 no suspension point between an uncontended lock's check and its commit.  `cancel_run` is three steps.
 What a provider does is an input: any text, usage, review or plan, a failure, or a deadline passing.
 */
module Workflow {
  import opened Wrappers
  import opened RunTypes
  import opened RunManager

  // ----- structured calls

  /** One provider call: an answer (which may not validate), an error worth a retry, or another error. */
  datatype Reply<T> = Answer(parsed: Option<T>, usage: Usage) | RetryableError | OtherError

  datatype CallOutcome<T> = Obtained(value: T, usage: Usage) | Broken

  /** `_validated_structured`: at most two attempts, then at most one repair whose spend is added. */
  function ValidatedStructured<T>(first: Reply<T>, second: Reply<T>, repair: Reply<T>): CallOutcome<T> {
    var result := if first.RetryableError? then second else first;
    if !result.Answer? then Broken
    else if result.parsed.Some? then Obtained(result.parsed.value, result.usage)
    else if repair.Answer? && repair.parsed.Some?
    then Obtained(repair.parsed.value, AddUsage(result.usage, repair.usage))
    else Broken
  }

  // ----- the protocol's state

  /** Why the workflow's exception handlers are reached; `Illegal` is a refused `require_transition`. */
  datatype Cause = CancelSeen | Faulted | Illegal

  /** What the generator keeps from the snapshot it read on entry. */
  datatype GenLocals = GenLocals(iteration: nat, plan: Option<Plan>)

  datatype Pc =
    | Start
    | GenEnter | GenMark(g: GenLocals) | GenBegin(g: GenLocals, attempt: nat) | GenStream(g: GenLocals, attempt: nat)
    | GenFailTiming(g: GenLocals, attempt: nat, spent: Option<Usage>)
    | GenFailUsage(g: GenLocals, attempt: nat, used: Usage)
    | GenCommit(g: GenLocals, attempt: nat, content: Text, used: Usage)
    | GenUsage(g: GenLocals, attempt: nat, used: Usage) | GenTiming(g: GenLocals, attempt: nat, used: Usage) | GenStage
    | Reviews
    | AggEnter | AggMark | AggCommit | AggDecide(evaluation: Evaluation, seen: Status) | AggWait | AggRoute
    | OptEnter | OptPause | OptWait | OptStage | OptPauseAgain | OptWaitAgain | OptStageAgain
    | OptMark | OptCall(iteration: nat) | OptCommit(iteration: nat, plan: Plan, used: Usage)
    | OptUsage(iteration: nat, used: Usage) | OptTiming(iteration: nat, used: Usage) | OptStageNext
    | Ending(cause: Cause) | Done

  datatype RevPc =
    | RevIdle | RevEnter | RevCall(iteration: nat) | RevCommit(iteration: nat, review: Review, used: Usage)
    | RevUsage(iteration: nat, used: Usage) | RevTiming(iteration: nat, used: Usage) | RevDone | RevRaised(cause: Cause)

  /**
   `askedCancels` and `signalledCancels` count user cancel calls between their steps.  The last four
   fields are history: whether a cancel was ever asked for, whether a generation is in flight, and how
   many graph supersteps and generation streams have started.
   */
  datatype State = State(
    pc: Pc, reviewers: Trio<RevPc>, run: Run,
    askedCancels: nat, signalledCancels: nat,
    everCancelled: bool, inFlight: bool, supersteps: nat, streams: nat)

  function Initial(maxIterations: nat, threshold: nat): State {
    var docs := Docs(1, maxIterations, threshold, [], [], 1, None, None, None, NO_REVIEWS, None);
    var snapshot := Snapshot(Queued, docs, Spending(NO_USAGE, EMPTY_LEDGER, []), None, 0);
    State(Start, Trio(RevIdle, RevIdle, RevIdle), Run(snapshot, [], false, false), 0, 0, false, false, 0, 0)
  }

  // ----- inputs

  datatype Input =
    | Go                                                        // run on to the next commit
    | Expire                                                    // a deadline passes at a check or in a call
    | Delta(text: Text)                                         // buffered text is flushed
    | StreamEnds(content: Text, usage: Usage)                   // a usable document, stripped, never empty
    | StreamFails(retryable: bool, spent: Option<Usage>)        // the attempt breaks off
    | Reviewed(first: Reply<Review>, second: Reply<Review>, repair: Reply<Review>)
    | Planned(planFirst: Reply<Plan>, planSecond: Reply<Plan>, planRepair: Reply<Plan>)
    | Collapse(role: Role)                                      // a raised reviewer ends the superstep

  datatype Action =
    | Work(input: Input)
    | Review(role: Role, reviewInput: Input)
    | UserPause | UserResume(userOverride: Option<Text>)
    | UserCancelAsks | UserCancelSignals | UserCancelFinalizes

  function Raise(s: State, cause: Cause): State { s.(pc := Ending(cause)) }

  /** A step that may be refused by the status table. */
  function Checked(s: State, r: Result<Run, Error>, next: Pc): State {
    match r
    case Success(run) => s.(run := run, pc := next)
    case Failure(_) => Raise(s, Illegal)
  }

  function Put(s: State, run: Run, next: Pc): State { s.(run := run, pc := next) }

  // ----- the generator node

  function BeginStream(s: State, g: GenLocals, attempt: nat): State {
    var docs := s.run.snapshot.docs.(currentPrd := [], currentPrdAttempt := attempt);
    var payload := if attempt > 1 then Some(PrdStreamReset(g.iteration, attempt)) else None;
    s.(run := Commit(s.run, s.run.snapshot.(docs := docs), payload), pc := GenStream(g, attempt), inFlight := true,
        streams := s.streams + 1)
  }

  function FlushDelta(s: State, g: GenLocals, attempt: nat, text: Text): State {
    var docs := s.run.snapshot.docs.(currentPrd := s.run.snapshot.docs.currentPrd + text);
    s.(run := Emit(s.run, s.run.snapshot.(docs := docs), PrdDelta(g.iteration, attempt, text)))
  }

  function RetryOrRaise(s: State, g: GenLocals, attempt: nat): State {
    if attempt >= 2 then Raise(s, Faulted) else s.(pc := GenBegin(g, attempt + 1))
  }

  function FinishGeneration(s: State, g: GenLocals, attempt: nat, content: Text, usage: Usage): State {
    var version := Version(g.iteration, content, None, g.plan, usage);
    var docs := s.run.snapshot.docs.(
      versions := s.run.snapshot.docs.versions + [version],
      currentPrd := content, currentPrdAttempt := attempt, pendingPlan := None);
    s.(run := Emit(s.run, s.run.snapshot.(docs := docs), PrdGenerated(g.iteration, attempt, content)),
       pc := GenUsage(g, attempt, usage), inFlight := false)
  }

  /** From the start of the node to the opening of a stream. */
  function EntryStep(s: State, input: Input): Option<State> {
    var run := s.run;
    match s.pc
    case Start =>
      if input.Go? then
        Some(s.(run := Emit(run, run.snapshot, RunStarted), pc := GenEnter, supersteps := s.supersteps + 1))
      else None
    case GenEnter =>
      if run.cancelSignal && input.Go? then Some(Raise(s, CancelSeen))
      else if input.Expire? && !run.cancelSignal then Some(Raise(s, Faulted))
      else if input.Go? then
        Some(Checked(s, SetStage(run, Generating),
                     GenMark(GenLocals(run.snapshot.docs.iteration, run.snapshot.docs.pendingPlan))))
      else None
    case GenMark(g) =>
      if input.Go? then Some(Put(s, Emit(run, run.snapshot, NodeStarted(Generator)), GenBegin(g, 1))) else None
    case GenBegin(g, attempt) =>
      if input.Go? then Some(BeginStream(s, g, attempt)) else None
    case _ => None
  }

  /** One generation attempt, and what a failed one records before the next. */
  function StreamStep(s: State, input: Input): Option<State> {
    var run := s.run;
    match s.pc
    case GenStream(g, attempt) =>
      (match input
       case Go => if run.cancelSignal then Some(Raise(s, CancelSeen)) else None
       case Delta(text) =>
         if text == [] then None
         else if run.cancelSignal then Some(Raise(s, CancelSeen))
         else Some(FlushDelta(s, g, attempt, text))
       case StreamEnds(content, usage) =>
         if content == [] then None else Some(s.(pc := GenCommit(g, attempt, content, usage)))
       case StreamFails(retryable, spent) =>
         Some(if retryable then s.(pc := GenFailTiming(g, attempt, spent)) else Raise(s, Faulted))
       case _ => None)
    case GenFailTiming(g, attempt, spent) =>
      if !input.Go? then None
      else
        var usage := if spent.Some? then spent.value else NO_USAGE;
        var timed := s.(run := RecordTiming(run, Timing(Generator, g.iteration, attempt, false, usage)));
        Some(if spent.Some? then timed.(pc := GenFailUsage(g, attempt, spent.value))
             else RetryOrRaise(timed, g, attempt))
    case GenFailUsage(g, attempt, used) =>
      if input.Go? then Some(RetryOrRaise(s.(run := RecordUsage(run, Generator, used)), g, attempt)) else None
    case _ => None
  }

  /** From a usable document to the reviews. */
  function FinishStep(s: State, input: Input): Option<State> {
    var run := s.run;
    match s.pc
    case GenCommit(g, attempt, content, used) =>
      if run.cancelSignal && input.Go? then Some(Raise(s, CancelSeen))
      else if input.Expire? && !run.cancelSignal then Some(Raise(s, Faulted))
      else if input.Go? then Some(FinishGeneration(s, g, attempt, content, used))
      else None
    case GenUsage(g, attempt, used) =>
      if input.Go? then Some(Put(s, RecordUsage(run, Generator, used), GenTiming(g, attempt, used))) else None
    case GenTiming(g, attempt, used) =>
      if input.Go? then
        Some(Put(s, RecordTiming(run, Timing(Generator, g.iteration, attempt, true, used)), GenStage))
      else None
    case GenStage =>
      if input.Go? then
        Some(Checked(s.(supersteps := s.supersteps + 1, reviewers := Trio(RevEnter, RevEnter, RevEnter)),
                     SetStage(run, Reviewing), Reviews))
      else None
    case _ => None
  }

  // ----- the reviewer nodes

  function MoveReviewer(s: State, role: Role, run: Run, next: RevPc): State {
    s.(run := run, reviewers := s.reviewers.Set(role, next))
  }

  function FinishReview(s: State, role: Role, iteration: nat, review: RunTypes.Review, usage: Usage): State {
    var docs := s.run.snapshot.docs.(reviews := s.run.snapshot.docs.reviews.Set(role, Some(review)));
    MoveReviewer(s, role, Emit(s.run, s.run.snapshot.(docs := docs), ReviewCompleted(review)),
                 RevUsage(iteration, usage))
  }

  function ReviewStep(s: State, role: Role, input: Input): Option<State> {
    var run := s.run;
    if !s.pc.Reviews? then None
    else
      match s.reviewers.Get(role)
      case RevEnter =>
        if run.cancelSignal && input.Go? then Some(MoveReviewer(s, role, run, RevRaised(CancelSeen)))
        else if input.Expire? && !run.cancelSignal then Some(MoveReviewer(s, role, run, RevRaised(Faulted)))
        else if input.Go? then
          Some(MoveReviewer(s, role, Emit(run, run.snapshot, NodeStarted(Reviewer(role))),
                            RevCall(run.snapshot.docs.iteration)))
        else None
      case RevCall(iteration) =>
        if !input.Reviewed? then None
        else if run.cancelSignal then Some(MoveReviewer(s, role, run, RevRaised(CancelSeen)))
        else
          (match ValidatedStructured(input.first, input.second, input.repair)
           case Obtained(review, usage) =>
             Some(MoveReviewer(s, role, run,
                               if review.role == role then RevCommit(iteration, review, usage) else RevRaised(Faulted)))
           case Broken => Some(MoveReviewer(s, role, run, RevRaised(Faulted))))
      case RevCommit(iteration, review, used) =>
        if run.cancelSignal && input.Go? then Some(MoveReviewer(s, role, run, RevRaised(CancelSeen)))
        else if input.Expire? && !run.cancelSignal then Some(MoveReviewer(s, role, run, RevRaised(Faulted)))
        else if input.Go? then Some(FinishReview(s, role, iteration, review, used))
        else None
      case RevUsage(iteration, used) =>
        if input.Go? then
          Some(MoveReviewer(s, role, RecordUsage(run, Reviewer(role), used), RevTiming(iteration, used)))
        else None
      case RevTiming(iteration, used) =>
        if input.Go? then
          Some(MoveReviewer(s, role, RecordTiming(run, Timing(Reviewer(role), iteration, 1, true, used)), RevDone))
        else None
      case _ => None
  }

  /** The superstep ends: all three reviews are in, or one reviewer raised and the rest are dropped. */
  function JoinStep(s: State, input: Input): Option<State> {
    match input
    case Go =>
      if s.reviewers == Trio(RevDone, RevDone, RevDone) then
        Some(s.(pc := AggEnter, supersteps := s.supersteps + 1))
      else None
    case Collapse(role) =>
      if s.reviewers.Get(role).RevRaised? then Some(Raise(s, s.reviewers.Get(role).cause)) else None
    case _ => None
  }

  // ----- the aggregator node

  predicate AllReviewed(reviews: Trio<Option<RunTypes.Review>>) {
    reviews.tech.Some? && reviews.ux.Some? && reviews.biz.Some?
  }

  function ScoreVersions(versions: seq<Version>, evaluation: Evaluation): seq<Version> {
    if versions == [] then []
    else versions[..|versions| - 1] + [versions[|versions| - 1].(evaluation := Some(evaluation))]
  }

  /** The aggregate commit: evaluate the last version and move the best on strict improvement. */
  function Aggregated(docs: Docs, evaluation: Evaluation): Docs {
    var improved := docs.bestScore.None? || evaluation.overall > docs.bestScore.value;
    docs.(
      latestEvaluation := Some(evaluation),
      versions := ScoreVersions(docs.versions, evaluation),
      bestScore := if improved then Some(evaluation.overall) else docs.bestScore,
      bestVersion := if improved then Some(docs.iteration) else docs.bestVersion)
  }

  function ScoresPayload(docs: Docs, e: Evaluation): Payload {
    ScoresUpdated(e.tech.score, e.ux.score, e.biz.score, e.overall, docs.bestVersion, docs.bestScore,
                  CountsOf(e.combined))
  }

  function OutcomeOf(docs: Docs, e: Evaluation): Outcome {
    Outcome(docs.iteration, docs.bestVersion, docs.bestScore, docs.threshold, docs.iteration,
            docs.maxIterations, ThresholdMet(e, docs.threshold), GatePassed(e, docs.threshold), CountsOf(e.combined))
  }

  function EvaluateReviews(reviews: Trio<Option<RunTypes.Review>>): Evaluation
    requires AllReviewed(reviews)
  {
    Evaluate(reviews.tech.value, reviews.ux.value, reviews.biz.value)
  }

  function AggregateStep(s: State): State {
    var snapshot := s.run.snapshot;
    if !AllReviewed(snapshot.docs.reviews) then Raise(s, Faulted)
    else
      var e := EvaluateReviews(snapshot.docs.reviews);
      var docs := Aggregated(snapshot.docs, e);
      Put(s, Emit(s.run, snapshot.(docs := docs), ScoresPayload(docs, e)), AggDecide(e, snapshot.status))
  }

  /** The gate, the budget and the pause point, decided on the status the aggregate commit returned. */
  function DecideStep(s: State, e: Evaluation, seen: Status): State {
    var run := s.run;
    var outcome := OutcomeOf(run.snapshot.docs, e);
    if GatePassed(e, run.snapshot.docs.threshold)
    then Checked(s, Transition(run, Completed, RunCompleted(outcome)), AggRoute)
    else if run.snapshot.docs.iteration >= run.snapshot.docs.maxIterations then
      Checked(s, Transition(run, MaxIterationsReached, BudgetSpent(outcome)), AggRoute)
    else if seen.PauseRequested? then Checked(s, EnterPaused(run), AggWait)
    else Checked(s, SetStage(run, Optimizing), AggRoute)
  }

  /** Waking from a pause: a resume or a cancel ends the wait, and the cancel is looked at first. */
  function WakeStep(s: State, input: Input, next: Pc): Option<State> {
    if !(s.run.resumeSignal || s.run.cancelSignal) then None
    else if s.run.cancelSignal && input.Go? then Some(Raise(s, CancelSeen))
    else if input.Expire? && !s.run.cancelSignal then Some(Raise(s, Faulted))
    else if input.Go? then Some(s.(pc := next))
    else None
  }

  function AggregatorStep(s: State, input: Input): Option<State> {
    var run := s.run;
    match s.pc
    case AggEnter =>
      if run.cancelSignal && input.Go? then Some(Raise(s, CancelSeen))
      else if input.Expire? && !run.cancelSignal then Some(Raise(s, Faulted))
      else if input.Go? then Some(Checked(s, SetStage(run, Aggregating), AggMark))
      else None
    case AggMark =>
      if input.Go? then Some(Put(s, Emit(run, run.snapshot, NodeStarted(Aggregator)), AggCommit)) else None
    case AggCommit => if input.Go? then Some(AggregateStep(s)) else None
    case _ => None
  }

  /** From the decision to the next node. */
  function RouteStep(s: State, input: Input): Option<State> {
    var run := s.run;
    match s.pc
    case AggDecide(e, seen) => if input.Go? then Some(DecideStep(s, e, seen)) else None
    case AggWait => WakeStep(s, input, AggRoute)
    case AggRoute =>
      if !input.Go? then None
      else if Terminal(run.snapshot.status) then Some(s.(pc := Done))
      else Some(s.(pc := OptEnter, supersteps := s.supersteps + 1))
    case _ => None
  }

  // ----- the optimizer node

  function FinishOptimizer(s: State, iteration: nat, plan: Plan, usage: Usage): State {
    var docs := s.run.snapshot.docs.(
      pendingPlan := Some(plan), iteration := s.run.snapshot.docs.iteration + 1, reviews := NO_REVIEWS);
    var snapshot := s.run.snapshot.(docs := docs, pendingOverride := None);
    Put(s, Emit(s.run, snapshot, RevisionPlanned(plan)), OptUsage(iteration, usage))
  }

  /** The optimizer's pause points. */
  function ParkStep(s: State, input: Input): Option<State> {
    var run := s.run;
    match s.pc
    case OptEnter =>
      if run.cancelSignal && input.Go? then Some(Raise(s, CancelSeen))
      else if input.Expire? && !run.cancelSignal then Some(Raise(s, Faulted))
      else if input.Go? then Some(s.(pc := if run.snapshot.status.PauseRequested? then OptPause else OptStage))
      else None
    case OptPause => if input.Go? then Some(Checked(s, EnterPaused(run), OptWait)) else None
    case OptWait => WakeStep(s, input, OptStage)
    case OptStage =>
      if !input.Go? then None
      else
        (match SetStage(run, Optimizing)
         case Failure(_) => Some(Raise(s, Illegal))
         case Success(staged) =>
           Some(Put(s, staged, if staged.snapshot.status.PauseRequested? then OptPauseAgain else OptMark)))
    case OptPauseAgain => if input.Go? then Some(Checked(s, EnterPaused(run), OptWaitAgain)) else None
    case OptWaitAgain => WakeStep(s, input, OptStageAgain)
    case OptStageAgain => if input.Go? then Some(Checked(s, SetStage(run, Optimizing), OptMark)) else None
    case _ => None
  }

  /** The revision plan, and the move to the next iteration. */
  function PlanStep(s: State, input: Input): Option<State> {
    var run := s.run;
    match s.pc
    case OptMark =>
      if input.Go? then
        Some(Put(s, Emit(run, run.snapshot, NodeStarted(Optimizer)), OptCall(run.snapshot.docs.iteration)))
      else None
    case OptCall(iteration) =>
      if run.snapshot.docs.latestEvaluation.None? then (if input.Go? then Some(Raise(s, Faulted)) else None)
      else if !input.Planned? then None
      else if run.cancelSignal then Some(Raise(s, CancelSeen))
      else
        (match ValidatedStructured(input.planFirst, input.planSecond, input.planRepair)
         case Obtained(plan, usage) => Some(s.(pc := OptCommit(iteration, plan, usage)))
         case Broken => Some(Raise(s, Faulted)))
    case OptCommit(iteration, plan, used) =>
      if run.cancelSignal && input.Go? then Some(Raise(s, CancelSeen))
      else if input.Expire? && !run.cancelSignal then Some(Raise(s, Faulted))
      else if input.Go? then Some(FinishOptimizer(s, iteration, plan, used))
      else None
    case OptUsage(iteration, used) =>
      if input.Go? then Some(Put(s, RecordUsage(run, Optimizer, used), OptTiming(iteration, used))) else None
    case OptTiming(iteration, used) =>
      if input.Go? then
        Some(Put(s, RecordTiming(run, Timing(Optimizer, iteration, 1, true, used)), OptStageNext))
      else None
    case OptStageNext =>
      if input.Go? then Some(Checked(s.(supersteps := s.supersteps + 1), SetStage(run, Generating), GenEnter)) else None
    case _ => None
  }

  // ----- how a workflow ends

  /** The exception handlers: a cancel is finalized, anything else fails the run unless it is cancelled. */
  function EndStep(s: State, cause: Cause): State {
    var run := if cause.CancelSeen? || s.run.cancelSignal then FinalizeCancel(s.run) else FailRun(s.run);
    Put(s, run, Done)
  }

  datatype Phase = Entering | Streaming | Finishing | InReview | Scoring | Routing | Parking | Planning | Closing

  function PhaseOf(pc: Pc): Phase {
    if pc.Start? || pc.GenEnter? || pc.GenMark? || pc.GenBegin? then Entering
    else if pc.GenStream? || pc.GenFailTiming? || pc.GenFailUsage? then Streaming
    else if pc.GenCommit? || pc.GenUsage? || pc.GenTiming? || pc.GenStage? then Finishing
    else if pc.Reviews? then InReview
    else if pc.AggEnter? || pc.AggMark? || pc.AggCommit? then Scoring
    else if pc.AggDecide? || pc.AggWait? || pc.AggRoute? then Routing
    else if
      || pc.OptEnter? || pc.OptPause? || pc.OptWait? || pc.OptStage?
      || pc.OptPauseAgain? || pc.OptWaitAgain? || pc.OptStageAgain?
    then Parking
    else if pc.Ending? || pc.Done? then Closing
    else Planning
  }

  function CloseStep(s: State, input: Input): Option<State> {
    if s.pc.Ending? && input.Go? then Some(EndStep(s, s.pc.cause)) else None
  }

  function WorkStep(s: State, input: Input): Option<State> {
    match PhaseOf(s.pc)
    case Entering => EntryStep(s, input)
    case Streaming => StreamStep(s, input)
    case Finishing => FinishStep(s, input)
    case InReview => JoinStep(s, input)
    case Scoring => AggregatorStep(s, input)
    case Routing => RouteStep(s, input)
    case Parking => ParkStep(s, input)
    case Planning => PlanStep(s, input)
    case Closing => CloseStep(s, input)
  }

  // ----- the user

  /** A refused request raises in the caller and changes nothing. */
  function Accepted(s: State, r: Result<Run, Error>): State {
    if r.Success? then s.(run := r.value) else s
  }

  function AskCancel(s: State): State {
    match RequestCancel(s.run)
    case Failure(_) => s
    case Success(run) =>
      if s.run.snapshot.status.Cancelled? then s
      else s.(run := run, askedCancels := s.askedCancels + 1, everCancelled := true)
  }

  function UserStep(s: State, a: Action): Option<State>
    requires !a.Work? && !a.Review?
  {
    match a
    case UserPause => Some(Accepted(s, RequestPause(s.run)))
    case UserResume(userOverride) => Some(Accepted(s, Resume(s.run, userOverride)))
    case UserCancelAsks => Some(AskCancel(s))
    case UserCancelSignals =>
      if s.askedCancels == 0 then None
      else Some(s.(run := SignalCancel(s.run), askedCancels := s.askedCancels - 1,
          signalledCancels := s.signalledCancels + 1))
    case UserCancelFinalizes =>
      if s.signalledCancels == 0 then None
      else Some(s.(run := FinalizeCancel(s.run), signalledCancels := s.signalledCancels - 1))
  }

  /** The step an action takes, when it is enabled. */
  function Next(s: State, a: Action): Option<State> {
    match a
    case Work(input) => WorkStep(s, input)
    case Review(role, input) => ReviewStep(s, role, input)
    case _ => UserStep(s, a)
  }

  // ----- runs

  /** `states` and `actions` form a run of the protocol from its initial state. */
  ghost predicate IsRun(states: seq<State>, actions: seq<Action>, maxIterations: nat, threshold: nat) {
    && 1 <= maxIterations
    && |states| == |actions| + 1
    && states[0] == Initial(maxIterations, threshold)
    && forall k :: 0 <= k < |actions| ==> Next(states[k], actions[k]) == Some(states[k + 1])
  }
}
