/**
 What each event of a run says about the step that appended it: every step of the protocol either leaves
 the log and the shown state alone, or appends exactly one event from which the change can be read off.
 */
module EventMeaning {
  import opened Wrappers
  import opened RunTypes
  import opened RunManager
  import opened Workflow
  import opened StepFlow
  import opened RunShape

  // ----- the current document

  /** A generation attempt is open. */
  predicate Streams(pc: Pc) { pc.GenStream? || pc.GenFailTiming? || pc.GenFailUsage? || pc.GenCommit? }

  function LastContent(versions: seq<Version>): Text {
    if versions == [] then [] else versions[|versions| - 1].content
  }

  /** While a document is in flight its attempt is on record; otherwise the current text is the last version's. */
  ghost predicate DraftInv(s: State) {
    var docs := s.run.snapshot.docs;
    && 1 <= docs.currentPrdAttempt
    && (s.inFlight ==> |docs.versions| == docs.iteration - 1)
    && (Streams(s.pc) ==> s.inFlight && docs.currentPrdAttempt == s.pc.attempt)
    && (s.pc.GenBegin? ==>
          if s.pc.attempt == 1 then !s.inFlight else s.inFlight && docs.currentPrdAttempt == s.pc.attempt - 1)
    && (!Streams(s.pc) && !s.pc.GenBegin? && !PhaseOf(s.pc).Closing? ==> !s.inFlight)
    && (!s.inFlight ==>
        docs.currentPrd == LastContent(docs.versions) && (docs.versions == [] ==> docs.currentPrdAttempt == 1))
  }

  /** The current iteration's reviews are the ones its version was scored on; a new iteration has none. */
  ghost predicate RoundInv(s: State) {
    var docs := s.run.snapshot.docs;
    && (|docs.versions| == docs.iteration - 1 ==> docs.reviews == NO_REVIEWS)
    && (|docs.versions| == docs.iteration && LastScored(docs.versions) ==>
          && AllReviewed(docs.reviews)
          && docs.versions[|docs.versions| - 1].evaluation.value == EvaluateReviews(docs.reviews))
  }

  lemma AggregatedRound(docs: Docs, e: Evaluation)
    ensures var after := Aggregated(docs, e);
      && |after.versions| == |docs.versions| && after.reviews == docs.reviews && after.iteration == docs.iteration
      && LastContent(after.versions) == LastContent(docs.versions)
      && after.currentPrd == docs.currentPrd && after.currentPrdAttempt == docs.currentPrdAttempt
      && (docs.versions != [] ==> after.versions[|docs.versions| - 1].evaluation == Some(e))
  {
  }

  lemma EntryKeepsDraft(s: State, input: Input)
    requires DraftInv(s) && ShapeInv(s) && PhaseOf(s.pc).Entering? && EntryStep(s, input).Some?
    ensures DraftInv(EntryStep(s, input).value)
  {
    hide EntryStep, VersionsInOrder;
    EntryFlow(s, input);
  }

  lemma StreamKeepsDraft(s: State, input: Input)
    requires DraftInv(s) && ShapeInv(s) && PhaseOf(s.pc).Streaming? && StreamStep(s, input).Some?
    ensures DraftInv(StreamStep(s, input).value)
  {
    hide StreamStep, VersionsInOrder;
    StreamFlow(s, input);
  }

  lemma FinishKeepsDraft(s: State, input: Input)
    requires DraftInv(s) && ShapeInv(s) && PhaseOf(s.pc).Finishing? && FinishStep(s, input).Some?
    ensures DraftInv(FinishStep(s, input).value)
  {
    hide FinishStep, VersionsInOrder;
    FinishFlow(s, input);
  }

  lemma JoinKeepsDraft(s: State, input: Input)
    requires DraftInv(s) && ShapeInv(s) && PhaseOf(s.pc).InReview? && JoinStep(s, input).Some?
    ensures DraftInv(JoinStep(s, input).value)
  {
    hide JoinStep, VersionsInOrder;
    JoinFlow(s, input);
  }

  lemma AggregatorKeepsDraft(s: State, input: Input)
    requires DraftInv(s) && ShapeInv(s) && PhaseOf(s.pc).Scoring? && AggregatorStep(s, input).Some?
    ensures DraftInv(AggregatorStep(s, input).value)
  {
    hide AggregatorStep, VersionsInOrder, EvaluateReviews, AllReviewed, Aggregated, LastContent;
    AggregatorFlow(s, input);
    if AllReviewed(s.run.snapshot.docs.reviews) {
      AggregatedRound(s.run.snapshot.docs, EvaluateReviews(s.run.snapshot.docs.reviews));
    }
  }

  lemma RouteKeepsDraft(s: State, input: Input)
    requires DraftInv(s) && ShapeInv(s) && PhaseOf(s.pc).Routing? && RouteStep(s, input).Some?
    ensures DraftInv(RouteStep(s, input).value)
  {
    hide RouteStep, VersionsInOrder, GatePassed;
    RouteFlow(s, input);
  }

  lemma ParkKeepsDraft(s: State, input: Input)
    requires DraftInv(s) && ShapeInv(s) && PhaseOf(s.pc).Parking? && ParkStep(s, input).Some?
    ensures DraftInv(ParkStep(s, input).value)
  {
    hide ParkStep, VersionsInOrder;
    ParkFlow(s, input);
  }

  lemma PlanKeepsDraft(s: State, input: Input)
    requires DraftInv(s) && ShapeInv(s) && PhaseOf(s.pc).Planning? && PlanStep(s, input).Some?
    ensures DraftInv(PlanStep(s, input).value)
  {
    hide PlanStep, VersionsInOrder;
    PlanFlow(s, input);
  }

  lemma CloseKeepsDraft(s: State, input: Input)
    requires DraftInv(s) && ShapeInv(s) && PhaseOf(s.pc).Closing? && CloseStep(s, input).Some?
    ensures DraftInv(CloseStep(s, input).value)
  {
    hide CloseStep, VersionsInOrder;
    CloseFlow(s, input);
  }

  lemma ReviewKeepsDraft(s: State, role: Role, input: Input)
    requires DraftInv(s) && ReviewStep(s, role, input).Some?
    ensures DraftInv(ReviewStep(s, role, input).value)
  {
    hide ReviewStep;
    ReviewFlow(s, role, input);
  }

  lemma UserKeepsDraft(s: State, a: Action)
    requires DraftInv(s) && !a.Work? && !a.Review? && UserStep(s, a).Some?
    ensures DraftInv(UserStep(s, a).value)
  {
    hide UserStep;
    UserFlow(s, a);
  }

  lemma StepKeepsDraft(s: State, a: Action)
    requires DraftInv(s) && ShapeInv(s) && Next(s, a).Some?
    ensures DraftInv(Next(s, a).value)
  {
    hide DraftInv, ShapeInv, EntryStep, StreamStep, FinishStep, JoinStep, AggregatorStep, RouteStep, ParkStep,
      PlanStep, CloseStep, ReviewStep, UserStep;
    match a
    case Work(input) =>
      match PhaseOf(s.pc) {
        case Entering => EntryKeepsDraft(s, input);
        case Streaming => StreamKeepsDraft(s, input);
        case Finishing => FinishKeepsDraft(s, input);
        case InReview => JoinKeepsDraft(s, input);
        case Scoring => AggregatorKeepsDraft(s, input);
        case Routing => RouteKeepsDraft(s, input);
        case Parking => ParkKeepsDraft(s, input);
        case Planning => PlanKeepsDraft(s, input);
        case Closing => CloseKeepsDraft(s, input);
      }
    case Review(role, input) => ReviewKeepsDraft(s, role, input);
    case _ => UserKeepsDraft(s, a);
  }

  lemma EntryKeepsRound(s: State, input: Input)
    requires RoundInv(s) && ShapeInv(s) && ScoreInv(s) && PhaseOf(s.pc).Entering? && EntryStep(s, input).Some?
    ensures RoundInv(EntryStep(s, input).value)
  {
    hide EntryStep, VersionsInOrder, IsBest, ScoresComputed, AllButLastScored, ServerComputed, LocalsFit,
      EvaluateReviews, AllReviewed;
    EntryFlow(s, input);
  }

  lemma StreamKeepsRound(s: State, input: Input)
    requires RoundInv(s) && ShapeInv(s) && ScoreInv(s) && PhaseOf(s.pc).Streaming? && StreamStep(s, input).Some?
    ensures RoundInv(StreamStep(s, input).value)
  {
    hide StreamStep, VersionsInOrder, IsBest, ScoresComputed, AllButLastScored, ServerComputed, LocalsFit,
      EvaluateReviews, AllReviewed;
    StreamFlow(s, input);
  }

  lemma FinishKeepsRound(s: State, input: Input)
    requires RoundInv(s) && ShapeInv(s) && ScoreInv(s) && PhaseOf(s.pc).Finishing? && FinishStep(s, input).Some?
    ensures RoundInv(FinishStep(s, input).value)
  {
    hide FinishStep, VersionsInOrder, IsBest, ScoresComputed, AllButLastScored, ServerComputed, LocalsFit,
      EvaluateReviews, AllReviewed;
    FinishFlow(s, input);
  }

  lemma JoinKeepsRound(s: State, input: Input)
    requires RoundInv(s) && ShapeInv(s) && ScoreInv(s) && PhaseOf(s.pc).InReview? && JoinStep(s, input).Some?
    ensures RoundInv(JoinStep(s, input).value)
  {
    hide JoinStep, VersionsInOrder, IsBest, ScoresComputed, AllButLastScored, ServerComputed, LocalsFit,
      EvaluateReviews, AllReviewed;
    JoinFlow(s, input);
  }

  lemma AggregatorKeepsRound(s: State, input: Input)
    requires RoundInv(s) && ShapeInv(s) && ScoreInv(s) && PhaseOf(s.pc).Scoring? && AggregatorStep(s, input).Some?
    ensures RoundInv(AggregatorStep(s, input).value)
  {
    hide AggregatorStep, VersionsInOrder, IsBest, ScoresComputed, AllButLastScored, ServerComputed, LocalsFit,
      EvaluateReviews, AllReviewed, ScoreVersions;
    AggregatorFlow(s, input);
    if s.pc.AggCommit? && AllReviewed(s.run.snapshot.docs.reviews) {
      AggregatedRound(s.run.snapshot.docs, EvaluateReviews(s.run.snapshot.docs.reviews));
    }
  }

  lemma RouteKeepsRound(s: State, input: Input)
    requires RoundInv(s) && ShapeInv(s) && ScoreInv(s) && PhaseOf(s.pc).Routing? && RouteStep(s, input).Some?
    ensures RoundInv(RouteStep(s, input).value)
  {
    hide RouteStep, VersionsInOrder, IsBest, ScoresComputed, AllButLastScored, ServerComputed, LocalsFit,
      EvaluateReviews, AllReviewed;
    RouteFlow(s, input);
  }

  lemma ParkKeepsRound(s: State, input: Input)
    requires RoundInv(s) && ShapeInv(s) && ScoreInv(s) && PhaseOf(s.pc).Parking? && ParkStep(s, input).Some?
    ensures RoundInv(ParkStep(s, input).value)
  {
    hide ParkStep, VersionsInOrder, IsBest, ScoresComputed, AllButLastScored, ServerComputed, LocalsFit,
      EvaluateReviews, AllReviewed;
    ParkFlow(s, input);
  }

  lemma PlanKeepsRound(s: State, input: Input)
    requires RoundInv(s) && ShapeInv(s) && ScoreInv(s) && PhaseOf(s.pc).Planning? && PlanStep(s, input).Some?
    ensures RoundInv(PlanStep(s, input).value)
  {
    hide PlanStep, VersionsInOrder, IsBest, ScoresComputed, AllButLastScored, ServerComputed, LocalsFit,
      EvaluateReviews, AllReviewed;
    PlanFlow(s, input);
  }

  lemma CloseKeepsRound(s: State, input: Input)
    requires RoundInv(s) && ShapeInv(s) && ScoreInv(s) && PhaseOf(s.pc).Closing? && CloseStep(s, input).Some?
    ensures RoundInv(CloseStep(s, input).value)
  {
    hide CloseStep, VersionsInOrder, IsBest, ScoresComputed, AllButLastScored, ServerComputed, LocalsFit,
      EvaluateReviews, AllReviewed;
    CloseFlow(s, input);
  }

  lemma ReviewKeepsRound(s: State, role: Role, input: Input)
    requires RoundInv(s) && ShapeInv(s) && ScoreInv(s) && ReviewStep(s, role, input).Some?
    ensures RoundInv(ReviewStep(s, role, input).value)
  {
    hide ReviewStep, VersionsInOrder, IsBest, ScoresComputed, AllButLastScored, ServerComputed, LocalsFit,
      EvaluateReviews, AllReviewed;
    ReviewFlow(s, role, input);
  }

  lemma UserKeepsRound(s: State, a: Action)
    requires RoundInv(s) && !a.Work? && !a.Review? && UserStep(s, a).Some?
    ensures RoundInv(UserStep(s, a).value)
  {
    hide UserStep;
    UserFlow(s, a);
  }

  lemma StepKeepsRound(s: State, a: Action)
    requires RoundInv(s) && ShapeInv(s) && ScoreInv(s) && Next(s, a).Some?
    ensures RoundInv(Next(s, a).value)
  {
    hide RoundInv, ShapeInv, ScoreInv, EntryStep, StreamStep, FinishStep, JoinStep, AggregatorStep, RouteStep,
      ParkStep, PlanStep, CloseStep, ReviewStep, UserStep;
    match a
    case Work(input) =>
      match PhaseOf(s.pc) {
        case Entering => EntryKeepsRound(s, input);
        case Streaming => StreamKeepsRound(s, input);
        case Finishing => FinishKeepsRound(s, input);
        case InReview => JoinKeepsRound(s, input);
        case Scoring => AggregatorKeepsRound(s, input);
        case Routing => RouteKeepsRound(s, input);
        case Parking => ParkKeepsRound(s, input);
        case Planning => PlanKeepsRound(s, input);
        case Closing => CloseKeepsRound(s, input);
      }
    case Review(role, input) => ReviewKeepsRound(s, role, input);
    case _ => UserKeepsRound(s, a);
  }

  // ----- what an event says

  /** The step that appended `payload` led from `s` to `s'`. */
  ghost predicate Matches(s: State, s': State, payload: Payload) {
    var docs, docs' := s.run.snapshot.docs, s'.run.snapshot.docs;
    var status, status' := s.run.snapshot.status, s'.run.snapshot.status;
    var sameView := docs' == docs && s'.inFlight == s.inFlight;
    var generated := |docs.versions| == docs.iteration;
    match payload
    case RunStarted => sameView && status' == status
    case NodeStarted(_) => sameView && status' == status
    case TelemetryUpdated(tokens) => sameView && status' == status && tokens == s'.run.snapshot.spending.total
    case StatusChanged(previous, current) =>
        sameView && previous == status && status' == current && !current.Completed? && !current.MaxIterationsReached?
    case PauseAsked(previous, current) =>
        sameView && previous == status && status' == current && !current.Completed? && !current.MaxIterationsReached?
    case RunPaused => sameView && status' == Paused
    case RunResumed(hasOverride) =>
      sameView && status' == Optimizing && hasOverride == s'.run.snapshot.pendingOverride.Some?
    case RunCancelled => sameView && status' == Cancelled
    case RunFailed => sameView && status' == Failed
    case PrdDelta(version, attempt, delta) =>
      && status' == status && s.inFlight && s'.inFlight && delta != []
      && version == docs.iteration && attempt == docs.currentPrdAttempt
      && docs' == docs.(currentPrd := docs.currentPrd + delta)
    case PrdStreamReset(version, attempt) =>
      && status' == status && s.inFlight && s'.inFlight
      && version == docs.iteration && attempt == docs.currentPrdAttempt + 1
      && docs' == docs.(currentPrd := [], currentPrdAttempt := attempt)
    case PrdGenerated(version, attempt, content) =>
      && status' == status && s.inFlight && !s'.inFlight && version == docs.iteration
      && |docs'.versions| == |docs.versions| + 1 && docs'.versions[..|docs.versions|] == docs.versions
      && docs'.versions[|docs.versions|].number == version && docs'.versions[|docs.versions|].content == content
      && docs'.versions[|docs.versions|].evaluation.None?
      && docs'.versions[|docs.versions|].plan == docs.pendingPlan
      && docs' == docs.(versions := docs'.versions, currentPrd := content, currentPrdAttempt := attempt,
          pendingPlan := None)
    case ReviewCompleted(review) =>
      && status' == status && !s.inFlight && !s'.inFlight && generated && !LastScored(docs.versions)
      && docs' == docs.(reviews := docs.reviews.Set(review.role, Some(review)))
    case ScoresUpdated(_, _, _, _, _, _, _) =>
      && status' == status && !s.inFlight && !s'.inFlight && generated && !LastScored(docs.versions)
      && docs.versions != []
      && AllReviewed(docs.reviews) && docs' == Aggregated(docs, EvaluateReviews(docs.reviews))
      && payload == ScoresPayload(docs', EvaluateReviews(docs.reviews))
    case RevisionPlanned(plan) =>
      && status' == status && !s.inFlight && !s'.inFlight && generated && LastScored(docs.versions)
      && docs' == docs.(pendingPlan := Some(plan), iteration := docs.iteration + 1, reviews := NO_REVIEWS)
    case RunCompleted(outcome) =>
      && sameView && status' == Completed && docs.latestEvaluation.Some?
      && outcome == OutcomeOf(docs, docs.latestEvaluation.value)
      && GatePassed(docs.latestEvaluation.value, docs.threshold)
    case BudgetSpent(outcome) =>
      && sameView && status' == MaxIterationsReached && docs.latestEvaluation.Some?
      && outcome == OutcomeOf(docs, docs.latestEvaluation.value)
      && !GatePassed(docs.latestEvaluation.value, docs.threshold)
  }

  /** Nothing a client sees has changed: at most a first attempt has opened, with no text yet. */
  ghost predicate Quiet(s: State, s': State) {
    var docs, docs' := s.run.snapshot.docs, s'.run.snapshot.docs;
    && s'.run.log == s.run.log && s'.run.snapshot.status == s.run.snapshot.status
    && s'.run.snapshot.latestSequence == s.run.snapshot.latestSequence
    && (|| (docs' == docs && s'.inFlight == s.inFlight)
        || (!s.inFlight && s'.inFlight && docs' == docs.(currentPrd := [], currentPrdAttempt := 1)))
  }

  /** One event was appended, and it says what happened. */
  ghost predicate Tells(s: State, s': State) {
    var n := |s.run.log|;
    && |s'.run.log| == n + 1 && s'.run.log[..n] == s.run.log
    && s'.run.log[n].sequence == s'.run.snapshot.latestSequence == n + 1
    && s'.run.log[n].iteration == s'.run.snapshot.docs.iteration
    && Matches(s, s', s'.run.log[n].payload)
  }

  ghost predicate Explained(s: State, s': State) { Quiet(s, s') || Tells(s, s') }

  lemma StageIsExplained(s: State, s': State, stage: Status)
    requires SetStage(s.run, stage).Success? && s'.run == SetStage(s.run, stage).value && s'.inFlight == s.inFlight
    requires !stage.Completed? && !stage.MaxIterationsReached?
    ensures Explained(s, s')
  {
    hide CanTransition;
  }

  lemma EntryIsExplained(s: State, input: Input)
    requires DraftInv(s) && ShapeInv(s) && ScoreInv(s) && PhaseOf(s.pc).Entering? && EntryStep(s, input).Some?
    ensures Explained(s, EntryStep(s, input).value)
  {
    hide VersionsInOrder, IsBest, ScoresComputed, AllButLastScored, ServerComputed, SetStage;
    var s' := EntryStep(s, input).value;
    if s.pc.GenEnter? && !s'.pc.Ending? {
      StageIsExplained(s, s', Generating);
    }
  }

  lemma StreamIsExplained(s: State, input: Input)
    requires DraftInv(s) && ShapeInv(s) && PhaseOf(s.pc).Streaming? && StreamStep(s, input).Some?
    ensures Explained(s, StreamStep(s, input).value)
  {
    hide DraftInv, ShapeInv, StreamStep, Explained;
    if s.pc.GenStream? {
      ReceiveIsExplained(s, input);
    } else {
      RetryIsExplained(s, input);
    }
  }

  lemma ReceiveIsExplained(s: State, input: Input)
    requires DraftInv(s) && ShapeInv(s) && s.pc.GenStream? && StreamStep(s, input).Some?
    ensures Explained(s, StreamStep(s, input).value)
  {
    hide VersionsInOrder, PastGate, RecordUsage, RecordTiming, RetryOrRaise;
  }

  lemma RetryIsExplained(s: State, input: Input)
    requires PhaseOf(s.pc).Streaming? && !s.pc.GenStream? && StreamStep(s, input).Some?
    ensures Explained(s, StreamStep(s, input).value)
  {
    hide Spend, AddTimingTo, FlushDelta;
  }

  lemma GenerationIsExplained(s: State, g: GenLocals, attempt: nat, content: Text, used: Usage)
    requires s.pc == GenCommit(g, attempt, content, used) && s.inFlight && ShapeInv(s)
    ensures Explained(s, FinishGeneration(s, g, attempt, content, used))
  {
    hide VersionsInOrder;
    assert g == GenLocals(s.run.snapshot.docs.iteration, s.run.snapshot.docs.pendingPlan);
  }

  lemma FinishIsExplained(s: State, input: Input)
    requires DraftInv(s) && ShapeInv(s) && PhaseOf(s.pc).Finishing? && FinishStep(s, input).Some?
    ensures Explained(s, FinishStep(s, input).value)
  {
    if s.pc.GenCommit? {
      CommitIsExplained(s, input);
    } else {
      RecordIsExplained(s, input);
    }
  }

  lemma CommitIsExplained(s: State, input: Input)
    requires DraftInv(s) && ShapeInv(s) && s.pc.GenCommit? && FinishStep(s, input).Some?
    ensures Explained(s, FinishStep(s, input).value)
  {
    hide FinishGeneration, ShapeInv;
    GenerationIsExplained(s, s.pc.g, s.pc.attempt, s.pc.content, s.pc.used);
  }

  lemma RecordIsExplained(s: State, input: Input)
    requires PhaseOf(s.pc).Finishing? && !s.pc.GenCommit? && FinishStep(s, input).Some?
    ensures Explained(s, FinishStep(s, input).value)
  {
    hide SetStage, Spend, AddTimingTo;
    var s' := FinishStep(s, input).value;
    if s.pc.GenStage? && !s'.pc.Ending? {
      StageIsExplained(s, s', RunTypes.Reviewing);
    }
  }

  lemma JoinIsExplained(s: State, input: Input)
    requires DraftInv(s) && ShapeInv(s) && ScoreInv(s) && PhaseOf(s.pc).InReview? && JoinStep(s, input).Some?
    ensures Explained(s, JoinStep(s, input).value)
  {
    hide VersionsInOrder, IsBest, ScoresComputed, AllButLastScored, ServerComputed;
    var s' := JoinStep(s, input).value;
  }

  lemma AggregateIsExplained(s: State)
    requires DraftInv(s) && ShapeInv(s) && ScoreInv(s) && s.pc.AggCommit?
    ensures Explained(s, AggregateStep(s))
  {
    hide VersionsInOrder, IsBest, ScoresComputed, AllButLastScored, ServerComputed, EvaluateReviews, AllReviewed,
      Aggregated;
    assert !LastScored(s.run.snapshot.docs.versions) by { assert UnscoredPc(s.pc); }
  }

  lemma AggregatorIsExplained(s: State, input: Input)
    requires DraftInv(s) && ShapeInv(s) && ScoreInv(s) && PhaseOf(s.pc).Scoring? && AggregatorStep(s, input).Some?
    ensures Explained(s, AggregatorStep(s, input).value)
  {
    hide ShapeInv, ScoreInv, SetStage, AggregateStep;
    var s' := AggregatorStep(s, input).value;
    if s.pc.AggEnter? && !s'.pc.Ending? {
      StageIsExplained(s, s', RunTypes.Aggregating);
    } else if s.pc.AggCommit? {
      AggregateIsExplained(s);
    }
  }

  lemma RouteIsExplained(s: State, input: Input)
    requires DraftInv(s) && ShapeInv(s) && ScoreInv(s) && PhaseOf(s.pc).Routing? && RouteStep(s, input).Some?
    ensures Explained(s, RouteStep(s, input).value)
  {
    hide ShapeInv, DraftInv, ScoreInv, DecideStep, Terminal;
    if s.pc.AggDecide? {
      LatestWasDecided(s);
      DecisionIsExplained(s, s.pc.evaluation, s.pc.seen);
    }
  }

  lemma LatestWasDecided(s: State)
    requires ScoreInv(s) && s.pc.AggDecide?
    ensures s.run.snapshot.docs.latestEvaluation == Some(s.pc.evaluation)
  {
    hide IsBest, ScoresComputed, AllButLastScored, ServerComputed;
  }

  lemma DecisionIsExplained(s: State, e: Evaluation, seen: Status)
    requires s.pc == AggDecide(e, seen) && s.run.snapshot.docs.latestEvaluation == Some(e)
    ensures Explained(s, DecideStep(s, e, seen))
  {
    hide GatePassed, OutcomeOf, CanTransition, SetStage, Transition, EnterPaused, Explained;
    var docs, s' := s.run.snapshot.docs, DecideStep(s, e, seen);
    SameRunIsExplained(s, s');
    EndingIsExplained(s, s', e);
    PauseIsExplained(s, s');
    if SetStage(s.run, Optimizing).Success? {
      StageIsExplained(s, s.(run := SetStage(s.run, Optimizing).value, pc := AggRoute), Optimizing);
    }
  }

  lemma EndingIsExplained(s: State, s': State, e: Evaluation)
    requires s.run.snapshot.docs.latestEvaluation == Some(e) && s'.inFlight == s.inFlight
    ensures var docs := s.run.snapshot.docs;
      var completed := Transition(s.run, Completed, RunCompleted(OutcomeOf(docs, e)));
      GatePassed(e, docs.threshold) && completed == Success(s'.run) ==> Explained(s, s')
    ensures var docs := s.run.snapshot.docs;
      var spent := Transition(s.run, MaxIterationsReached, BudgetSpent(OutcomeOf(docs, e)));
      !GatePassed(e, docs.threshold) && spent == Success(s'.run) ==> Explained(s, s')
  {
    hide GatePassed, OutcomeOf, CanTransition;
  }

  lemma PauseIsExplained(s: State, s': State)
    requires s'.inFlight == s.inFlight
    ensures EnterPaused(s.run) == Success(s'.run) ==> Explained(s, s')
  {
    hide CanTransition;
  }

  lemma ParkIsExplained(s: State, input: Input)
    requires DraftInv(s) && ShapeInv(s) && ScoreInv(s) && PhaseOf(s.pc).Parking? && ParkStep(s, input).Some?
    ensures Explained(s, ParkStep(s, input).value)
  {
    hide VersionsInOrder, IsBest, ScoresComputed, AllButLastScored, ServerComputed, CanTransition, SetStage;
    var s' := ParkStep(s, input).value;
    if (s.pc.OptStage? || s.pc.OptStageAgain?) && !s'.pc.Ending? {
      StageIsExplained(s, s', Optimizing);
    }
  }

  lemma PlanIsExplained(s: State, input: Input)
    requires DraftInv(s) && ShapeInv(s) && ScoreInv(s) && PhaseOf(s.pc).Planning? && PlanStep(s, input).Some?
    ensures Explained(s, PlanStep(s, input).value)
  {
    hide VersionsInOrder, IsBest, ScoresComputed, AllButLastScored, ServerComputed, SetStage, Spend, AddTimingTo,
      ValidatedStructured;
    var s' := PlanStep(s, input).value;
    if s.pc.OptStageNext? && !s'.pc.Ending? {
      StageIsExplained(s, s', Generating);
    }
  }

  lemma CloseIsExplained(s: State, input: Input)
    requires DraftInv(s) && ShapeInv(s) && ScoreInv(s) && PhaseOf(s.pc).Closing? && CloseStep(s, input).Some?
    ensures Explained(s, CloseStep(s, input).value)
  {
    hide VersionsInOrder, IsBest, ScoresComputed, AllButLastScored, ServerComputed, Terminal;
    var s' := CloseStep(s, input).value;
  }

  lemma FinishReviewIsExplained(s: State, role: Role, iteration: nat, review: RunTypes.Review, used: Usage)
    requires DraftInv(s) && ShapeInv(s) && ScoreInv(s) && s.pc.Reviews? && review.role == role
    ensures Explained(s, FinishReview(s, role, iteration, review, used))
  {
    hide VersionsInOrder, IsBest, ScoresComputed, AllButLastScored, ServerComputed;
    assert UnscoredPc(s.pc);
  }

  lemma ReviewIsExplained(s: State, role: Role, input: Input)
    requires DraftInv(s) && ShapeInv(s) && ScoreInv(s) && ReviewInv(s) && ReviewStep(s, role, input).Some?
    ensures Explained(s, ReviewStep(s, role, input).value)
  {
    hide ShapeInv, ScoreInv, DraftInv, FinishReview, RecordUsage, RecordTiming, ValidatedStructured, Explained, Emit;
    var before, s' := s.reviewers.Get(role), ReviewStep(s, role, input).value;
    if before.RevCommit? {
      FinishReviewIsExplained(s, role, before.iteration, before.review, before.used);
    }
    SameRunIsExplained(s, s');
    if !before.RevCommit? {
      RecordsAreExplained(s, s', Reviewer(role));
    }
  }

  lemma SameRunIsExplained(s: State, s': State)
    ensures s'.run == s.run && s'.inFlight == s.inFlight ==> Explained(s, s')
  {
  }

  /** Noting a node's start, its usage or its timing. */
  lemma RecordsAreExplained(s: State, s': State, node: Node)
    requires s'.inFlight == s.inFlight
    ensures s'.run == Emit(s.run, s.run.snapshot, NodeStarted(node)) ==> Explained(s, s')
    ensures forall usage :: s'.run == RecordUsage(s.run, node, usage) ==> Explained(s, s')
    ensures forall timing :: s'.run == RecordTiming(s.run, timing) ==> Explained(s, s')
  {
    hide Spend, AddTimingTo;
  }

  lemma UserIsExplained(s: State, a: Action)
    requires !a.Work? && !a.Review? && UserStep(s, a).Some?
    ensures Explained(s, UserStep(s, a).value)
  {
    hide CanTransition, Terminal;
  }

  /** Every step of the protocol is silent or told by exactly one event. */
  lemma StepIsExplained(s: State, a: Action)
    requires Good(s) && DraftInv(s) && Next(s, a).Some?
    ensures Explained(s, Next(s, a).value)
  {
    hide StatusSafety.StatusInv, ShapeInv, ReviewInv, ScoreInv, GateInv, DraftInv, Explained, EntryStep, StreamStep,
      FinishStep, JoinStep, AggregatorStep, RouteStep, ParkStep, PlanStep, CloseStep, ReviewStep, UserStep;
    match a
    case Work(input) =>
      match PhaseOf(s.pc) {
        case Entering => EntryIsExplained(s, input);
        case Streaming => StreamIsExplained(s, input);
        case Finishing => FinishIsExplained(s, input);
        case InReview => JoinIsExplained(s, input);
        case Scoring => AggregatorIsExplained(s, input);
        case Routing => RouteIsExplained(s, input);
        case Parking => ParkIsExplained(s, input);
        case Planning => PlanIsExplained(s, input);
        case Closing => CloseIsExplained(s, input);
      }
    case Review(role, input) => ReviewIsExplained(s, role, input);
    case _ => UserIsExplained(s, a);
  }

  // ----- over whole runs

  /** What the client's view of a reachable state rests on. */
  ghost predicate Tellable(s: State) { Good(s) && DraftInv(s) && RoundInv(s) && Numbered(s.run) }

  lemma ExplainedKeepsNumbers(s: State, s': State)
    requires Numbered(s.run) && Explained(s, s')
    ensures Numbered(s'.run)
  {
    hide Matches;
    if Tells(s, s') {
      var n := |s.run.log|;
      assert forall k :: 0 <= k < n ==> s'.run.log[k] == s'.run.log[..n][k];
    }
  }

  lemma StepKeepsTellable(s: State, a: Action)
    requires Tellable(s) && Next(s, a).Some?
    ensures Tellable(Next(s, a).value) && Explained(s, Next(s, a).value)
  {
    hide StatusSafety.StatusInv, ShapeInv, ReviewInv, ScoreInv, GateInv, DraftInv, RoundInv, Numbered, Explained, Next;
    StepKeepsGood(s, a);
    StepKeepsDraft(s, a);
    StepKeepsRound(s, a);
    StepIsExplained(s, a);
    ExplainedKeepsNumbers(s, Next(s, a).value);
  }

  lemma InitialIsTellable(maxIterations: nat, threshold: nat)
    requires 1 <= maxIterations
    ensures Tellable(Initial(maxIterations, threshold))
  {
    hide Good;
    InitialIsGood(maxIterations, threshold);
  }

  lemma {:induction false} ReachableIsTellable(
    states: seq<State>, actions: seq<Action>, maxIterations: nat, threshold: nat, k: nat)
    requires IsRun(states, actions, maxIterations, threshold) && k < |states|
    ensures Tellable(states[k])
    ensures k > 0 ==> Explained(states[k - 1], states[k])
  {
    hide Tellable, Explained, Next, Initial;
    InitialIsTellable(maxIterations, threshold);
    if k > 0 {
      ReachableIsTellable(states, actions, maxIterations, threshold, k - 1);
      assert Next(states[k - 1], actions[k - 1]) == Some(states[k]);
      StepKeepsTellable(states[k - 1], actions[k - 1]);
    }
  }
}
