/**
 The shape of a run: how many versions there are, which of them are reviewed and scored, what the best
 record means and what the quality gate has decided (`backend/workflow.py`, `backend/schemas.py`).
 */
module RunShape {
  import opened Wrappers
  import opened RunTypes
  import opened RunManager
  import opened Workflow
  import opened StepFlow
  import StatusSafety

  // ----- versions

  /** The current iteration's document is still to be generated. */
  predicate Drafting(pc: Pc) {
    || PhaseOf(pc).Entering? || PhaseOf(pc).Streaming? || pc.GenCommit?
    || pc.OptUsage? || pc.OptTiming? || pc.OptStageNext?
  }

  predicate Drafted(pc: Pc) { !Drafting(pc) && !PhaseOf(pc).Closing? }

  /** The snapshot the generator read on entry is still what it will commit. */
  predicate LocalsFit(pc: Pc, docs: Docs) {
    match pc
    case GenMark(g) => g == GenLocals(docs.iteration, docs.pendingPlan)
    case GenBegin(g, attempt) => g == GenLocals(docs.iteration, docs.pendingPlan) && 1 <= attempt <= 2
    case GenStream(g, attempt) => g == GenLocals(docs.iteration, docs.pendingPlan) && 1 <= attempt <= 2
    case GenFailTiming(g, attempt, _) => g == GenLocals(docs.iteration, docs.pendingPlan) && 1 <= attempt <= 2
    case GenFailUsage(g, attempt, _) => g == GenLocals(docs.iteration, docs.pendingPlan) && 1 <= attempt <= 2
    case GenCommit(g, attempt, content, _) =>
      g == GenLocals(docs.iteration, docs.pendingPlan) && 1 <= attempt <= 2 && content != []
    case _ => true
  }

  /** Versions are numbered from one in order, and none is empty. */
  ghost predicate VersionsInOrder(versions: seq<Version>) {
    forall k :: 0 <= k < |versions| ==> versions[k].number == k + 1 && versions[k].content != []
  }

  ghost predicate ShapeInv(s: State) {
    var docs := s.run.snapshot.docs;
    && 1 <= docs.iteration <= docs.maxIterations
    && VersionsInOrder(docs.versions)
    && docs.iteration - 1 <= |docs.versions| <= docs.iteration
    && (Drafting(s.pc) ==> |docs.versions| == docs.iteration - 1)
    && (Drafted(s.pc) ==> |docs.versions| == docs.iteration && docs.pendingPlan.None?)
    && LocalsFit(s.pc, docs)
    && (PastGate(s.pc, s.run.snapshot.status) ==> docs.iteration < docs.maxIterations)
  }

  /** The run goes on past its last decision. */
  predicate PastGate(pc: Pc, status: Status) {
    || pc.AggWait? || PhaseOf(pc).Parking? || pc.OptMark? || pc.OptCall? || pc.OptCommit?
    || (pc.AggRoute? && !Terminal(status))
  }

  lemma AppendKeepsOrder(versions: seq<Version>, v: Version)
    requires VersionsInOrder(versions) && v.number == |versions| + 1 && v.content != []
    ensures VersionsInOrder(versions + [v])
  {
  }

  lemma ScoringKeepsOrder(versions: seq<Version>, e: Evaluation)
    requires VersionsInOrder(versions)
    ensures VersionsInOrder(ScoreVersions(versions, e)) && |ScoreVersions(versions, e)| == |versions|
  {
  }

  lemma EntryKeepsShape(s: State, input: Input)
    requires ShapeInv(s) && PhaseOf(s.pc).Entering? && EntryStep(s, input).Some?
    ensures ShapeInv(EntryStep(s, input).value)
  {
    hide EntryStep, VersionsInOrder;
    EntryFlow(s, input);
  }

  lemma StreamKeepsShape(s: State, input: Input)
    requires ShapeInv(s) && PhaseOf(s.pc).Streaming? && StreamStep(s, input).Some?
    ensures ShapeInv(StreamStep(s, input).value)
  {
    hide StreamStep, VersionsInOrder;
    StreamFlow(s, input);
  }

  lemma FinishKeepsShape(s: State, input: Input)
    requires ShapeInv(s) && PhaseOf(s.pc).Finishing? && FinishStep(s, input).Some?
    ensures ShapeInv(FinishStep(s, input).value)
  {
    hide FinishStep, VersionsInOrder;
    FinishFlow(s, input);
    if s.pc.GenCommit? {
      var g := s.pc.g;
      AppendKeepsOrder(s.run.snapshot.docs.versions, Version(g.iteration, s.pc.content, None, g.plan, s.pc.used));
    }
  }

  lemma JoinKeepsShape(s: State, input: Input)
    requires ShapeInv(s) && PhaseOf(s.pc).InReview? && JoinStep(s, input).Some?
    ensures ShapeInv(JoinStep(s, input).value)
  {
    hide JoinStep, VersionsInOrder;
    JoinFlow(s, input);
  }

  lemma AggregatorKeepsShape(s: State, input: Input)
    requires ShapeInv(s) && PhaseOf(s.pc).Scoring? && AggregatorStep(s, input).Some?
    ensures ShapeInv(AggregatorStep(s, input).value)
  {
    hide AggregatorStep, VersionsInOrder, ScoreVersions, EvaluateReviews, AllReviewed;
    AggregatorFlow(s, input);
    if AllReviewed(s.run.snapshot.docs.reviews) {
      ScoringKeepsOrder(s.run.snapshot.docs.versions, EvaluateReviews(s.run.snapshot.docs.reviews));
    }
  }

  lemma RouteKeepsShape(s: State, input: Input)
    requires ShapeInv(s) && PhaseOf(s.pc).Routing? && RouteStep(s, input).Some?
    ensures ShapeInv(RouteStep(s, input).value)
  {
    hide RouteStep, VersionsInOrder, GatePassed;
    RouteFlow(s, input);
  }

  lemma ParkKeepsShape(s: State, input: Input)
    requires ShapeInv(s) && PhaseOf(s.pc).Parking? && ParkStep(s, input).Some?
    ensures ShapeInv(ParkStep(s, input).value)
  {
    hide ParkStep, VersionsInOrder;
    ParkFlow(s, input);
  }

  lemma PlanKeepsShape(s: State, input: Input)
    requires ShapeInv(s) && PhaseOf(s.pc).Planning? && PlanStep(s, input).Some?
    ensures ShapeInv(PlanStep(s, input).value)
  {
    hide PlanStep, VersionsInOrder;
    PlanFlow(s, input);
  }

  lemma CloseKeepsShape(s: State, input: Input)
    requires ShapeInv(s) && PhaseOf(s.pc).Closing? && CloseStep(s, input).Some?
    ensures ShapeInv(CloseStep(s, input).value)
  {
    hide CloseStep, VersionsInOrder;
    CloseFlow(s, input);
  }

  lemma ReviewKeepsShape(s: State, role: Role, input: Input)
    requires ShapeInv(s) && ReviewStep(s, role, input).Some?
    ensures ShapeInv(ReviewStep(s, role, input).value)
  {
    hide ReviewStep, VersionsInOrder;
    ReviewFlow(s, role, input);
  }

  lemma UserKeepsShape(s: State, a: Action)
    requires ShapeInv(s) && !a.Work? && !a.Review? && UserStep(s, a).Some?
    ensures ShapeInv(UserStep(s, a).value)
  {
    hide UserStep, VersionsInOrder;
    UserFlow(s, a);
  }

  lemma StepKeepsShape(s: State, a: Action)
    requires ShapeInv(s) && Next(s, a).Some?
    ensures ShapeInv(Next(s, a).value)
  {
    hide ShapeInv, ReviewInv, ScoreInv, GateInv, EntryStep, StreamStep, FinishStep, JoinStep, AggregatorStep,
      RouteStep, ParkStep, PlanStep, CloseStep, ReviewStep, UserStep;
    match a
    case Work(input) =>
      match PhaseOf(s.pc) {
        case Entering => EntryKeepsShape(s, input);
        case Streaming => StreamKeepsShape(s, input);
        case Finishing => FinishKeepsShape(s, input);
        case InReview => JoinKeepsShape(s, input);
        case Scoring => AggregatorKeepsShape(s, input);
        case Routing => RouteKeepsShape(s, input);
        case Parking => ParkKeepsShape(s, input);
        case Planning => PlanKeepsShape(s, input);
        case Closing => CloseKeepsShape(s, input);
      }
    case Review(role, input) => ReviewKeepsShape(s, role, input);
    case _ => UserKeepsShape(s, a);
  }

  // ----- reviews

  /** A reviewer past its commit has its review in the snapshot, and no other has. */
  predicate ReviewIn(reviewer: RevPc) { reviewer.RevUsage? || reviewer.RevTiming? || reviewer.RevDone? }

  predicate ReviewFits(review: Option<RunTypes.Review>, reviewer: RevPc, role: Role) {
    && (review.Some? ==> review.value.role == role)
    && (reviewer.RevCommit? ==> reviewer.review.role == role)
  }

  /** Where the workflow stands, the reviews are all there or all gone. */
  predicate AwaitsNoReview(pc: Pc) { Drafting(pc) || pc.GenUsage? || pc.GenTiming? || pc.GenStage? }

  predicate HasAllReviews(pc: Pc) { Drafted(pc) && !PhaseOf(pc).Finishing? && !pc.Reviews? }

  predicate InReviewFits(review: Option<RunTypes.Review>, reviewer: RevPc) { review.Some? <==> ReviewIn(reviewer) }

  ghost predicate ReviewInv(s: State) {
    var reviews := s.run.snapshot.docs.reviews;
    && ReviewFits(reviews.tech, s.reviewers.tech, Tech)
    && ReviewFits(reviews.ux, s.reviewers.ux, Ux)
    && ReviewFits(reviews.biz, s.reviewers.biz, Biz)
    && (AwaitsNoReview(s.pc) ==> reviews == NO_REVIEWS)
    && (HasAllReviews(s.pc) ==> AllReviewed(reviews))
    && (s.pc.Reviews? ==>
          && InReviewFits(reviews.tech, s.reviewers.tech)
          && InReviewFits(reviews.ux, s.reviewers.ux)
          && InReviewFits(reviews.biz, s.reviewers.biz))
  }

  lemma EntryKeepsReviews(s: State, input: Input)
    requires ReviewInv(s) && PhaseOf(s.pc).Entering? && EntryStep(s, input).Some?
    ensures ReviewInv(EntryStep(s, input).value)
  {
    hide EntryStep, Terminal;
    EntryFlow(s, input);
  }

  lemma StreamKeepsReviews(s: State, input: Input)
    requires ReviewInv(s) && PhaseOf(s.pc).Streaming? && StreamStep(s, input).Some?
    ensures ReviewInv(StreamStep(s, input).value)
  {
    hide StreamStep, Terminal;
    StreamFlow(s, input);
  }

  lemma FinishKeepsReviews(s: State, input: Input)
    requires ReviewInv(s) && PhaseOf(s.pc).Finishing? && FinishStep(s, input).Some?
    ensures ReviewInv(FinishStep(s, input).value)
  {
    hide FinishStep, Terminal;
    FinishFlow(s, input);
  }

  lemma JoinKeepsReviews(s: State, input: Input)
    requires ReviewInv(s) && PhaseOf(s.pc).InReview? && JoinStep(s, input).Some?
    ensures ReviewInv(JoinStep(s, input).value)
  {
    hide JoinStep, Terminal;
    JoinFlow(s, input);
  }

  lemma AggregatorKeepsReviews(s: State, input: Input)
    requires ReviewInv(s) && PhaseOf(s.pc).Scoring? && AggregatorStep(s, input).Some?
    ensures ReviewInv(AggregatorStep(s, input).value)
  {
    hide AggregatorStep, Terminal, EvaluateReviews, ScoreVersions;
    AggregatorFlow(s, input);
  }

  lemma RouteKeepsReviews(s: State, input: Input)
    requires ReviewInv(s) && PhaseOf(s.pc).Routing? && RouteStep(s, input).Some?
    ensures ReviewInv(RouteStep(s, input).value)
  {
    hide RouteStep, Terminal, GatePassed;
    RouteFlow(s, input);
  }

  lemma ParkKeepsReviews(s: State, input: Input)
    requires ReviewInv(s) && PhaseOf(s.pc).Parking? && ParkStep(s, input).Some?
    ensures ReviewInv(ParkStep(s, input).value)
  {
    hide ParkStep, Terminal;
    ParkFlow(s, input);
  }

  lemma PlanKeepsReviews(s: State, input: Input)
    requires ReviewInv(s) && PhaseOf(s.pc).Planning? && PlanStep(s, input).Some?
    ensures ReviewInv(PlanStep(s, input).value)
  {
    hide PlanStep, Terminal;
    PlanFlow(s, input);
  }

  lemma CloseKeepsReviews(s: State, input: Input)
    requires ReviewInv(s) && PhaseOf(s.pc).Closing? && CloseStep(s, input).Some?
    ensures ReviewInv(CloseStep(s, input).value)
  {
    hide CloseStep, Terminal;
    CloseFlow(s, input);
  }

  lemma ReviewKeepsReviews(s: State, role: Role, input: Input)
    requires ReviewInv(s) && ReviewStep(s, role, input).Some?
    ensures ReviewInv(ReviewStep(s, role, input).value)
  {
    hide ReviewStep, Terminal;
    ReviewFlow(s, role, input);
  }

  lemma UserKeepsReviews(s: State, a: Action)
    requires ReviewInv(s) && !a.Work? && !a.Review? && UserStep(s, a).Some?
    ensures ReviewInv(UserStep(s, a).value)
  {
    hide UserStep, Terminal;
    UserFlow(s, a);
  }

  lemma StepKeepsReviews(s: State, a: Action)
    requires ReviewInv(s) && Next(s, a).Some?
    ensures ReviewInv(Next(s, a).value)
  {
    hide ShapeInv, ReviewInv, ScoreInv, GateInv, EntryStep, StreamStep, FinishStep, JoinStep, AggregatorStep,
      RouteStep, ParkStep, PlanStep, CloseStep, ReviewStep, UserStep;
    match a
    case Work(input) =>
      match PhaseOf(s.pc) {
        case Entering => EntryKeepsReviews(s, input);
        case Streaming => StreamKeepsReviews(s, input);
        case Finishing => FinishKeepsReviews(s, input);
        case InReview => JoinKeepsReviews(s, input);
        case Scoring => AggregatorKeepsReviews(s, input);
        case Routing => RouteKeepsReviews(s, input);
        case Parking => ParkKeepsReviews(s, input);
        case Planning => PlanKeepsReviews(s, input);
        case Closing => CloseKeepsReviews(s, input);
      }
    case Review(role, input) => ReviewKeepsReviews(s, role, input);
    case _ => UserKeepsReviews(s, a);
  }

  // ----- scores, the gate and the best version

  predicate Scored(v: Version) { v.evaluation.Some? }

  /** The earliest version attaining the highest score, if any version is scored. */
  ghost predicate IsBest(versions: seq<Version>, best: Option<nat>, score: Option<nat>) {
    if exists k :: 0 <= k < |versions| && Scored(versions[k]) then
      && best.Some? && score.Some? && 1 <= best.value <= |versions|
      && Scored(versions[best.value - 1]) && versions[best.value - 1].evaluation.value.overall == score.value
      && (forall k :: 0 <= k < |versions| && Scored(versions[k]) ==>
          versions[k].evaluation.value.overall <= score.value)
      && (forall k :: 0 <= k < best.value - 1 && Scored(versions[k]) ==>
          versions[k].evaluation.value.overall < score.value)
    else best.None? && score.None?
  }

  /** What an evaluation says is computed from its own three reviews. */
  predicate ServerComputed(e: Evaluation) {
    e == Evaluate(e.tech, e.ux, e.biz) && e.tech.role.Tech? && e.ux.role.Ux? && e.biz.role.Biz?
  }

  ghost predicate AllButLastScored(versions: seq<Version>) {
    forall k :: 0 <= k < |versions| - 1 ==> Scored(versions[k])
  }

  ghost predicate ScoresComputed(versions: seq<Version>) {
    forall k :: 0 <= k < |versions| && Scored(versions[k]) ==> ServerComputed(versions[k].evaluation.value)
  }

  predicate LastScored(versions: seq<Version>) { versions != [] && Scored(versions[|versions| - 1]) }

  /** The points at which the newest version is scored. */
  predicate ScoredPc(pc: Pc) {
    PhaseOf(pc).Routing? || PhaseOf(pc).Parking? || pc.OptMark? || pc.OptCall? || pc.OptCommit?
  }

  predicate UnscoredPc(pc: Pc) { Drafted(pc) && !ScoredPc(pc) }

  /** The evaluation the gate looked at is the newest version's own. */
  predicate LatestIsLast(docs: Docs) {
    LastScored(docs.versions)
    && docs.latestEvaluation == docs.versions[|docs.versions| - 1].evaluation
  }

  predicate LastPassed(docs: Docs) {
    LatestIsLast(docs) && GatePassed(docs.latestEvaluation.value, docs.threshold)
  }

  predicate LastHeld(docs: Docs) {
    LatestIsLast(docs) && !GatePassed(docs.latestEvaluation.value, docs.threshold)
  }

  ghost predicate ScoreInv(s: State) {
    var docs := s.run.snapshot.docs;
    var versions := docs.versions;
    && AllButLastScored(versions) && ScoresComputed(versions)
    && (Drafting(s.pc) && versions != [] ==> LastScored(versions))
    && (ScoredPc(s.pc) ==> LatestIsLast(docs) && ServerComputed(docs.latestEvaluation.value))
    && (UnscoredPc(s.pc) ==> !LastScored(versions))
    && (s.pc.AggDecide? ==> docs.latestEvaluation == Some(s.pc.evaluation))
    && IsBest(versions, docs.bestVersion, docs.bestScore)
  }

  /** What the gate decided, wherever the run went from there. */
  ghost predicate GateInv(s: State) {
    var docs := s.run.snapshot.docs;
    && (PastGate(s.pc, s.run.snapshot.status) ==> LastHeld(docs))
    && (s.run.snapshot.status.Completed? ==>
          (s.pc.AggRoute? || s.pc.Done?) && LastPassed(docs) && |docs.versions| == docs.iteration)
    && (s.run.snapshot.status.MaxIterationsReached? ==>
          (s.pc.AggRoute? || s.pc.Done?) && LastHeld(docs) && |docs.versions| == docs.iteration == docs.maxIterations)
  }

  // ----- scores: the steps that matter

  /** Appending an unscored version leaves the best record right. */
  lemma AppendKeepsScores(versions: seq<Version>, v: Version, best: Option<nat>, score: Option<nat>)
    requires AllButLastScored(versions) && ScoresComputed(versions) && (versions != [] ==> LastScored(versions))
    requires IsBest(versions, best, score) && !Scored(v)
    ensures AllButLastScored(versions + [v]) && ScoresComputed(versions + [v]) && !LastScored(versions + [v])
    ensures IsBest(versions + [v], best, score)
  {
    hide ServerComputed;
    var longer := versions + [v];
    assert forall k :: 0 <= k < |versions| ==> longer[k] == versions[k];
    assert !Scored(longer[|versions|]);
    if exists k :: 0 <= k < |longer| && Scored(longer[k]) {
      var k :| 0 <= k < |longer| && Scored(longer[k]);
      assert Scored(versions[k]);
    } else {
      assert forall v' :: v' in longer ==> !Scored(v');
    }
  }

  /** Scoring the newest version moves the best exactly when it beats every earlier one. */
  lemma ScoringKeepsScores(docs: Docs, e: Evaluation)
    requires AllButLastScored(docs.versions) && ScoresComputed(docs.versions)
    requires docs.iteration == |docs.versions| > 0 && !LastScored(docs.versions)
    requires IsBest(docs.versions, docs.bestVersion, docs.bestScore) && ServerComputed(e)
    ensures var after := Aggregated(docs, e);
      && AllButLastScored(after.versions) && ScoresComputed(after.versions) && LatestIsLast(after)
      && IsBest(after.versions, after.bestVersion, after.bestScore)
  {
    hide ServerComputed;
    var n := |docs.versions| - 1;
    var after := Aggregated(docs, e);
    assert forall k :: 0 <= k < n ==> after.versions[k] == docs.versions[k];
    assert Scored(after.versions[n]) && after.versions[n].evaluation.value == e;
    if n > 0 {
      assert Scored(docs.versions[0]);
    }
  }

  lemma AggregatedLatest(docs: Docs, e: Evaluation)
    ensures Aggregated(docs, e).latestEvaluation == Some(e)
  {
  }

  lemma EvaluationIsComputed(s: State)
    requires ReviewInv(s) && AllReviewed(s.run.snapshot.docs.reviews)
    ensures ServerComputed(EvaluateReviews(s.run.snapshot.docs.reviews))
  {
  }

  lemma EntryKeepsScores(s: State, input: Input)
    requires ScoreInv(s) && ShapeInv(s) && ReviewInv(s) && PhaseOf(s.pc).Entering? && EntryStep(s, input).Some?
    ensures ScoreInv(EntryStep(s, input).value)
  {
    hide EntryStep, IsBest, AllButLastScored, ScoresComputed, ServerComputed, ReviewInv, VersionsInOrder;
    EntryFlow(s, input);
  }

  lemma StreamKeepsScores(s: State, input: Input)
    requires ScoreInv(s) && ShapeInv(s) && ReviewInv(s) && PhaseOf(s.pc).Streaming? && StreamStep(s, input).Some?
    ensures ScoreInv(StreamStep(s, input).value)
  {
    hide StreamStep, IsBest, AllButLastScored, ScoresComputed, ServerComputed, ReviewInv, VersionsInOrder;
    StreamFlow(s, input);
  }

  lemma FinishKeepsScores(s: State, input: Input)
    requires ScoreInv(s) && ShapeInv(s) && ReviewInv(s) && PhaseOf(s.pc).Finishing? && FinishStep(s, input).Some?
    ensures ScoreInv(FinishStep(s, input).value)
  {
    hide FinishStep, IsBest, AllButLastScored, ScoresComputed, ServerComputed, ReviewInv, VersionsInOrder;
    FinishFlow(s, input);
    if s.pc.GenCommit? {
      var g, docs := s.pc.g, s.run.snapshot.docs;
      AppendKeepsScores(docs.versions, Version(g.iteration, s.pc.content, None, g.plan, s.pc.used), docs.bestVersion,
          docs.bestScore);
    }
  }

  lemma JoinKeepsScores(s: State, input: Input)
    requires ScoreInv(s) && ShapeInv(s) && ReviewInv(s) && PhaseOf(s.pc).InReview? && JoinStep(s, input).Some?
    ensures ScoreInv(JoinStep(s, input).value)
  {
    hide JoinStep, IsBest, AllButLastScored, ScoresComputed, ServerComputed, ReviewInv, VersionsInOrder;
    JoinFlow(s, input);
  }

  lemma AggregatorKeepsScores(s: State, input: Input)
    requires ScoreInv(s) && ShapeInv(s) && ReviewInv(s) && PhaseOf(s.pc).Scoring? && AggregatorStep(s, input).Some?
    ensures ScoreInv(AggregatorStep(s, input).value)
  {
    hide AggregatorStep, IsBest, AllButLastScored, ScoresComputed, ServerComputed, ReviewInv, VersionsInOrder,
      EvaluateReviews, Aggregated;
    AggregatorFlow(s, input);
    if s.pc.AggCommit? && AllReviewed(s.run.snapshot.docs.reviews) {
      EvaluationIsComputed(s);
      ScoringKeepsScores(s.run.snapshot.docs, EvaluateReviews(s.run.snapshot.docs.reviews));
      AggregatedLatest(s.run.snapshot.docs, EvaluateReviews(s.run.snapshot.docs.reviews));
    }
  }

  lemma RouteKeepsScores(s: State, input: Input)
    requires ScoreInv(s) && ShapeInv(s) && ReviewInv(s) && PhaseOf(s.pc).Routing? && RouteStep(s, input).Some?
    ensures ScoreInv(RouteStep(s, input).value)
  {
    hide RouteStep, IsBest, AllButLastScored, ScoresComputed, ServerComputed, ReviewInv, VersionsInOrder, GatePassed;
    RouteFlow(s, input);
  }

  lemma ParkKeepsScores(s: State, input: Input)
    requires ScoreInv(s) && ShapeInv(s) && ReviewInv(s) && PhaseOf(s.pc).Parking? && ParkStep(s, input).Some?
    ensures ScoreInv(ParkStep(s, input).value)
  {
    hide ParkStep, IsBest, AllButLastScored, ScoresComputed, ServerComputed, ReviewInv, VersionsInOrder;
    ParkFlow(s, input);
  }

  lemma PlanKeepsScores(s: State, input: Input)
    requires ScoreInv(s) && ShapeInv(s) && ReviewInv(s) && PhaseOf(s.pc).Planning? && PlanStep(s, input).Some?
    ensures ScoreInv(PlanStep(s, input).value)
  {
    hide PlanStep, IsBest, AllButLastScored, ScoresComputed, ServerComputed, ReviewInv, VersionsInOrder;
    PlanFlow(s, input);
  }

  lemma CloseKeepsScores(s: State, input: Input)
    requires ScoreInv(s) && ShapeInv(s) && ReviewInv(s) && PhaseOf(s.pc).Closing? && CloseStep(s, input).Some?
    ensures ScoreInv(CloseStep(s, input).value)
  {
    hide CloseStep, IsBest, AllButLastScored, ScoresComputed, ServerComputed, ReviewInv, VersionsInOrder;
    CloseFlow(s, input);
  }

  lemma ReviewKeepsScores(s: State, role: Role, input: Input)
    requires ScoreInv(s) && ShapeInv(s) && ReviewInv(s) && ReviewStep(s, role, input).Some?
    ensures ScoreInv(ReviewStep(s, role, input).value)
  {
    hide ReviewStep, IsBest, AllButLastScored, ScoresComputed, ServerComputed, ReviewInv, VersionsInOrder;
    ReviewFlow(s, role, input);
  }

  lemma UserKeepsScores(s: State, a: Action)
    requires ScoreInv(s) && !a.Work? && !a.Review? && UserStep(s, a).Some?
    ensures ScoreInv(UserStep(s, a).value)
  {
    hide UserStep, IsBest, AllButLastScored, ScoresComputed, ServerComputed, ReviewInv, VersionsInOrder;
    UserFlow(s, a);
  }

  lemma StepKeepsScores(s: State, a: Action)
    requires ScoreInv(s) && ShapeInv(s) && ReviewInv(s) && Next(s, a).Some?
    ensures ScoreInv(Next(s, a).value)
  {
    hide ShapeInv, ReviewInv, ScoreInv, GateInv, EntryStep, StreamStep, FinishStep, JoinStep, AggregatorStep,
      RouteStep, ParkStep, PlanStep, CloseStep, ReviewStep, UserStep;
    match a
    case Work(input) =>
      match PhaseOf(s.pc) {
        case Entering => EntryKeepsScores(s, input);
        case Streaming => StreamKeepsScores(s, input);
        case Finishing => FinishKeepsScores(s, input);
        case InReview => JoinKeepsScores(s, input);
        case Scoring => AggregatorKeepsScores(s, input);
        case Routing => RouteKeepsScores(s, input);
        case Parking => ParkKeepsScores(s, input);
        case Planning => PlanKeepsScores(s, input);
        case Closing => CloseKeepsScores(s, input);
      }
    case Review(role, input) => ReviewKeepsScores(s, role, input);
    case _ => UserKeepsScores(s, a);
  }

  lemma EntryKeepsGate(s: State, input: Input)
    requires GateInv(s) && ShapeInv(s) && ScoreInv(s) && PhaseOf(s.pc).Entering? && EntryStep(s, input).Some?
    ensures GateInv(EntryStep(s, input).value)
  {
    hide EntryStep, IsBest, AllButLastScored, ScoresComputed, ServerComputed, VersionsInOrder, GatePassed;
    EntryFlow(s, input);
  }

  lemma StreamKeepsGate(s: State, input: Input)
    requires GateInv(s) && ShapeInv(s) && ScoreInv(s) && PhaseOf(s.pc).Streaming? && StreamStep(s, input).Some?
    ensures GateInv(StreamStep(s, input).value)
  {
    hide StreamStep, IsBest, AllButLastScored, ScoresComputed, ServerComputed, VersionsInOrder, GatePassed;
    StreamFlow(s, input);
  }

  lemma FinishKeepsGate(s: State, input: Input)
    requires GateInv(s) && ShapeInv(s) && ScoreInv(s) && PhaseOf(s.pc).Finishing? && FinishStep(s, input).Some?
    ensures GateInv(FinishStep(s, input).value)
  {
    hide FinishStep, IsBest, AllButLastScored, ScoresComputed, ServerComputed, VersionsInOrder, GatePassed;
    FinishFlow(s, input);
  }

  lemma JoinKeepsGate(s: State, input: Input)
    requires GateInv(s) && ShapeInv(s) && ScoreInv(s) && PhaseOf(s.pc).InReview? && JoinStep(s, input).Some?
    ensures GateInv(JoinStep(s, input).value)
  {
    hide JoinStep, IsBest, AllButLastScored, ScoresComputed, ServerComputed, VersionsInOrder, GatePassed;
    JoinFlow(s, input);
  }

  lemma AggregatorKeepsGate(s: State, input: Input)
    requires GateInv(s) && ShapeInv(s) && ScoreInv(s) && PhaseOf(s.pc).Scoring? && AggregatorStep(s, input).Some?
    ensures GateInv(AggregatorStep(s, input).value)
  {
    hide AggregatorStep, IsBest, AllButLastScored, ScoresComputed, ServerComputed, VersionsInOrder, GatePassed,
      EvaluateReviews, Aggregated;
    AggregatorFlow(s, input);
  }

  lemma RouteKeepsGate(s: State, input: Input)
    requires GateInv(s) && ShapeInv(s) && ScoreInv(s) && PhaseOf(s.pc).Routing? && RouteStep(s, input).Some?
    ensures GateInv(RouteStep(s, input).value)
  {
    hide RouteStep, IsBest, AllButLastScored, ScoresComputed, ServerComputed, VersionsInOrder, GatePassed;
    RouteFlow(s, input);
  }

  lemma ParkKeepsGate(s: State, input: Input)
    requires GateInv(s) && ShapeInv(s) && ScoreInv(s) && PhaseOf(s.pc).Parking? && ParkStep(s, input).Some?
    ensures GateInv(ParkStep(s, input).value)
  {
    hide ParkStep, IsBest, AllButLastScored, ScoresComputed, ServerComputed, VersionsInOrder, GatePassed;
    ParkFlow(s, input);
  }

  lemma PlanKeepsGate(s: State, input: Input)
    requires GateInv(s) && ShapeInv(s) && ScoreInv(s) && PhaseOf(s.pc).Planning? && PlanStep(s, input).Some?
    ensures GateInv(PlanStep(s, input).value)
  {
    hide PlanStep, IsBest, AllButLastScored, ScoresComputed, ServerComputed, VersionsInOrder, GatePassed;
    PlanFlow(s, input);
  }

  lemma CloseKeepsGate(s: State, input: Input)
    requires GateInv(s) && ShapeInv(s) && ScoreInv(s) && PhaseOf(s.pc).Closing? && CloseStep(s, input).Some?
    ensures GateInv(CloseStep(s, input).value)
  {
    hide CloseStep, IsBest, AllButLastScored, ScoresComputed, ServerComputed, VersionsInOrder, GatePassed;
    CloseFlow(s, input);
  }

  lemma ReviewKeepsGate(s: State, role: Role, input: Input)
    requires GateInv(s) && ShapeInv(s) && ScoreInv(s) && ReviewStep(s, role, input).Some?
    ensures GateInv(ReviewStep(s, role, input).value)
  {
    hide ReviewStep, IsBest, AllButLastScored, ScoresComputed, ServerComputed, VersionsInOrder, GatePassed;
    ReviewFlow(s, role, input);
  }

  lemma UserKeepsGate(s: State, a: Action)
    requires GateInv(s) && !a.Work? && !a.Review? && UserStep(s, a).Some?
    ensures GateInv(UserStep(s, a).value)
  {
    hide UserStep, IsBest, AllButLastScored, ScoresComputed, ServerComputed, VersionsInOrder, GatePassed;
    UserFlow(s, a);
  }

  lemma StepKeepsGate(s: State, a: Action)
    requires GateInv(s) && ShapeInv(s) && ScoreInv(s) && Next(s, a).Some?
    ensures GateInv(Next(s, a).value)
  {
    hide ShapeInv, ReviewInv, ScoreInv, GateInv, EntryStep, StreamStep, FinishStep, JoinStep, AggregatorStep,
      RouteStep, ParkStep, PlanStep, CloseStep, ReviewStep, UserStep;
    match a
    case Work(input) =>
      match PhaseOf(s.pc) {
        case Entering => EntryKeepsGate(s, input);
        case Streaming => StreamKeepsGate(s, input);
        case Finishing => FinishKeepsGate(s, input);
        case InReview => JoinKeepsGate(s, input);
        case Scoring => AggregatorKeepsGate(s, input);
        case Routing => RouteKeepsGate(s, input);
        case Parking => ParkKeepsGate(s, input);
        case Planning => PlanKeepsGate(s, input);
        case Closing => CloseKeepsGate(s, input);
      }
    case Review(role, input) => ReviewKeepsGate(s, role, input);
    case _ => UserKeepsGate(s, a);
  }

  // ----- over whole runs

  /** Everything a reachable state is known to satisfy. */
  ghost predicate Good(s: State) {
    StatusSafety.StatusInv(s) && ShapeInv(s) && ReviewInv(s) && ScoreInv(s) && GateInv(s)
  }

  lemma InitialIsGood(maxIterations: nat, threshold: nat)
    requires 1 <= maxIterations
    ensures Good(Initial(maxIterations, threshold))
  {
  }

  lemma StepKeepsGood(s: State, a: Action)
    requires Good(s) && Next(s, a).Some?
    ensures Good(Next(s, a).value)
  {
    hide StatusSafety.StatusInv, ShapeInv, ReviewInv, ScoreInv, GateInv, Next;
    StatusSafety.StepKeepsStatus(s, a);
    StepKeepsShape(s, a);
    StepKeepsReviews(s, a);
    StepKeepsScores(s, a);
    StepKeepsGate(s, a);
  }

  lemma {:induction false} ReachableIsGood(
    states: seq<State>, actions: seq<Action>, maxIterations: nat, threshold: nat, k: nat)
    requires IsRun(states, actions, maxIterations, threshold) && k < |states|
    ensures Good(states[k])
  {
    hide Good, Next, Initial;
    InitialIsGood(maxIterations, threshold);
    if k > 0 {
      ReachableIsGood(states, actions, maxIterations, threshold, k - 1);
      assert Next(states[k - 1], actions[k - 1]) == Some(states[k]);
      StepKeepsGood(states[k - 1], actions[k - 1]);
    }
  }

  /** Run shape: versions are numbered 1..n, where n is the current iteration or one less. */
  lemma RunShapeHolds(states: seq<State>, actions: seq<Action>, maxIterations: nat, threshold: nat, k: nat)
    requires IsRun(states, actions, maxIterations, threshold) && k < |states|
    ensures var docs := states[k].run.snapshot.docs;
      && docs.iteration - 1 <= |docs.versions| <= docs.iteration <= docs.maxIterations
      && forall i :: 0 <= i < |docs.versions| ==> docs.versions[i].number == i + 1
  {
    hide Next, StatusSafety.StatusInv, ReviewInv, ScoreInv, GateInv, LocalsFit, Initial;
    ReachableIsGood(states, actions, maxIterations, threshold, k);
    assert ShapeInv(states[k]);
  }

  /** What a completed run's documents show. */
  ghost predicate CompletedWell(docs: Docs) {
    && LastScored(docs.versions)
    && docs.versions[|docs.versions| - 1].evaluation.value.overall >= docs.threshold
    && MustFixCount(docs.versions[|docs.versions| - 1].evaluation.value) == 0
  }

  /** What the documents of a run that spent its budget show. */
  ghost predicate RanOut(docs: Docs) {
    && LastScored(docs.versions) && |docs.versions| == docs.iteration == docs.maxIterations
    && (|| docs.versions[|docs.versions| - 1].evaluation.value.overall < docs.threshold
        || MustFixCount(docs.versions[|docs.versions| - 1].evaluation.value) > 0)
  }

  lemma GateAt(s: State)
    requires Good(s)
    ensures s.run.snapshot.status.Completed? ==> CompletedWell(s.run.snapshot.docs)
    ensures s.run.snapshot.status.MaxIterationsReached? ==> RanOut(s.run.snapshot.docs)
  {
    hide ReviewInv, IsBest, LocalsFit, VersionsInOrder, ScoresComputed, AllButLastScored, Evaluate;
    assert ShapeInv(s) && GateInv(s) && ScoreInv(s) && StatusSafety.StatusInv(s);
    hide StatusSafety.StatusFits;
  }

  /** What the documents of a paused run show. */
  ghost predicate AtSafePoint(docs: Docs) {
    |docs.versions| == docs.iteration < docs.maxIterations && docs.pendingPlan.None? && LastHeld(docs)
  }

  lemma PauseAt(s: State)
    requires Good(s) && s.run.snapshot.status.Paused?
    ensures AtSafePoint(s.run.snapshot.docs)
  {
    hide ReviewInv, ScoreInv, LocalsFit, VersionsInOrder, LastHeld;
    assert StatusSafety.StatusInv(s);
    assert s.pc.AggWait? || s.pc.OptWait? || s.pc.OptWaitAgain?;
    assert ShapeInv(s) && GateInv(s);
  }

  /** The stored best is the earliest version attaining the highest score. */
  lemma BestIsEarliestMaximum(states: seq<State>, actions: seq<Action>, maxIterations: nat, threshold: nat, k: nat)
    requires IsRun(states, actions, maxIterations, threshold) && k < |states|
    ensures var docs := states[k].run.snapshot.docs;
      IsBest(docs.versions, docs.bestVersion, docs.bestScore) && ScoresComputed(docs.versions)
  {
    hide Next, StatusSafety.StatusInv, ShapeInv, ReviewInv, GateInv, IsBest, ScoresComputed, Initial;
    ReachableIsGood(states, actions, maxIterations, threshold, k);
    assert ScoreInv(states[k]);
  }
}
