/**
 The client's view refines the server's run (`src/lib/runReducer.ts` against `backend/workflow.py`):
 loading a snapshot and receiving the later events shows what loading the later snapshot shows.

 `Ideal` reads the view straight off the server's state, with the server's own severity counts.  Loading
 a snapshot shows it exactly when the state is `Clean`; receiving events keeps showing it always.
 */
module Simulation {
  import opened Wrappers
  import opened RunTypes
  import opened RunManager
  import opened Workflow
  import opened RunShape
  import opened EventMeaning
  import opened Reducer
  import opened ShownFindings

  // ----- the view a state stands for

  /** The numbers from one up to `n`. */
  function UpTo(n: nat): (numbers: set<nat>)
    ensures forall k :: k in numbers <==> 1 <= k <= n
  {
    if n == 0 then {} else UpTo(n - 1) + {n}
  }

  /** Finished drafts: one per version. */
  function DoneDrafts(versions: seq<Version>): map<nat, Draft> {
    map k | k in UpTo(|versions|) :: Draft(k, 1, versions[k - 1].content, true)
  }

  /** An in-flight document is shown once it has text, or is not the first attempt. */
  predicate InView(docs: Docs, inFlight: bool) { inFlight && (docs.currentPrd != [] || docs.currentPrdAttempt > 1) }

  function IdealDrafts(docs: Docs, inFlight: bool): map<nat, Draft> {
    if InView(docs, inFlight)
    then DoneDrafts(docs.versions)[docs.iteration :=
        Draft(docs.iteration, docs.currentPrdAttempt, docs.currentPrd, false)]
    else DoneDrafts(docs.versions)
  }

  /** The reviews of each scored version, and those the current round has so far. */
  ghost function IdealReviews(iteration: nat, versions: seq<Version>, reviews: Trio<Option<RunTypes.Review>>)
    : map<nat, Trio<Option<RunTypes.Review>>>
  {
    map k | k in UpTo(iteration)
        && ((k == iteration && reviews != NO_REVIEWS) || (k <= |versions| && Scored(versions[k - 1]))) ::
      if k == iteration && reviews != NO_REVIEWS then LegibleTrio(reviews)
      else LegibleTrio(ReviewsOf(versions[k - 1].evaluation.value))
  }

  function ScoreOf(version: nat, e: Evaluation, counts: SeverityCounts): Score {
    Score(version, e.tech.score, e.ux.score, e.biz.score, e.overall, counts)
  }

  function IdealScores(versions: seq<Version>): map<nat, Score> {
    map k | k in UpTo(|versions|) && Scored(versions[k - 1]) ::
      ScoreOf(k, versions[k - 1].evaluation.value, CountsOf(versions[k - 1].evaluation.value.combined))
  }

  predicate ScoredEnding(status: Status) { status.Completed? || status.MaxIterationsReached? }

  /** How a run ended by score or by budget, read off its documents. */
  function IdealOutcome(status: Status, docs: Docs): Option<RunOutcome> {
    if ScoredEnding(status) && docs.latestEvaluation.Some? then
      var e := docs.latestEvaluation.value;
      Some(RunOutcome(
        e.overall >= docs.threshold, status.Completed?, docs.threshold, docs.iteration, docs.maxIterations,
        docs.bestVersion, docs.bestScore, CountsOf(e.combined)))
    else None
  }

  ghost function IdealBoard(status: Status, docs: Docs): Board {
    Board(status, IdealReviews(docs.iteration, docs.versions, docs.reviews), IdealScores(docs.versions),
          docs.bestVersion, docs.bestScore, IdealOutcome(status, docs))
  }

  ghost function Ideal(s: State): View {
    View(s.run.snapshot.latestSequence, IdealDrafts(s.run.snapshot.docs, s.inFlight),
         IdealBoard(s.run.snapshot.status, s.run.snapshot.docs))
  }

  // ----- when loading shows it

  /** The partial text in flight happens to equal the last version's whole text. */
  predicate Collides(s: State) {
    var docs := s.run.snapshot.docs;
    InView(docs, s.inFlight) && docs.versions != [] && docs.currentPrd == LastContent(docs.versions)
  }

  /** No scored version carries a finding with nothing in it. */
  ghost predicate NoBlankFindings(versions: seq<Version>) {
    forall k :: 0 <= k < |versions| && Scored(versions[k]) ==> NoBlank(versions[k].evaluation.value.combined)
  }

  ghost predicate Clean(s: State) { !Collides(s) && NoBlankFindings(s.run.snapshot.docs.versions) }

  lemma {:induction false} VersionDraftsAreDone(versions: seq<Version>)
    requires VersionsInOrder(versions)
    ensures VersionDrafts(versions) == DoneDrafts(versions)
  {
    if versions != [] {
      VersionDraftsAreDone(versions[..|versions| - 1]);
    }
  }

  lemma SeededDraftsAreIdeal(s: State)
    requires ShapeInv(s) && DraftInv(s)
    ensures SeededDrafts(s.run.snapshot.docs) == IdealDrafts(s.run.snapshot.docs, s.inFlight) <==> !Collides(s)
  {
    hide LocalsFit, PastGate;
    var docs := s.run.snapshot.docs;
    VersionDraftsAreDone(docs.versions);
    if Collides(s) {
      assert docs.iteration in IdealDrafts(docs, s.inFlight) && docs.iteration !in SeededDrafts(docs);
    }
  }

  lemma NormalizedEvaluationIsLegible(v: Version)
    ensures v.evaluation.Some? ==>
      NormalizeTrio(ReviewsOf(v.evaluation.value)) == LegibleTrio(ReviewsOf(v.evaluation.value))
  {
    if v.evaluation.Some? {
      NormalizedTrioIsLegible(ReviewsOf(v.evaluation.value));
    }
  }

  lemma {:induction false} EvaluatedReviewsAreIdeal(versions: seq<Version>)
    requires VersionsInOrder(versions)
    ensures EvaluatedReviews(versions) == IdealReviews(|versions|, versions, NO_REVIEWS)
  {
    hide NormalizeTrio, LegibleTrio, ReviewsOf;
    if versions != [] {
      NormalizedEvaluationIsLegible(versions[|versions| - 1]);
      EvaluatedReviewsAreIdeal(versions[..|versions| - 1]);
    }
  }

  lemma LoadedReviewsAreIdeal(docs: Docs)
    requires VersionsInOrder(docs.versions) && 1 <= docs.iteration && |docs.versions| <= docs.iteration
    ensures ReviewsFromSnapshot(docs) == IdealReviews(docs.iteration, docs.versions, docs.reviews)
  {
    hide NormalizeTrio, LegibleTrio, ReviewsOf;
    NormalizedTrioIsLegible(docs.reviews);
    EvaluatedReviewsAreIdeal(docs.versions);
  }

  /** The badges a loaded snapshot shows, as a table. */
  function LoadedScores(versions: seq<Version>): map<nat, Score> {
    map k | k in UpTo(|versions|) && Scored(versions[k - 1]) ::
      ScoreOf(k, versions[k - 1].evaluation.value, SeveritiesOf(versions[k - 1].evaluation.value))
  }

  lemma {:induction false} ScoresFromSnapshotAreLoaded(versions: seq<Version>)
    requires VersionsInOrder(versions)
    ensures ScoresFromSnapshot(versions) == LoadedScores(versions)
  {
    hide SeveritiesOf;
    if versions != [] {
      ScoresFromSnapshotAreLoaded(versions[..|versions| - 1]);
    }
  }

  /** A recounted badge agrees with the server's count exactly when no finding is blank. */
  lemma BadgeAgrees(e: Evaluation)
    requires ServerComputed(e)
    ensures SeveritiesOf(e) == CountsOf(e.combined) <==> NoBlank(e.combined)
  {
    hide CountsOf, Normalize;
    NormalizedCountsAgree(e.combined);
  }

  lemma LoadedScoresAreIdeal(versions: seq<Version>)
    requires ScoresComputed(versions)
    ensures LoadedScores(versions) == IdealScores(versions) <==> NoBlankFindings(versions)
  {
    hide SeveritiesOf, CountsOf, NoBlank, ServerComputed;
    forall k | 0 <= k < |versions| && Scored(versions[k])
      ensures SeveritiesOf(versions[k].evaluation.value) == CountsOf(versions[k].evaluation.value.combined)
              <==> NoBlank(versions[k].evaluation.value.combined)
    {
      BadgeAgrees(versions[k].evaluation.value);
    }
    if LoadedScores(versions) == IdealScores(versions) {
      forall k | 0 <= k < |versions| && Scored(versions[k])
        ensures NoBlank(versions[k].evaluation.value.combined)
      {
        assert LoadedScores(versions)[k + 1] == IdealScores(versions)[k + 1];
      }
    }
  }

  // ----- the client's own scan for the best version

  /** A scan of the versions finds the earliest highest score. */
  lemma {:induction false} ScanFindsBest(versions: seq<Version>)
    requires VersionsInOrder(versions)
    ensures IsBest(versions, ScanBest(versions).version, ScanBest(versions).score)
  {
    if versions != [] {
      var n := |versions| - 1;
      var front := versions[..n];
      ScanFindsBest(front);
      assert forall k :: 0 <= k < n ==> front[k] == versions[k];
      ScanStep(front, versions, ScanBest(front), ScanBest(versions));
    }
  }

  lemma ScanStep(front: seq<Version>, versions: seq<Version>, before: Best, after: Best)
    requires |versions| == |front| + 1 && versions[..|front|] == front && versions[|front|].number == |versions|
    requires IsBest(front, before.version, before.score)
    requires var v := versions[|front|];
      after == if Scored(v) && (before.score.None? || v.evaluation.value.overall > before.score.value)
               then Best(Some(v.number), Some(v.evaluation.value.overall)) else before
    ensures IsBest(versions, after.version, after.score)
  {
    var n := |front|;
    assert forall k :: 0 <= k < n ==> front[k] == versions[k];
    if before.score.None? {
      assert forall k :: 0 <= k < n ==> !Scored(front[k]);
    } else {
      assert Scored(versions[before.version.value - 1]);
    }
    if Scored(versions[n]) {
      assert exists k :: 0 <= k < |versions| && Scored(versions[k]);
    }
  }

  lemma BestIsUnique(versions: seq<Version>, a: Best, b: Best)
    requires IsBest(versions, a.version, a.score) && IsBest(versions, b.version, b.score)
    ensures a == b
  {
  }

  /** Incremental best equals recomputed best: the server's record is what the client's scan finds. */
  lemma StoredBestIsScanned(docs: Docs)
    requires VersionsInOrder(docs.versions) && IsBest(docs.versions, docs.bestVersion, docs.bestScore)
    ensures ScanBest(docs.versions) == Best(docs.bestVersion, docs.bestScore) == BestOfSnapshot(docs)
  {
    hide IsBest;
    ScanFindsBest(docs.versions);
    BestIsUnique(docs.versions, ScanBest(docs.versions), Best(docs.bestVersion, docs.bestScore));
  }

  lemma RecomputedBestAgrees(states: seq<State>, actions: seq<Action>, maxIterations: nat, threshold: nat, k: nat)
    requires IsRun(states, actions, maxIterations, threshold) && k < |states|
    ensures var docs := states[k].run.snapshot.docs;
      ScanBest(docs.versions) == Best(docs.bestVersion, docs.bestScore) == BestOfSnapshot(docs)
  {
    hide Next, StatusSafety.StatusInv, ReviewInv, GateInv, IsBest, Initial, VersionsInOrder, ScanBest, BestOfSnapshot;
    ReachableIsGood(states, actions, maxIterations, threshold, k);
    assert ShapeInv(states[k]) && ScoreInv(states[k]);
    StoredBestIsScanned(states[k].run.snapshot.docs);
  }

  // ----- loading

  lemma LoadedOutcomeIsIdeal(s: State)
    requires GateInv(s) && NoBlankFindings(s.run.snapshot.docs.versions) && ScoresComputed(s.run.snapshot.docs.versions)
    ensures var docs := s.run.snapshot.docs;
      OutcomeFromSnapshot(s.run.snapshot.status, docs, Best(docs.bestVersion, docs.bestScore))
      == IdealOutcome(s.run.snapshot.status, docs)
  {
    hide SeveritiesOf, CountsOf, NoBlank, ServerComputed, PastGate, MustFixCount;
    var docs := s.run.snapshot.docs;
    if ScoredEnding(s.run.snapshot.status) {
      assert LatestIsLast(docs);
      BadgeAgrees(docs.versions[|docs.versions| - 1].evaluation.value);
    }
  }

  /** Loading a reachable snapshot shows exactly the server's state if and only if it is clean. */
  lemma LoadShowsIdeal(s: State)
    requires Tellable(s)
    ensures LoadSnapshot(s.run.snapshot) == Ideal(s) <==> Clean(s)
  {
    hide StatusSafety.StatusInv, LocalsFit, PastGate, ReviewInv, GateInv, RoundInv, IsBest, VersionsInOrder,
      ScoresComputed, SeededDrafts, ReviewsFromSnapshot, ScoresFromSnapshot, BestOfSnapshot, OutcomeFromSnapshot,
      IdealReviews, IdealScores, LoadedScores, IdealDrafts, IdealOutcome, NoBlankFindings, Collides, DraftInv,
      AllButLastScored, ServerComputed, ScanBest;
    var docs := s.run.snapshot.docs;
    assert ShapeInv(s) && ScoreInv(s);
    SeededDraftsAreIdeal(s);
    LoadedReviewsAreIdeal(docs);
    ScoresFromSnapshotAreLoaded(docs.versions);
    LoadedScoresAreIdeal(docs.versions);
    StoredBestIsScanned(docs);
    if NoBlankFindings(docs.versions) {
      LoadedOutcomeIsIdeal(s);
    }
  }
}
