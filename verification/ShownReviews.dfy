/**
 The reviews a client shows (`src/lib/runReducer.ts`, `src/lib/contracts.ts`): from whatever snapshot it
 starts and whatever deltas it misses, they are the server's reviews with their blank findings left out.
 */
module ShownReviews {
  import opened Wrappers
  import opened RunTypes
  import opened RunManager
  import opened Workflow
  import opened RunShape
  import opened EventMeaning
  import opened Reducer
  import opened ShownFindings
  import opened Simulation
  import opened LiveView

  // ----- what is shown of a review

  /** The server's review of a version: the current round's, or the one the version was scored on. */
  function ServerReview(docs: Docs, version: nat, role: Role): Option<RunTypes.Review> {
    if version == docs.iteration && docs.reviews != NO_REVIEWS then docs.reviews.Get(role)
    else if 1 <= version <= |docs.versions| && docs.versions[version - 1].evaluation.Some? then
      var e := docs.versions[version - 1].evaluation.value;
      Some(match role case Tech => e.tech case Ux => e.ux case Biz => e.biz)
    else None
  }

  function ShownReview(board: Board, version: nat, role: Role): Option<RunTypes.Review> {
    if version in board.reviews then board.reviews[version].Get(role) else None
  }

  /** Shown exactly when there is one, under its role, with its score and all its findings but the blank ones. */
  ghost predicate Truthful(shown: Option<RunTypes.Review>, review: Option<RunTypes.Review>) {
    if review.None? then shown.None?
    else
      && shown.Some? && shown.value.role == review.value.role && shown.value.score == review.value.score
      && ShowsLegible(shown.value.feedback, review.value.feedback)
      && (NoBlank(review.value.feedback) ==> shown == review)
  }

  lemma LegibleIsTruthful(review: Option<RunTypes.Review>)
    ensures Truthful(LegibleOption(review), review)
  {
    hide ShowsLegible, NoBlank;
    if review.Some? && NoBlank(review.value.feedback) {
      LegibleIsAll(review.value.feedback);
      LegibleIsUnique(review.value.feedback, LegibleFindings(review.value.feedback), review.value.feedback);
    }
  }

  /** A view that shows the ideal reviews shows each of the server's. */
  lemma IdealReviewsAreTruthful(board: Board, docs: Docs, version: nat, role: Role)
    requires 1 <= docs.iteration && |docs.versions| <= docs.iteration
    requires board.reviews == IdealReviews(docs.iteration, docs.versions, docs.reviews)
    ensures Truthful(ShownReview(board, version, role), ServerReview(docs, version, role))
  {
    hide Truthful, LegibleOption;
    LegibleIsTruthful(ServerReview(docs, version, role));
    NothingIsTruthful();
    assert version in UpTo(docs.iteration) <==> 1 <= version <= docs.iteration;
    assert ShownReview(board, version, role) == LegibleOption(ServerReview(docs, version, role));
  }

  lemma NothingIsTruthful()
    ensures LegibleOption(None) == None && Truthful(None, None)
  {
  }

  // ----- over whole runs

  ghost predicate ShowsReviews(view: View, s: State) {
    var docs := s.run.snapshot.docs;
    Tracks(view, s) && view.board.reviews == IdealReviews(docs.iteration, docs.versions, docs.reviews)
  }

  /** What an event makes of the reviews depends on nothing else on the board. */
  lemma ReviewsAreApart(board: Board, other: Board, iteration: nat, payload: Payload)
    requires board.reviews == other.reviews
    ensures ApplyBoard(board, iteration, payload).reviews == ApplyBoard(other, iteration, payload).reviews
  {
    hide NormalizeReview;
  }

  lemma StepShowsReviews(s: State, s': State, view: View, dropped: set<nat>)
    requires Tellable(s) && Tellable(s') && Explained(s, s') && !Terminal(s.run.snapshot.status)
    requires ShowsReviews(view, s)
    ensures ShowsReviews(StepView(view, s, s', dropped), s')
  {
    hide Good, ShapeInv, RoundInv, DraftInv, Matches, Quiet, StepView, ApplyDrafts, ApplyBoard, Transient,
      IdealReviews, IdealScores, IdealOutcome;
    ShapeOfGood(s);
    ShapeOfGood(s');
    StepIsSeen(s, s', view, dropped);
    if Tells(s, s') {
      var event := s'.run.log[|s.run.log|];
      var ideal := IdealBoard(s.run.snapshot.status, s.run.snapshot.docs);
      BoardFollows(s, s', event.payload);
      ReviewsAreApart(view.board, ideal, event.iteration, event.payload);
      DeltaKeepsBoard(ideal, event.iteration, event);
    } else {
      QuietShowsTheSame(s, s');
    }
  }

  lemma LoadShowsReviews(s: State)
    requires Tellable(s)
    ensures ShowsReviews(LoadSnapshot(s.run.snapshot), s)
  {
    hide StatusSafety.StatusInv, LocalsFit, PastGate, ReviewInv, ScoreInv, GateInv, RoundInv, DraftInv,
      VersionsInOrder, ReviewsFromSnapshot, ScoresFromSnapshot, BestOfSnapshot, OutcomeFromSnapshot, SeededDrafts,
      IdealReviews;
    assert ShapeInv(s);
    LoadedReviewsAreIdeal(s.run.snapshot.docs);
  }

  lemma {:induction false} WatchedRunShowsReviews(
    states: seq<State>, actions: seq<Action>, maxIterations: nat, threshold: nat, i: nat, j: nat, view: View,
    dropped: set<nat>)
    requires IsRun(states, actions, maxIterations, threshold) && i <= j < |states| && LiveUntil(states, i, j)
    requires ShowsReviews(view, states[i])
    ensures ShowsReviews(Watch(view, states, i, j, dropped), states[j])
    decreases j
  {
    hide Explained, Tellable, Next, Initial, ShowsReviews, StepView;
    if i < j {
      WatchedRunShowsReviews(states, actions, maxIterations, threshold, i, j - 1, view, dropped);
      ReachableIsTellable(states, actions, maxIterations, threshold, j - 1);
      ReachableIsTellable(states, actions, maxIterations, threshold, j);
      StepShowsReviews(states[j - 1], states[j], Watch(view, states, i, j - 1, dropped), dropped);
    }
  }

  /**
   Reviews are exact.  From any snapshot, whatever deltas are dropped and whatever is repeated, the client
   shows a review of a version exactly when the server has one, with its role and score, and all its
   findings that are not blank, each once and in order; without blank findings it shows the review itself.
   */
  lemma ClientShowsReviews(
    states: seq<State>, actions: seq<Action>, maxIterations: nat, threshold: nat, i: nat, j: nat, dropped: set<nat>,
    delivery: seq<Event>, version: nat, role: Role)
    requires IsRun(states, actions, maxIterations, threshold) && i <= j < |states| && LiveUntil(states, i, j)
    requires Delivers(delivery, Surviving(Since(states[j].run.log, |states[i].run.log|), dropped), |states[i].run.log|)
    ensures var board := ReceiveAll(LoadSnapshot(states[i].run.snapshot), delivery).board;
      Truthful(ShownReview(board, version, role), ServerReview(states[j].run.snapshot.docs, version, role))
  {
    hide Explained, Next, Initial, Delivers, Receive, LoadSnapshot, Since, LiveUntil, Surviving, Tellable, Watch,
      Truthful, IdealReviews, ShownReview, ServerReview;
    ReachableIsTellable(states, actions, maxIterations, threshold, i);
    ReachableIsTellable(states, actions, maxIterations, threshold, j);
    LoadShowsReviews(states[i]);
    DeliveryIsWatching(states, actions, maxIterations, threshold, i, j, dropped, delivery);
    WatchedRunShowsReviews(
      states, actions, maxIterations, threshold, i, j, LoadSnapshot(states[i].run.snapshot), dropped);
    RoundsFit(states[j]);
    var board := ReceiveAll(LoadSnapshot(states[i].run.snapshot), delivery).board;
    IdealReviewsAreTruthful(board, states[j].run.snapshot.docs, version, role);
  }

  lemma RoundsFit(s: State)
    requires Tellable(s)
    ensures var docs := s.run.snapshot.docs; 1 <= docs.iteration && |docs.versions| <= docs.iteration
  {
    hide RoundInv, DraftInv, Numbered, StatusSafety.StatusInv, LocalsFit, PastGate, ReviewInv, ScoreInv, GateInv,
      VersionsInOrder;
    assert ShapeInv(s);
  }
}
