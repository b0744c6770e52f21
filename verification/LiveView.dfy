/**
 Watching a run live: a client that loaded one snapshot and receives the later events keeps showing the
 server's state, with repeated events ignored and whatever deltas were dropped made good by the next
 finished document.
 */
module LiveView {
  import opened Wrappers
  import opened RunTypes
  import opened RunManager
  import opened Workflow
  import opened RunShape
  import opened EventMeaning
  import opened Reducer
  import opened Simulation
  import opened ShownFindings

  // ----- what is compared

  /** The attempt of a finished draft is not part of the view. */
  function Leveled(drafts: map<nat, Draft>): map<nat, Draft> {
    map k | k in drafts :: if drafts[k].complete then drafts[k].(attempt := 1) else drafts[k]
  }

  function Project(view: View): View { view.(drafts := Leveled(view.drafts)) }

  /** Only the finished drafts. */
  function Finished(drafts: map<nat, Draft>): map<nat, Draft> {
    map k | k in drafts && drafts[k].complete :: drafts[k].(attempt := 1)
  }

  // ----- one step: the drafts

  lemma ScoringKeepsDone(versions: seq<Version>, e: Evaluation)
    ensures DoneDrafts(ScoreVersions(versions, e)) == DoneDrafts(versions)
  {
  }

  lemma NewVersionIsDone(versions: seq<Version>, longer: seq<Version>)
    requires |longer| == |versions| + 1 && longer[..|versions|] == versions
    ensures var n := |versions|;
      DoneDrafts(longer) == DoneDrafts(versions)[n + 1 := Draft(n + 1, 1, longer[n].content, true)]
  {
    var n := |versions|;
    assert forall k :: 0 <= k < n ==> longer[k] == longer[..n][k];
  }

  /** A new version's finished draft takes the place of whatever was in flight under its number. */
  lemma GeneratedFollows(docs: Docs, drafts: map<nat, Draft>, attempt: nat, content: Text)
    requires |docs.versions| + 1 == docs.iteration && Leveled(drafts) == IdealDrafts(docs, true)
    ensures Leveled(drafts[docs.iteration := Draft(docs.iteration, attempt, content, true)])
            == DoneDrafts(docs.versions)[docs.iteration := Draft(docs.iteration, 1, content, true)]
  {
    hide DoneDrafts;
    assert forall k :: k in drafts <==> k in Leveled(drafts);
  }

  /** What a client has of the document in flight. */
  lemma InFlightDraft(docs: Docs, drafts: map<nat, Draft>)
    requires |docs.versions| + 1 == docs.iteration && Leveled(drafts) == IdealDrafts(docs, true)
    ensures docs.iteration in drafts <==> InView(docs, true)
    ensures InView(docs, true) ==>
        drafts[docs.iteration] == Draft(docs.iteration, docs.currentPrdAttempt, docs.currentPrd, false)
    ensures forall d: Draft ::
        !d.complete ==> Leveled(drafts[docs.iteration := d]) == DoneDrafts(docs.versions)[docs.iteration := d]
  {
    hide DoneDrafts;
    NotDoneYet(docs);
    assert forall k :: k in drafts <==> k in Leveled(drafts);
    if InView(docs, true) {
      assert Leveled(drafts)[docs.iteration] == Draft(docs.iteration, docs.currentPrdAttempt, docs.currentPrd, false);
    }
  }

  lemma StreamFollows(s: State, s': State, payload: Payload, drafts: map<nat, Draft>)
    requires ShapeInv(s) && DraftInv(s) && (payload.PrdDelta? || payload.PrdStreamReset?) && Matches(s, s', payload)
    requires Leveled(drafts) == IdealDrafts(s.run.snapshot.docs, s.inFlight)
    ensures Leveled(ApplyDrafts(drafts, payload)) == IdealDrafts(s'.run.snapshot.docs, s'.inFlight)
  {
    hide VersionsInOrder, LocalsFit, PastGate, DoneDrafts, Leveled;
    InFlightDraft(s.run.snapshot.docs, drafts);
  }

  lemma DraftsFollow(s: State, s': State, payload: Payload, drafts: map<nat, Draft>)
    requires ShapeInv(s) && DraftInv(s) && Matches(s, s', payload)
    requires Leveled(drafts) == IdealDrafts(s.run.snapshot.docs, s.inFlight)
    ensures Leveled(ApplyDrafts(drafts, payload)) == IdealDrafts(s'.run.snapshot.docs, s'.inFlight)
  {
    hide ShapeInv, DraftInv, OutcomeOf, ScoresPayload, Leveled, DoneDrafts, ScoreVersions, EvaluateReviews, AllReviewed;
    if payload.PrdGenerated? {
      CountWhileInFlight(s);
      NewVersionIsDone(s.run.snapshot.docs.versions, s'.run.snapshot.docs.versions);
      GeneratedFollows(s.run.snapshot.docs, drafts, payload.attempt, payload.content);
    } else if payload.PrdDelta? || payload.PrdStreamReset? {
      StreamFollows(s, s', payload, drafts);
    } else if payload.ScoresUpdated? {
      ScoringKeepsDone(s.run.snapshot.docs.versions, EvaluateReviews(s.run.snapshot.docs.reviews));
    }
  }

  lemma CountWhileInFlight(s: State)
    requires DraftInv(s) && s.inFlight
    ensures |s.run.snapshot.docs.versions| + 1 == s.run.snapshot.docs.iteration
  {
  }

  /** Finished drafts follow even when the one in flight does not. */
  lemma DoneFollows(s: State, s': State, payload: Payload, drafts: map<nat, Draft>)
    requires DraftInv(s) && Matches(s, s', payload)
    requires Finished(drafts) == DoneDrafts(s.run.snapshot.docs.versions)
    ensures Finished(ApplyDrafts(drafts, payload)) == DoneDrafts(s'.run.snapshot.docs.versions)
  {
    hide DraftInv, OutcomeOf, ScoresPayload, ScoreVersions, EvaluateReviews, AllReviewed, DoneDrafts;
    var docs, docs' := s.run.snapshot.docs, s'.run.snapshot.docs;
    assert forall k :: k in Finished(drafts) <==> k in drafts && drafts[k].complete;
    if payload.PrdGenerated? {
      CountWhileInFlight(s);
      NewVersionIsDone(docs.versions, docs'.versions);
    } else if payload.ScoresUpdated? {
      ScoringKeepsDone(docs.versions, EvaluateReviews(docs.reviews));
    } else if payload.PrdDelta? || payload.PrdStreamReset? {
      CountWhileInFlight(s);
      NotDoneYet(docs);
    }
  }

  lemma NotDoneYet(docs: Docs)
    requires |docs.versions| + 1 == docs.iteration
    ensures docs.iteration !in DoneDrafts(docs.versions)
  {
  }

  // ----- one step: the rest of the view

  lemma NewVersionKeepsBoard(docs: Docs, docs': Docs)
    requires |docs'.versions| == |docs.versions| + 1 == docs.iteration
    requires docs'.versions[..|docs.versions|] == docs.versions
    requires docs'.versions[|docs.versions|].evaluation.None? && docs.reviews == NO_REVIEWS
    ensures IdealReviews(docs.iteration, docs'.versions, NO_REVIEWS)
        == IdealReviews(docs.iteration, docs.versions, NO_REVIEWS)
    ensures IdealScores(docs'.versions) == IdealScores(docs.versions)
  {
    hide LegibleTrio, ReviewsOf, CountsOf, ScoreOf;
    var n := |docs.versions|;
    assert forall k :: 0 <= k < n ==> docs'.versions[k] == docs'.versions[..n][k];
  }

  lemma ReviewFollows(
    iteration: nat, versions: seq<Version>, reviews: Trio<Option<RunTypes.Review>>, review: RunTypes.Review)
    requires |versions| == iteration >= 1 && !LastScored(versions)
    ensures var shown := IdealReviews(iteration, versions, reviews);
      var seen := if iteration in shown then shown[iteration] else NO_REVIEWS;
      IdealReviews(iteration, versions, reviews.Set(review.role, Some(review)))
      == shown[iteration := seen.Set(review.role, Some(NormalizeReview(review)))]
  {
    hide NormalizeReview, LegibleReview;
    NormalizedIsLegible(review);
  }

  lemma ScoringFollows(docs: Docs, e: Evaluation)
    requires |docs.versions| == docs.iteration >= 1 && docs.reviews != NO_REVIEWS
    ensures IdealReviews(docs.iteration, ScoreVersions(docs.versions, e), docs.reviews)
            == IdealReviews(docs.iteration, docs.versions, docs.reviews)
    ensures IdealScores(ScoreVersions(docs.versions, e))
            == IdealScores(docs.versions)[docs.iteration := ScoreOf(docs.iteration, e, CountsOf(e.combined))]
  {
    hide LegibleTrio, ReviewsOf, CountsOf, ScoreOf;
  }

  /** The next round forgets the reviews in the snapshot, and finds the same ones on the scored version. */
  lemma NextRoundKeepsReviews(iteration: nat, versions: seq<Version>, reviews: Trio<Option<RunTypes.Review>>)
    requires |versions| == iteration >= 1 && LastScored(versions) && AllReviewed(reviews)
    requires versions[|versions| - 1].evaluation.value == EvaluateReviews(reviews)
    ensures IdealReviews(iteration + 1, versions, NO_REVIEWS) == IdealReviews(iteration, versions, reviews)
  {
    hide LegibleTrio, Overall;
    assert ReviewsOf(EvaluateReviews(reviews)) == reviews;
  }

  lemma BoardFollows(s: State, s': State, payload: Payload)
    requires ShapeInv(s) && ShapeInv(s') && DraftInv(s) && RoundInv(s) && Matches(s, s', payload)
    requires !Terminal(s.run.snapshot.status)
    ensures ApplyBoard(IdealBoard(s.run.snapshot.status, s.run.snapshot.docs), s'.run.snapshot.docs.iteration, payload)
            == IdealBoard(s'.run.snapshot.status, s'.run.snapshot.docs)
  {
    hide VersionsInOrder, LocalsFit, PastGate, IdealReviews, IdealScores, CountsOf, GatePassed, EvaluateReviews,
      ScoreVersions;
    var docs, docs' := s.run.snapshot.docs, s'.run.snapshot.docs;
    if payload.PrdGenerated? {
      NewVersionKeepsBoard(docs, docs');
    } else if payload.ReviewCompleted? {
      ReviewFollows(docs.iteration, docs.versions, docs.reviews, payload.review);
    } else if payload.ScoresUpdated? {
      ScoringFollows(docs, EvaluateReviews(docs.reviews));
    } else if payload.RevisionPlanned? {
      NextRoundKeepsReviews(docs.iteration, docs.versions, docs.reviews);
    }
  }

  // ----- one step: the view

  lemma QuietShowsTheSame(s: State, s': State)
    requires DraftInv(s) && Quiet(s, s') && !Terminal(s.run.snapshot.status)
    ensures Ideal(s') == Ideal(s)
    ensures s'.run.snapshot.docs.versions == s.run.snapshot.docs.versions
  {
    hide DoneDrafts, IdealReviews, IdealScores;
  }

  /** The view has not run ahead of the log and shows the run's status. */
  ghost predicate Tracks(view: View, s: State) {
    view.latestSequence <= |s.run.log| && view.board.status == s.run.snapshot.status
  }

  /** The finished drafts are the server's. */
  ghost predicate ShowsDone(view: View, s: State) {
    Tracks(view, s) && Finished(view.drafts) == DoneDrafts(s.run.snapshot.docs.versions)
  }

  /** Everything but the drafts is the server's. */
  ghost predicate ShowsBoard(view: View, s: State) {
    Tracks(view, s) && view.board == IdealBoard(s.run.snapshot.status, s.run.snapshot.docs)
  }

  /** All the drafts are the server's, the one in flight included. */
  ghost predicate ShowsDrafts(view: View, s: State) {
    && Tracks(view, s) && view.latestSequence == |s.run.log|
    && Leveled(view.drafts) == IdealDrafts(s.run.snapshot.docs, s.inFlight)
  }

  /** What a client makes of one step of the run: nothing, when it tells nothing or its delta is lost. */
  function StepView(view: View, s: State, s': State, dropped: set<nat>): View {
    if |s'.run.log| <= |s.run.log| then view
    else
      var event := s'.run.log[|s.run.log|];
      if Transient(event) && event.sequence in dropped then view else Receive(view, event)
  }

  lemma StatusFollows(s: State, s': State, payload: Payload, board: Board)
    requires Matches(s, s', payload) && board.status == s.run.snapshot.status
    ensures ApplyBoard(board, s'.run.snapshot.docs.iteration, payload).status == s'.run.snapshot.status
  {
    hide OutcomeOf, ScoresPayload, Aggregated, EvaluateReviews, AllReviewed, GatePassed;
  }

  /** A step either tells nothing, or the client receives or loses its one event. */
  lemma StepIsSeen(s: State, s': State, view: View, dropped: set<nat>)
    requires Numbered(s.run) && Explained(s, s') && Tracks(view, s) && !Terminal(s.run.snapshot.status)
    ensures Tracks(StepView(view, s, s', dropped), s')
    ensures Quiet(s, s') ==> StepView(view, s, s', dropped) == view
    ensures Tells(s, s') ==>
      var event, seen := s'.run.log[|s.run.log|], StepView(view, s, s', dropped);
      && Matches(s, s', event.payload) && event.iteration == s'.run.snapshot.docs.iteration
      && if Transient(event) && event.sequence in dropped then seen == view
         else seen == View(|s'.run.log|, ApplyDrafts(view.drafts, event.payload),
             ApplyBoard(view.board, event.iteration, event.payload))
  {
    hide Matches, ApplyDrafts, ApplyBoard, Transient;
    if Tells(s, s') {
      var event := s'.run.log[|s.run.log|];
      StatusFollows(s, s', event.payload, view.board);
      DeltaKeepsBoard(view.board, event.iteration, event);
    }
  }

  lemma DeltaKeepsBoard(board: Board, iteration: nat, event: Event)
    ensures Transient(event) ==> ApplyBoard(board, iteration, event.payload) == board
  {
  }

  lemma DeltaKeepsVersions(s: State, s': State)
    requires Tells(s, s') && Transient(s'.run.log[|s.run.log|])
    ensures s'.run.snapshot.docs.versions == s.run.snapshot.docs.versions
  {
  }

  /** Finished drafts stay the server's, whether or not a delta is lost. */
  lemma StepShowsDone(s: State, s': State, view: View, dropped: set<nat>)
    requires Tellable(s) && Explained(s, s') && !Terminal(s.run.snapshot.status) && ShowsDone(view, s)
    ensures ShowsDone(StepView(view, s, s', dropped), s')
  {
    hide Good, RoundInv, DraftInv, Matches, Quiet, StepView, Finished, DoneDrafts, ApplyDrafts, ApplyBoard,
      Transient, Ideal;
    StepIsSeen(s, s', view, dropped);
    if Tells(s, s') {
      var event := s'.run.log[|s.run.log|];
      DoneFollows(s, s', event.payload, view.drafts);
      if Transient(event) {
        DeltaKeepsVersions(s, s');
      }
    } else {
      QuietShowsTheSame(s, s');
    }
  }

  lemma ShapeOfGood(s: State)
    requires Good(s)
    ensures ShapeInv(s)
  {
    hide StatusSafety.StatusInv, ShapeInv, ReviewInv, ScoreInv, GateInv;
  }

  /** So does everything but the drafts. */
  lemma StepShowsBoard(s: State, s': State, view: View, dropped: set<nat>)
    requires Tellable(s) && Tellable(s') && Explained(s, s') && !Terminal(s.run.snapshot.status) && ShowsBoard(view, s)
    ensures ShowsBoard(StepView(view, s, s', dropped), s')
  {
    hide Good, ShapeInv, RoundInv, DraftInv, Matches, Quiet, StepView, IdealBoard, ApplyDrafts, ApplyBoard, Transient;
    ShapeOfGood(s);
    ShapeOfGood(s');
    StepIsSeen(s, s', view, dropped);
    if Tells(s, s') {
      var event := s'.run.log[|s.run.log|];
      BoardFollows(s, s', event.payload);
      DeltaKeepsBoard(view.board, event.iteration, event);
    } else {
      QuietShowsTheSame(s, s');
    }
  }

  /** And so does the draft in flight, while no delta is lost. */
  lemma StepShowsDrafts(s: State, s': State, view: View)
    requires Tellable(s) && Explained(s, s') && !Terminal(s.run.snapshot.status) && ShowsDrafts(view, s)
    ensures ShowsDrafts(StepView(view, s, s', {}), s')
  {
    hide Good, ShapeInv, RoundInv, DraftInv, Matches, StepView, Leveled, IdealDrafts, ApplyDrafts, ApplyBoard,
      Transient, IdealBoard;
    ShapeOfGood(s);
    StepIsSeen(s, s', view, {});
    if Tells(s, s') {
      DraftsFollow(s, s', s'.run.log[|s.run.log|].payload, view.drafts);
    } else {
      QuietShowsTheSame(s, s');
    }
  }

  // ----- over whole runs

  /** The events after the first `n`. */
  function Since(log: seq<Event>, n: nat): seq<Event> { if n <= |log| then log[n..] else [] }

  /** What is left of `events` when the transient ones numbered in `dropped` are lost. */
  function Surviving(events: seq<Event>, dropped: set<nat>): seq<Event> {
    if events == [] then []
    else (if Transient(events[0]) && events[0].sequence in dropped then []
        else [events[0]]) + Surviving(events[1..], dropped)
  }

  lemma {:induction false} SurvivingLast(events: seq<Event>, event: Event, dropped: set<nat>)
    ensures Surviving(events + [event], dropped)
            == Surviving(events, dropped) + (if Transient(event) && event.sequence in dropped then [] else [event])
  {
    if events == [] {
      assert events + [event] == [event];
    } else {
      SurvivingLast(events[1..], event, dropped);
      assert (events + [event])[1..] == events[1..] + [event];
    }
  }

  lemma {:induction false} AllSurvive(events: seq<Event>)
    ensures Surviving(events, {}) == events
  {
    if events != [] {
      AllSurvive(events[1..]);
    }
  }

  lemma {:induction false} SurvivingRises(events: seq<Event>, dropped: set<nat>, seen: nat, after: nat)
    requires Rising(events, after) && seen <= after
    ensures Rising(Surviving(events, dropped), seen)
    decreases |events|
  {
    if events != [] {
      SurvivingRises(events[1..], dropped, events[0].sequence, events[0].sequence);
      SurvivingRises(events[1..], dropped, seen, events[0].sequence);
      var rest := Surviving(events[1..], dropped);
      assert [] + rest == rest && ([events[0]] + rest)[1..] == rest;
    }
  }

  lemma {:induction false} LogRises(run: Run, n: nat)
    requires Numbered(run) && n <= |run.log|
    ensures Rising(Since(run.log, n), n)
    decreases |run.log| - n
  {
    if n < |run.log| {
      LogRises(run, n + 1);
      assert run.log[n..][1..] == run.log[n + 1..];
    }
  }

  /** No state from the `i`th up to the `j`th, that one left out, has ended. */
  ghost predicate LiveUntil(states: seq<State>, i: nat, j: nat)
    requires i <= j < |states|
  {
    forall m :: i <= m < j ==> !Terminal(states[m].run.snapshot.status)
  }

  /** The view after watching the run from the `i`th state to the `j`th. */
  function Watch(view: View, states: seq<State>, i: nat, j: nat, dropped: set<nat>): View
    requires i <= j < |states|
    decreases j
  {
    if i == j then view else StepView(Watch(view, states, i, j - 1, dropped), states[j - 1], states[j], dropped)
  }

  /** Receiving one more of the run's events, or none, when the run takes one more step. */
  lemma StepIsReceived(s: State, s': State, n: nat, view: View, dropped: set<nat>)
    requires Explained(s, s') && n <= |s.run.log|
    ensures n <= |s'.run.log|
    ensures ReceiveAll(view, Surviving(Since(s'.run.log, n), dropped))
            == StepView(ReceiveAll(view, Surviving(Since(s.run.log, n), dropped)), s, s', dropped)
  {
    hide Matches, Receive, Transient;
    if Tells(s, s') {
      var k := |s.run.log|;
      var event, before := s'.run.log[k], Since(s.run.log, n);
      assert s'.run.log == s'.run.log[..k] + [event];
      assert Since(s'.run.log, n) == before + [event];
      SurvivingLast(before, event, dropped);
      ReceiveLast(view, Surviving(before, dropped), event);
      assert Surviving(before, dropped) + [] == Surviving(before, dropped);
    }
  }

  /** Watching the run is receiving the part of its log that survives. */
  lemma {:induction false} WatchIsReceiving(
    states: seq<State>, actions: seq<Action>, maxIterations: nat, threshold: nat, i: nat, j: nat, view: View,
    dropped: set<nat>)
    requires IsRun(states, actions, maxIterations, threshold) && i <= j < |states|
    ensures |states[i].run.log| <= |states[j].run.log|
    ensures Watch(view, states, i, j, dropped)
            == ReceiveAll(view, Surviving(Since(states[j].run.log, |states[i].run.log|), dropped))
    decreases j
  {
    hide Explained, Tellable, Next, Initial, Receive, StepView;
    if i == j {
      assert Since(states[i].run.log, |states[i].run.log|) == [];
    } else {
      WatchIsReceiving(states, actions, maxIterations, threshold, i, j - 1, view, dropped);
      ReachableIsTellable(states, actions, maxIterations, threshold, j);
      StepIsReceived(states[j - 1], states[j], |states[i].run.log|, view, dropped);
    }
  }

  lemma {:induction false} WatchedRunShowsDone(
    states: seq<State>, actions: seq<Action>, maxIterations: nat, threshold: nat, i: nat, j: nat, view: View,
    dropped: set<nat>)
    requires IsRun(states, actions, maxIterations, threshold) && i <= j < |states| && LiveUntil(states, i, j)
    requires ShowsDone(view, states[i])
    ensures ShowsDone(Watch(view, states, i, j, dropped), states[j])
    decreases j
  {
    hide Explained, Tellable, Next, Initial, ShowsDone, StepView;
    if i < j {
      WatchedRunShowsDone(states, actions, maxIterations, threshold, i, j - 1, view, dropped);
      ReachableIsTellable(states, actions, maxIterations, threshold, j - 1);
      ReachableIsTellable(states, actions, maxIterations, threshold, j);
      StepShowsDone(states[j - 1], states[j], Watch(view, states, i, j - 1, dropped), dropped);
    }
  }

  lemma {:induction false} WatchedRunShowsBoard(
    states: seq<State>, actions: seq<Action>, maxIterations: nat, threshold: nat, i: nat, j: nat, view: View,
    dropped: set<nat>)
    requires IsRun(states, actions, maxIterations, threshold) && i <= j < |states| && LiveUntil(states, i, j)
    requires ShowsBoard(view, states[i])
    ensures ShowsBoard(Watch(view, states, i, j, dropped), states[j])
    decreases j
  {
    hide Explained, Tellable, Next, Initial, ShowsBoard, StepView;
    if i < j {
      WatchedRunShowsBoard(states, actions, maxIterations, threshold, i, j - 1, view, dropped);
      ReachableIsTellable(states, actions, maxIterations, threshold, j - 1);
      ReachableIsTellable(states, actions, maxIterations, threshold, j);
      StepShowsBoard(states[j - 1], states[j], Watch(view, states, i, j - 1, dropped), dropped);
    }
  }

  lemma {:induction false} WatchedRunShowsDrafts(
    states: seq<State>, actions: seq<Action>, maxIterations: nat, threshold: nat, i: nat, j: nat, view: View)
    requires IsRun(states, actions, maxIterations, threshold) && i <= j < |states| && LiveUntil(states, i, j)
    requires ShowsDrafts(view, states[i])
    ensures ShowsDrafts(Watch(view, states, i, j, {}), states[j])
    decreases j
  {
    hide Explained, Tellable, Next, Initial, ShowsDrafts, StepView;
    if i < j {
      WatchedRunShowsDrafts(states, actions, maxIterations, threshold, i, j - 1, view);
      ReachableIsTellable(states, actions, maxIterations, threshold, j - 1);
      ReachableIsTellable(states, actions, maxIterations, threshold, j);
      StepShowsDrafts(states[j - 1], states[j], Watch(view, states, i, j - 1, {}));
    }
  }

  /** Whatever is repeated on the way, what a delivery shows is what watching the run shows. */
  lemma DeliveryIsWatching(
    states: seq<State>, actions: seq<Action>, maxIterations: nat, threshold: nat, i: nat, j: nat, dropped: set<nat>,
    delivery: seq<Event>)
    requires IsRun(states, actions, maxIterations, threshold) && i <= j < |states|
    requires Delivers(delivery, Surviving(Since(states[j].run.log, |states[i].run.log|), dropped), |states[i].run.log|)
    ensures var view := LoadSnapshot(states[i].run.snapshot);
      ReceiveAll(view, delivery) == Watch(view, states, i, j, dropped)
  {
    hide Explained, Next, Initial, Delivers, Receive, LoadSnapshot, Since, Rising, Good, DraftInv, RoundInv, StepView,
      Surviving;
    var view, n := LoadSnapshot(states[i].run.snapshot), |states[i].run.log|;
    ReachableIsTellable(states, actions, maxIterations, threshold, i);
    ReachableIsTellable(states, actions, maxIterations, threshold, j);
    WatchIsReceiving(states, actions, maxIterations, threshold, i, j, view, dropped);
    LogRises(states[j].run, n);
    SurvivingRises(Since(states[j].run.log, n), dropped, n, n);
    LoadedCursor(states[i].run.snapshot);
    RepeatsAreIgnored(view, delivery, Surviving(Since(states[j].run.log, n), dropped), n);
  }

  lemma LoadedCursor(snapshot: Snapshot)
    ensures LoadSnapshot(snapshot).latestSequence == snapshot.latestSequence
    ensures LoadSnapshot(snapshot).board.status == snapshot.status
  {
    hide SeededDrafts, ReviewsFromSnapshot, ScoresFromSnapshot, BestOfSnapshot, OutcomeFromSnapshot;
  }

  // ----- what loading shows

  lemma SeededDraftsAreDone(docs: Docs)
    requires VersionsInOrder(docs.versions)
    ensures Finished(SeededDrafts(docs)) == DoneDrafts(docs.versions)
    ensures Leveled(SeededDrafts(docs)) == SeededDrafts(docs)
  {
    VersionDraftsAreDone(docs.versions);
  }

  /** Loading always gets the finished drafts right; the one in flight exactly without a collision. */
  lemma LoadShowsDrafts(s: State)
    requires Tellable(s)
    ensures ShowsDone(LoadSnapshot(s.run.snapshot), s)
    ensures ShowsDrafts(LoadSnapshot(s.run.snapshot), s) <==> !Collides(s)
  {
    hide StatusSafety.StatusInv, LocalsFit, PastGate, ReviewInv, ScoreInv, GateInv, RoundInv, DraftInv,
      VersionsInOrder, Collides, ReviewsFromSnapshot, ScoresFromSnapshot, BestOfSnapshot, OutcomeFromSnapshot,
      SeededDrafts, Finished, DoneDrafts, Leveled, IdealDrafts;
    assert ShapeInv(s);
    SeededDraftsAreDone(s.run.snapshot.docs);
    SeededDraftsAreIdeal(s);
  }

  /** Loading gets everything but the drafts right exactly when no finding is blank. */
  lemma LoadShowsBoard(s: State)
    requires Tellable(s)
    ensures ShowsBoard(LoadSnapshot(s.run.snapshot), s) <==> NoBlankFindings(s.run.snapshot.docs.versions)
  {
    hide StatusSafety.StatusInv, LocalsFit, PastGate, ReviewInv, GateInv, RoundInv, IsBest, VersionsInOrder,
      ScoresComputed, ReviewsFromSnapshot, ScoresFromSnapshot, BestOfSnapshot, OutcomeFromSnapshot, IdealReviews,
      IdealScores, LoadedScores, IdealOutcome, NoBlankFindings, DraftInv, AllButLastScored, ServerComputed, ScanBest,
      SeededDrafts;
    var docs := s.run.snapshot.docs;
    assert ShapeInv(s) && ScoreInv(s);
    LoadedReviewsAreIdeal(docs);
    ScoresFromSnapshotAreLoaded(docs.versions);
    LoadedScoresAreIdeal(docs.versions);
    StoredBestIsScanned(docs);
    if NoBlankFindings(docs.versions) {
      LoadedOutcomeIsIdeal(s);
    }
  }

  /** A view shows a state exactly when it shows its drafts and the rest. */
  lemma ShownIsIdeal(view: View, s: State)
    requires Numbered(s.run)
    ensures Project(view) == Ideal(s) <==> ShowsDrafts(view, s) && ShowsBoard(view, s)
  {
    hide Leveled, IdealDrafts, IdealReviews, IdealScores, IdealOutcome;
  }

  // ----- the simulation

  /**
   The client simulates the server.  A client that loads a clean snapshot and receives every later event,
   with any old ones repeated, shows the server's state after each of them up to and including the one
   that ends the run; and that is what loading the later snapshot shows exactly when that one is clean.
   */
  lemma ClientSimulatesServer(
    states: seq<State>, actions: seq<Action>, maxIterations: nat, threshold: nat, i: nat, j: nat, delivery: seq<Event>)
    requires IsRun(states, actions, maxIterations, threshold) && i <= j < |states| && LiveUntil(states, i, j)
    requires Clean(states[i])
    requires Delivers(delivery, Since(states[j].run.log, |states[i].run.log|), |states[i].run.log|)
    ensures var shown := Project(ReceiveAll(LoadSnapshot(states[i].run.snapshot), delivery));
      && shown == Ideal(states[j])
      && (shown == LoadSnapshot(states[j].run.snapshot) <==> Clean(states[j]))
  {
    hide Explained, Next, Initial, Project, Ideal, Collides, NoBlankFindings, Delivers, Receive, LoadSnapshot, Since,
      LiveUntil, Good, DraftInv, RoundInv, Numbered, ShowsDone, ShowsDrafts, ShowsBoard, Watch, Surviving;
    ReachableIsTellable(states, actions, maxIterations, threshold, i);
    ReachableIsTellable(states, actions, maxIterations, threshold, j);
    var view := LoadSnapshot(states[i].run.snapshot);
    LoadShowsDrafts(states[i]);
    LoadShowsBoard(states[i]);
    AllSurvive(Since(states[j].run.log, |states[i].run.log|));
    DeliveryIsWatching(states, actions, maxIterations, threshold, i, j, {}, delivery);
    WatchedRunShowsDrafts(states, actions, maxIterations, threshold, i, j, view);
    WatchedRunShowsBoard(states, actions, maxIterations, threshold, i, j, view, {});
    ShownIsIdeal(Watch(view, states, i, j, {}), states[j]);
    LoadShowsIdeal(states[j]);
  }

  /**
   Whatever subset of the deltas is dropped, and whatever is repeated, the finished drafts and the status
   are the server's, from any snapshot; and so is everything but the draft in flight when no finding of
   the snapshot is blank.  Colliding text in the snapshot does not matter.
   */
  lemma FinishedDraftsStayExact(
    states: seq<State>, actions: seq<Action>, maxIterations: nat, threshold: nat, i: nat, j: nat, dropped: set<nat>,
    delivery: seq<Event>)
    requires IsRun(states, actions, maxIterations, threshold) && i <= j < |states| && LiveUntil(states, i, j)
    requires Delivers(delivery, Surviving(Since(states[j].run.log, |states[i].run.log|), dropped), |states[i].run.log|)
    ensures var view, docs := ReceiveAll(LoadSnapshot(states[i].run.snapshot), delivery), states[j].run.snapshot.docs;
      && Finished(view.drafts) == DoneDrafts(docs.versions)
      && view.board.status == states[j].run.snapshot.status
      && (NoBlankFindings(states[i].run.snapshot.docs.versions) ==>
          view.board == IdealBoard(states[j].run.snapshot.status, docs))
  {
    hide Explained, Next, Initial, Delivers, Receive, LoadSnapshot, Since, LiveUntil, Finished, DoneDrafts,
      IdealBoard, NoBlankFindings, Surviving, Tellable, Watch, Collides, ShowsDrafts;
    ReachableIsTellable(states, actions, maxIterations, threshold, i);
    var view := LoadSnapshot(states[i].run.snapshot);
    LoadShowsDrafts(states[i]);
    LoadShowsBoard(states[i]);
    DeliveryIsWatching(states, actions, maxIterations, threshold, i, j, dropped, delivery);
    WatchedRunShowsDone(states, actions, maxIterations, threshold, i, j, view, dropped);
    if NoBlankFindings(states[i].run.snapshot.docs.versions) {
      WatchedRunShowsBoard(states, actions, maxIterations, threshold, i, j, view, dropped);
    }
  }

  // ----- where loading falls short

  /** Any later generation can stream the last version's text, and loading then shows no draft in flight. */
  lemma CollisionHappens(s: State)
    requires Tellable(s) && s.pc.GenStream? && !s.run.cancelSignal
    requires s.run.snapshot.docs.versions != [] && s.run.snapshot.docs.currentPrd == []
    ensures var s' := Next(s, Work(Delta(LastContent(s.run.snapshot.docs.versions))));
      && s'.Some? && Collides(s'.value)
      && s.run.snapshot.docs.iteration in Ideal(s'.value).drafts
      && s.run.snapshot.docs.iteration !in LoadSnapshot(s'.value.run.snapshot).drafts
  {
    hide StatusSafety.StatusInv, LocalsFit, PastGate, ReviewInv, ScoreInv, GateInv, RoundInv, Numbered,
      ReviewsFromSnapshot, ScoresFromSnapshot, BestOfSnapshot, OutcomeFromSnapshot, IdealReviews, IdealScores,
      IdealOutcome;
    assert ShapeInv(s) && DraftInv(s);
    VersionDraftsAreDone(s.run.snapshot.docs.versions);
  }

  /** One blank must-fix finding: the gate counts it, the badge recounted from the snapshot does not. */
  lemma BlankFindingMiscounts()
    ensures var blocker := RunTypes.Review(Tech, 90, [Finding(MustFix, true)]);
      var e := Evaluate(blocker, RunTypes.Review(Ux, 90, []), RunTypes.Review(Biz, 90, []));
      ServerComputed(e) && MustFixCount(e) == 1 && SeveritiesOf(e).mustFix == 0
  {
    var blocker := RunTypes.Review(Tech, 90, [Finding(MustFix, true)]);
    var e := Evaluate(blocker, RunTypes.Review(Ux, 90, []), RunTypes.Review(Biz, 90, []));
    assert e.combined == [Finding(MustFix, true)];
    assert Normalize(e.combined) == [];
  }
}
