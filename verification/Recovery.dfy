/**
 Starting from a snapshot that does not show the server's state (`src/lib/runReducer.ts`): a draft in
 flight that loading missed comes back with the next restart of the stream or the finished document, and
 a badge counted short stays short for good.
 */
module Recovery {
  import opened Wrappers
  import opened RunTypes
  import opened RunManager
  import opened Workflow
  import opened RunShape
  import opened EventMeaning
  import opened Reducer
  import opened Simulation
  import opened LiveView

  // ----- a missed draft

  /** The events that set a draft's whole text, whatever the client had of it. */
  predicate Rewrites(payload: Payload) { payload.PrdGenerated? || payload.PrdStreamReset? }

  ghost predicate Rewritten(log: seq<Event>, n: nat) { exists k :: n <= k < |log| && Rewrites(log[k].payload) }

  /** All the finished drafts are there, and less than the text in flight. */
  ghost predicate Lags(view: View, s: State) {
    var docs := s.run.snapshot.docs;
    && Tracks(view, s) && view.latestSequence == |s.run.log| && s.inFlight && docs.currentPrd != []
    && Leveled(view.drafts) - {docs.iteration} == DoneDrafts(docs.versions)
    && (docs.iteration in view.drafts ==>
          var draft := view.drafts[docs.iteration];
          !draft.complete && draft.attempt == docs.currentPrdAttempt && |draft.content| < |docs.currentPrd|)
  }

  lemma LaggingIsNotShown(view: View, s: State)
    requires Lags(view, s)
    ensures !ShowsDrafts(view, s)
  {
    var docs := s.run.snapshot.docs;
    assert docs.iteration in IdealDrafts(docs, s.inFlight);
    if docs.iteration in Leveled(view.drafts) {
      assert Leveled(view.drafts)[docs.iteration] != IdealDrafts(docs, s.inFlight)[docs.iteration];
    }
  }

  lemma CollisionLags(s: State)
    requires Tellable(s) && Collides(s)
    ensures Lags(LoadSnapshot(s.run.snapshot), s)
  {
    hide StatusSafety.StatusInv, LocalsFit, PastGate, ReviewInv, ScoreInv, GateInv, RoundInv, DoneDrafts, Leveled,
      ReviewsFromSnapshot, ScoresFromSnapshot, BestOfSnapshot, OutcomeFromSnapshot;
    var docs := s.run.snapshot.docs;
    assert ShapeInv(s);
    CountWhileInFlight(s);
    NotDoneYet(docs);
    VersionDraftsAreDone(docs.versions);
    SeededDraftsAreDone(docs);
    assert DoneDrafts(docs.versions) - {docs.iteration} == DoneDrafts(docs.versions);
  }

  /** A lagging client stays behind until the text is rewritten, and then shows the draft. */
  lemma StepLags(s: State, s': State, view: View)
    requires Tellable(s) && Explained(s, s') && !Terminal(s.run.snapshot.status) && Lags(view, s)
    ensures var after := StepView(view, s, s', {});
      if Tells(s, s') && Rewrites(s'.run.log[|s.run.log|].payload) then ShowsDrafts(after, s') else Lags(after, s')
  {
    hide Good, RoundInv, StepView, Leveled, DoneDrafts, IdealDrafts, ApplyDrafts, ApplyBoard, Matches, Lags;
    assert Tracks(view, s) by { LaggingTracks(view, s); }
    StepIsSeen(s, s', view, {});
    if Tells(s, s') {
      var payload := s'.run.log[|s.run.log|].payload;
      if Rewrites(payload) {
        RewriteShows(s, s', payload, view);
      } else {
        OtherwiseLags(s, s', payload, view, StepView(view, s, s', {}));
      }
    } else {
      QuietLags(s, s', view);
    }
  }

  lemma LaggingTracks(view: View, s: State)
    requires Lags(view, s)
    ensures Tracks(view, s)
  {
    hide Leveled, DoneDrafts;
  }

  lemma QuietLags(s: State, s': State, view: View)
    requires Lags(view, s) && Quiet(s, s')
    ensures Lags(view, s')
  {
    hide Leveled, DoneDrafts;
  }

  lemma RewriteShows(s: State, s': State, payload: Payload, view: View)
    requires DraftInv(s) && Matches(s, s', payload) && Lags(view, s) && Rewrites(payload)
    ensures Leveled(ApplyDrafts(view.drafts, payload)) == IdealDrafts(s'.run.snapshot.docs, s'.inFlight)
  {
    hide DoneDrafts;
    var docs, docs' := s.run.snapshot.docs, s'.run.snapshot.docs;
    var after := ApplyDrafts(view.drafts, payload);
    assert forall k :: k in view.drafts <==> k in Leveled(view.drafts);
    assert after.Keys == view.drafts.Keys + {docs.iteration};
    assert Leveled(after) - {docs.iteration} == Leveled(view.drafts) - {docs.iteration};
    if payload.PrdGenerated? {
      NewVersionIsDone(docs.versions, docs'.versions);
    }
    assert Leveled(after) == (Leveled(after) - {docs.iteration})[docs.iteration := Leveled(after)[docs.iteration]];
  }

  lemma OtherwiseLags(s: State, s': State, payload: Payload, view: View, after: View)
    requires DraftInv(s) && Matches(s, s', payload) && Lags(view, s) && !Rewrites(payload)
    requires Tracks(after, s') && after.latestSequence == |s'.run.log|
    requires after.drafts == ApplyDrafts(view.drafts, payload)
    ensures Lags(after, s')
  {
    hide DoneDrafts;
    var docs := s.run.snapshot.docs;
    assert forall k :: k in view.drafts <==> k in Leveled(view.drafts);
    if payload.PrdDelta? {
      assert Leveled(after.drafts) - {docs.iteration} == Leveled(view.drafts) - {docs.iteration};
    }
  }

  lemma {:induction false} MissedDraftReturns(
    states: seq<State>, actions: seq<Action>, maxIterations: nat, threshold: nat, i: nat, j: nat, view: View)
    requires IsRun(states, actions, maxIterations, threshold) && i <= j < |states| && LiveUntil(states, i, j)
    requires Lags(view, states[i])
    ensures |states[i].run.log| <= |states[j].run.log|
    ensures var after := Watch(view, states, i, j, {});
      if Rewritten(states[j].run.log, |states[i].run.log|) then ShowsDrafts(after, states[j])
          else Lags(after, states[j])
    decreases j
  {
    hide Explained, Tellable, Next, Initial, Lags, ShowsDrafts, StepView, Rewrites;
    if i < j {
      MissedDraftReturns(states, actions, maxIterations, threshold, i, j - 1, view);
      ReachableIsTellable(states, actions, maxIterations, threshold, j - 1);
      ReachableIsTellable(states, actions, maxIterations, threshold, j);
      var s, s', before := states[j - 1], states[j], Watch(view, states, i, j - 1, {});
      RewrittenGrows(s, s', |states[i].run.log|);
      if Rewritten(s.run.log, |states[i].run.log|) {
        StepShowsDrafts(s, s', before);
      } else {
        StepLags(s, s', before);
      }
    }
  }

  lemma RewrittenGrows(s: State, s': State, n: nat)
    requires Explained(s, s') && n <= |s.run.log|
    ensures n <= |s'.run.log|
    ensures Rewritten(s'.run.log, n) <==>
      Rewritten(s.run.log, n) || (Tells(s, s') && Rewrites(s'.run.log[|s.run.log|].payload))
  {
    hide Matches, Rewrites;
    if Tells(s, s') {
      assert forall k :: 0 <= k < |s.run.log| ==> s'.run.log[k] == s'.run.log[..|s.run.log|][k];
    }
  }

  // ----- a badge counted short

  /** The badge of version `k` is missing or is not the server's. */
  ghost predicate WrongBadge(view: View, s: State, k: nat) {
    var versions := s.run.snapshot.docs.versions;
    && Tracks(view, s) && 1 <= k <= |versions| && Scored(versions[k - 1])
    && (k in view.board.scores ==>
          var e := versions[k - 1].evaluation.value; view.board.scores[k] != ScoreOf(k, e, CountsOf(e.combined)))
  }

  lemma WrongBadgeIsNotShown(view: View, s: State, k: nat)
    requires WrongBadge(view, s, k)
    ensures !ShowsBoard(view, s)
  {
    hide ScoreOf, CountsOf;
    assert k in IdealScores(s.run.snapshot.docs.versions);
  }

  lemma BlankFindingMisleads(s: State) returns (k: nat)
    requires Tellable(s) && !NoBlankFindings(s.run.snapshot.docs.versions)
    ensures WrongBadge(LoadSnapshot(s.run.snapshot), s, k)
  {
    hide StatusSafety.StatusInv, LocalsFit, PastGate, ReviewInv, GateInv, RoundInv, DraftInv, IsBest, NoBlank,
      CountsOf, SeededDrafts, ReviewsFromSnapshot, ScoresFromSnapshot, BestOfSnapshot, OutcomeFromSnapshot,
      SeveritiesOf, ServerComputed;
    var versions := s.run.snapshot.docs.versions;
    assert ShapeInv(s) && ScoreInv(s);
    ScoresFromSnapshotAreLoaded(versions);
    var i :| 0 <= i < |versions| && Scored(versions[i]) && !NoBlank(versions[i].evaluation.value.combined);
    BadgeAgrees(versions[i].evaluation.value);
    k := i + 1;
    assert versions[k - 1] == versions[i];
  }

  /** A scored version is never scored again. */
  lemma ScoresStay(s: State, s': State, payload: Payload, k: nat)
    requires Matches(s, s', payload)
    requires 1 <= k <= |s.run.snapshot.docs.versions| && Scored(s.run.snapshot.docs.versions[k - 1])
    ensures k <= |s'.run.snapshot.docs.versions|
    ensures s'.run.snapshot.docs.versions[k - 1].evaluation == s.run.snapshot.docs.versions[k - 1].evaluation
    ensures payload.ScoresUpdated? ==> s'.run.snapshot.docs.iteration != k
  {
    hide EvaluateReviews, AllReviewed, OutcomeOf, GatePassed, ScoresPayload;
    var docs, docs' := s.run.snapshot.docs, s'.run.snapshot.docs;
    if payload.PrdGenerated? {
      assert docs'.versions[..|docs.versions|][k - 1] == docs'.versions[k - 1];
    }
  }

  lemma OtherBadgesStay(board: Board, iteration: nat, payload: Payload, k: nat)
    requires payload.ScoresUpdated? ==> iteration != k
    ensures var after := ApplyBoard(board, iteration, payload);
      (k in after.scores <==> k in board.scores) && (k in board.scores ==> after.scores[k] == board.scores[k])
  {
  }

  lemma StepKeepsWrongBadge(s: State, s': State, view: View, dropped: set<nat>, k: nat)
    requires Tellable(s) && Explained(s, s') && !Terminal(s.run.snapshot.status) && WrongBadge(view, s, k)
    ensures WrongBadge(StepView(view, s, s', dropped), s', k)
  {
    hide Good, DraftInv, RoundInv, StepView, Matches, ApplyDrafts, ApplyBoard, Transient, ScoreOf, CountsOf, Scored;
    StepIsSeen(s, s', view, dropped);
    if Tells(s, s') {
      var event := s'.run.log[|s.run.log|];
      ScoredMeans(s, k);
      ScoresStay(s, s', event.payload, k);
      ScoredMeans(s', k);
      OtherBadgesStay(view.board, event.iteration, event.payload, k);
    }
  }

  lemma ScoredMeans(s: State, k: nat)
    requires 1 <= k <= |s.run.snapshot.docs.versions|
    ensures Scored(s.run.snapshot.docs.versions[k - 1]) <==> s.run.snapshot.docs.versions[k - 1].evaluation.Some?
  {
  }

  lemma {:induction false} WrongBadgeStays(
    states: seq<State>, actions: seq<Action>, maxIterations: nat, threshold: nat, i: nat, j: nat, view: View,
    dropped: set<nat>, k: nat)
    requires IsRun(states, actions, maxIterations, threshold) && i <= j < |states| && LiveUntil(states, i, j)
    requires WrongBadge(view, states[i], k)
    ensures WrongBadge(Watch(view, states, i, j, dropped), states[j], k)
    decreases j
  {
    hide Explained, Tellable, Next, Initial, WrongBadge, StepView;
    if i < j {
      WrongBadgeStays(states, actions, maxIterations, threshold, i, j - 1, view, dropped, k);
      ReachableIsTellable(states, actions, maxIterations, threshold, j - 1);
      ReachableIsTellable(states, actions, maxIterations, threshold, j);
      StepKeepsWrongBadge(states[j - 1], states[j], Watch(view, states, i, j - 1, dropped), dropped, k);
    }
  }

  // ----- when a client shows the server's state

  /** Loading and watching shows everything but the drafts exactly when the snapshot held no blank finding. */
  lemma BoardIsShownIff(
    states: seq<State>, actions: seq<Action>, maxIterations: nat, threshold: nat, i: nat, j: nat, dropped: set<nat>)
    requires IsRun(states, actions, maxIterations, threshold) && i <= j < |states| && LiveUntil(states, i, j)
    ensures ShowsBoard(Watch(LoadSnapshot(states[i].run.snapshot), states, i, j, dropped), states[j])
            <==> NoBlankFindings(states[i].run.snapshot.docs.versions)
  {
    hide Explained, Tellable, Next, Initial, LoadSnapshot, LiveUntil, NoBlankFindings, ShowsBoard, WrongBadge, Watch;
    var view := LoadSnapshot(states[i].run.snapshot);
    ReachableIsTellable(states, actions, maxIterations, threshold, i);
    if NoBlankFindings(states[i].run.snapshot.docs.versions) {
      LoadShowsBoard(states[i]);
      WatchedRunShowsBoard(states, actions, maxIterations, threshold, i, j, view, dropped);
    } else {
      var k := BlankFindingMisleads(states[i]);
      WrongBadgeStays(states, actions, maxIterations, threshold, i, j, view, dropped, k);
      WrongBadgeIsNotShown(Watch(view, states, i, j, dropped), states[j], k);
    }
  }

  /** It shows the drafts exactly when none was missed or the text was rewritten since. */
  lemma DraftsAreShownIff(states: seq<State>, actions: seq<Action>, maxIterations: nat, threshold: nat, i: nat, j: nat)
    requires IsRun(states, actions, maxIterations, threshold) && i <= j < |states| && LiveUntil(states, i, j)
    ensures ShowsDrafts(Watch(LoadSnapshot(states[i].run.snapshot), states, i, j, {}), states[j])
            <==> (Collides(states[i]) ==> Rewritten(states[j].run.log, |states[i].run.log|))
  {
    hide Explained, Tellable, Next, Initial, LoadSnapshot, LiveUntil, Collides, ShowsDrafts, Lags, Watch, Rewritten,
      ShowsDone;
    var view := LoadSnapshot(states[i].run.snapshot);
    ReachableIsTellable(states, actions, maxIterations, threshold, i);
    if Collides(states[i]) {
      CollisionLags(states[i]);
      MissedDraftReturns(states, actions, maxIterations, threshold, i, j, view);
      if !Rewritten(states[j].run.log, |states[i].run.log|) {
        LaggingIsNotShown(Watch(view, states, i, j, {}), states[j]);
      }
    } else {
      LoadShowsDrafts(states[i]);
      WatchedRunShowsDrafts(states, actions, maxIterations, threshold, i, j, view);
    }
  }

  /**
   Any snapshot as a start.  A client that loads it and receives every later event, with any old ones
   repeated, shows a later state of the run up to its end if and only if no finding of the snapshot was
   blank and, where its text collided, the stream has since been restarted or the document finished.
   */
  lemma UncleanStartRecovers(
    states: seq<State>, actions: seq<Action>, maxIterations: nat, threshold: nat, i: nat, j: nat, delivery: seq<Event>)
    requires IsRun(states, actions, maxIterations, threshold) && i <= j < |states| && LiveUntil(states, i, j)
    requires Delivers(delivery, Since(states[j].run.log, |states[i].run.log|), |states[i].run.log|)
    ensures Project(ReceiveAll(LoadSnapshot(states[i].run.snapshot), delivery)) == Ideal(states[j]) <==>
      && NoBlankFindings(states[i].run.snapshot.docs.versions)
      && (Collides(states[i]) ==> Rewritten(states[j].run.log, |states[i].run.log|))
  {
    hide Explained, Next, Initial, Project, Ideal, Collides, NoBlankFindings, Delivers, Receive, LoadSnapshot, Since,
      LiveUntil, Good, DraftInv, RoundInv, Numbered, ShowsDrafts, ShowsBoard, Watch, Surviving, Rewritten;
    ReachableIsTellable(states, actions, maxIterations, threshold, j);
    AllSurvive(Since(states[j].run.log, |states[i].run.log|));
    DeliveryIsWatching(states, actions, maxIterations, threshold, i, j, {}, delivery);
    BoardIsShownIff(states, actions, maxIterations, threshold, i, j, {});
    DraftsAreShownIff(states, actions, maxIterations, threshold, i, j);
    ShownIsIdeal(Watch(LoadSnapshot(states[i].run.snapshot), states, i, j, {}), states[j]);
  }

  /** A snapshot is a sound place to start from, for every later state, exactly when it is clean. */
  lemma CleanIsWhereToStart(states: seq<State>, actions: seq<Action>, maxIterations: nat, threshold: nat, i: nat)
    requires IsRun(states, actions, maxIterations, threshold) && i < |states|
    ensures Clean(states[i]) <==>
      forall j :: i <= j < |states| && LiveUntil(states, i, j) ==>
        Project(ReceiveAll(LoadSnapshot(states[i].run.snapshot), Since(states[j].run.log, |states[i].run.log|)))
            == Ideal(states[j])
  {
    hide Explained, Next, Initial, Project, Ideal, Collides, NoBlankFindings, LoadSnapshot, Good, DraftInv, RoundInv,
      Numbered, ShowsDrafts, ShowsBoard, Watch, Rewrites, Receive, ReceiveAll, Since, Surviving;
    var view := LoadSnapshot(states[i].run.snapshot);
    assert LiveUntil(states, i, i) && !Rewritten(states[i].run.log, |states[i].run.log|);
    forall j | i <= j < |states| && LiveUntil(states, i, j)
      ensures Project(ReceiveAll(view, Since(states[j].run.log, |states[i].run.log|))) == Ideal(states[j]) <==>
        && NoBlankFindings(states[i].run.snapshot.docs.versions)
        && (Collides(states[i]) ==> Rewritten(states[j].run.log, |states[i].run.log|))
    {
      ReachableIsTellable(states, actions, maxIterations, threshold, j);
      BoardIsShownIff(states, actions, maxIterations, threshold, i, j, {});
      DraftsAreShownIff(states, actions, maxIterations, threshold, i, j);
      ShownIsIdeal(Watch(view, states, i, j, {}), states[j]);
      WatchIsReceiving(states, actions, maxIterations, threshold, i, j, view, {});
      AllSurvive(Since(states[j].run.log, |states[i].run.log|));
    }
  }
}
