/**
 The client's view of a run (`src/lib/runReducer.ts`): what loading a snapshot shows, and what each
 event of the stream changes.

 The view is the part the server and the client must agree on: status, drafts, reviews, scores, the best
 version and the outcome.  The pending plan, the selected version and the node statuses are treated
 differently by the live and the snapshot path on purpose and are not in it.
 */
module Reducer {
  import opened Wrappers
  import opened RunTypes

  datatype Draft = Draft(version: nat, attempt: nat, content: Text, complete: bool)

  datatype Score = Score(version: nat, tech: nat, ux: nat, biz: nat, overall: nat, severity: SeverityCounts)

  datatype RunOutcome = RunOutcome(
    thresholdMet: bool, gatePassed: bool, threshold: nat, completedIterations: nat, maxIterations: nat,
    bestVersion: Option<nat>, bestScore: Option<nat>, severity: SeverityCounts)

  /** Everything in the view but the drafts and the cursor. */
  datatype Board = Board(
    status: Status,
    reviews: map<nat, Trio<Option<Review>>>,
    scores: map<nat, Score>,
    bestVersion: Option<nat>,
    bestScore: Option<nat>,
    outcome: Option<RunOutcome>)

  datatype View = View(latestSequence: nat, drafts: map<nat, Draft>, board: Board)

  // ----- normalized findings

  /** `normalizeFeedback`: findings with nothing in them are dropped. */
  function Normalize(feedback: seq<Finding>): seq<Finding> {
    if feedback == [] then []
    else (if feedback[0].blank then [] else [feedback[0]]) + Normalize(feedback[1..])
  }

  function NormalizeReview(review: Review): Review { review.(feedback := Normalize(review.feedback)) }

  function NormalizeOption(review: Option<Review>): Option<Review> {
    if review.Some? then Some(NormalizeReview(review.value)) else None
  }

  function NormalizeTrio(reviews: Trio<Option<Review>>): Trio<Option<Review>> {
    Trio(NormalizeOption(reviews.tech), NormalizeOption(reviews.ux), NormalizeOption(reviews.biz))
  }

  function ReviewsOf(e: Evaluation): Trio<Option<Review>> { Trio(Some(e.tech), Some(e.ux), Some(e.biz)) }

  predicate NoBlank(feedback: seq<Finding>) { forall k :: 0 <= k < |feedback| ==> !feedback[k].blank }

  lemma {:induction false} NormalizeShrinks(feedback: seq<Finding>)
    ensures |Normalize(feedback)| <= |feedback|
    ensures |Normalize(feedback)| == |feedback| <==> NoBlank(feedback)
    ensures NoBlank(feedback) ==> Normalize(feedback) == feedback
  {
    if feedback != [] {
      NormalizeShrinks(feedback[1..]);
      assert NoBlank(feedback) <==> !feedback[0].blank && NoBlank(feedback[1..]);
    }
  }

  lemma {:induction false} CountsSumToLength(feedback: seq<Finding>)
    ensures var c := CountsOf(feedback); c.mustFix + c.shouldFix + c.advisory == |feedback|
  {
    if feedback != [] {
      CountsSumToLength(feedback[1..]);
    }
  }

  /** Counting after normalizing agrees with counting everything exactly when no finding is blank. */
  lemma NormalizedCountsAgree(feedback: seq<Finding>)
    ensures CountsOf(Normalize(feedback)) == CountsOf(feedback) <==> NoBlank(feedback)
  {
    NormalizeShrinks(feedback);
    CountsSumToLength(feedback);
    CountsSumToLength(Normalize(feedback));
  }

  /** `severitiesFromEvaluation`: the combined list, or the three reviews when it is empty. */
  function SeveritiesOf(e: Evaluation): SeverityCounts {
    var combined := if e.combined != [] then e.combined else e.tech.feedback + e.ux.feedback + e.biz.feedback;
    CountsOf(Normalize(combined))
  }

  // ----- loading a snapshot

  function VersionDrafts(versions: seq<Version>): map<nat, Draft> {
    if versions == [] then map[]
    else
      var v := versions[|versions| - 1];
      VersionDrafts(versions[..|versions| - 1])[v.number := Draft(v.number, 1, v.content, true)]
  }

  /** The in-flight draft, seeded only when `currentPrd` is not just a copy of the newest version. */
  function SeededDrafts(docs: Docs): map<nat, Draft> {
    var drafts := VersionDrafts(docs.versions);
    var attempt := if docs.currentPrdAttempt >= 1 then docs.currentPrdAttempt else 1;
    if docs.iteration !in drafts
       && (docs.currentPrd != [] || attempt > 1)
       && (docs.versions == [] || docs.currentPrd != docs.versions[|docs.versions| - 1].content)
    then drafts[docs.iteration := Draft(docs.iteration, attempt, docs.currentPrd, false)]
    else drafts
  }

  /** The drafts of a loaded snapshot: one finished draft per version, then the one in flight. */
  method SeedDrafts(docs: Docs) returns (drafts: map<nat, Draft>)
    ensures drafts == SeededDrafts(docs)
  {
    drafts := map[];
    for i := 0 to |docs.versions|
      invariant drafts == VersionDrafts(docs.versions[..i])
    {
      var version := docs.versions[i];
      assert docs.versions[..i + 1][..i] == docs.versions[..i];
      drafts := drafts[version.number := Draft(version.number, 1, version.content, true)];
    }
    assert docs.versions[..|docs.versions|] == docs.versions;
    var attempt := if docs.currentPrdAttempt >= 1 then docs.currentPrdAttempt else 1;
    if docs.iteration !in drafts && (docs.currentPrd != [] || attempt > 1) {
      if docs.versions == [] || docs.currentPrd != docs.versions[|docs.versions| - 1].content {
        drafts := drafts[docs.iteration := Draft(docs.iteration, attempt, docs.currentPrd, false)];
      }
    }
  }

  function EvaluatedReviews(versions: seq<Version>): map<nat, Trio<Option<Review>>> {
    if versions == [] then map[]
    else
      var v := versions[|versions| - 1];
      var rest := EvaluatedReviews(versions[..|versions| - 1]);
      if v.evaluation.Some? then rest[v.number := NormalizeTrio(ReviewsOf(v.evaluation.value))] else rest
  }

  function ReviewsFromSnapshot(docs: Docs): map<nat, Trio<Option<Review>>> {
    var entries := EvaluatedReviews(docs.versions);
    if docs.reviews != NO_REVIEWS then entries[docs.iteration := NormalizeTrio(docs.reviews)] else entries
  }

  /** `reviewsFromSnapshot`: entries pushed version by version, then the current round's. */
  method CollectReviews(docs: Docs) returns (entries: map<nat, Trio<Option<Review>>>)
    ensures entries == ReviewsFromSnapshot(docs)
  {
    entries := map[];
    for i := 0 to |docs.versions|
      invariant entries == EvaluatedReviews(docs.versions[..i])
    {
      var version := docs.versions[i];
      assert docs.versions[..i + 1][..i] == docs.versions[..i];
      if version.evaluation.Some? {
        entries := entries[version.number := NormalizeTrio(ReviewsOf(version.evaluation.value))];
      }
    }
    assert docs.versions[..|docs.versions|] == docs.versions;
    if docs.reviews != NO_REVIEWS {
      entries := entries[docs.iteration := NormalizeTrio(docs.reviews)];
    }
  }

  function ScoresFromSnapshot(versions: seq<Version>): map<nat, Score> {
    if versions == [] then map[]
    else
      var v := versions[|versions| - 1];
      var rest := ScoresFromSnapshot(versions[..|versions| - 1]);
      if v.evaluation.Some? then
        var e := v.evaluation.value;
        rest[v.number := Score(v.number, e.tech.score, e.ux.score, e.biz.score, e.overall, SeveritiesOf(e))]
      else rest
  }

  datatype Best = Best(version: Option<nat>, score: Option<nat>)

  /** The scan over the versions: a later version replaces the best only by scoring strictly higher. */
  function ScanBest(versions: seq<Version>): Best {
    if versions == [] then Best(None, None)
    else
      var v := versions[|versions| - 1];
      var best := ScanBest(versions[..|versions| - 1]);
      if v.evaluation.Some? && (best.score.None? || v.evaluation.value.overall > best.score.value)
      then Best(Some(v.number), Some(v.evaluation.value.overall))
      else best
  }

  function BestOfSnapshot(docs: Docs): Best {
    if docs.bestVersion.Some? && docs.bestScore.Some? then Best(docs.bestVersion, docs.bestScore)
        else ScanBest(docs.versions)
  }

  /** `bestFromSnapshot`: the stored best, or one pass over the versions. */
  method BestFromSnapshot(docs: Docs) returns (best: Best)
    ensures best == BestOfSnapshot(docs)
  {
    if docs.bestVersion.Some? && docs.bestScore.Some? {
      return Best(docs.bestVersion, docs.bestScore);
    }
    best := Best(None, None);
    for i := 0 to |docs.versions|
      invariant best == ScanBest(docs.versions[..i])
    {
      var v := docs.versions[i];
      assert docs.versions[..i + 1][..i] == docs.versions[..i];
      if v.evaluation.Some? && (best.score.None? || v.evaluation.value.overall > best.score.value) {
        best := Best(Some(v.number), Some(v.evaluation.value.overall));
      }
    }
    assert docs.versions[..|docs.versions|] == docs.versions;
  }

  /** `outcomeFromSnapshot`: only a scored ending has one. */
  function OutcomeFromSnapshot(status: Status, docs: Docs, best: Best): Option<RunOutcome> {
    if !status.Completed? && !status.MaxIterationsReached? then None
    else
      var passed := status.Completed?;
      var last := if docs.versions == [] then None else docs.versions[|docs.versions| - 1].evaluation;
      var final := if docs.latestEvaluation.Some? then docs.latestEvaluation else last;
      Some(RunOutcome(
        passed || (final.Some? && final.value.overall >= docs.threshold), passed, docs.threshold,
        docs.iteration, docs.maxIterations, best.version, best.score,
        if final.Some? then SeveritiesOf(final.value) else SeverityCounts(0, 0, 0)))
  }

  /** `SNAPSHOT_LOADED`. */
  function LoadSnapshot(snapshot: Snapshot): View {
    var docs := snapshot.docs;
    var best := BestOfSnapshot(docs);
    View(snapshot.latestSequence, SeededDrafts(docs),
         Board(snapshot.status, ReviewsFromSnapshot(docs), ScoresFromSnapshot(docs.versions),
               best.version, best.score, OutcomeFromSnapshot(snapshot.status, docs, best)))
  }

  // ----- receiving an event

  /** What an event does to the drafts. */
  function ApplyDrafts(drafts: map<nat, Draft>, payload: Payload): map<nat, Draft> {
    match payload
    case PrdStreamReset(version, attempt) =>
      if version in drafts && attempt <= drafts[version].attempt then drafts
      else drafts[version := Draft(version, attempt, [], false)]
    case PrdDelta(version, attempt, delta) =>
      if version in drafts && (drafts[version].complete || drafts[version].attempt != attempt) then drafts
      else if version !in drafts && attempt != 1 then drafts
      else
        var content := if version in drafts then drafts[version].content else [];
        drafts[version := Draft(version, attempt, content + delta, false)]
    case PrdGenerated(version, attempt, content) => drafts[version := Draft(version, attempt, content, true)]
    case _ => drafts
  }

  function OutcomeFromPayload(o: Outcome): RunOutcome {
    RunOutcome(o.thresholdMet, o.gatePassed, o.threshold, o.completedIterations, o.maxIterations, o.bestVersion,
        o.bestScore, o.counts)
  }

  function Ended(board: Board, status: Status, o: Outcome): Board {
    board.(
      status := status, outcome := Some(OutcomeFromPayload(o)),
      bestVersion := if o.bestVersion.Some? then o.bestVersion else board.bestVersion,
      bestScore := if o.bestScore.Some? then o.bestScore else board.bestScore)
  }

  /** What an event does to the rest of the view. */
  function ApplyBoard(board: Board, iteration: nat, payload: Payload): Board {
    match payload
    case StatusChanged(_, current) => board.(status := current)
    case PauseAsked(_, current) => board.(status := current)
    case RunPaused => board.(status := Paused)
    case RunResumed(_) => board.(status := Optimizing)
    case ReviewCompleted(review) =>
      var seen := if iteration in board.reviews then board.reviews[iteration] else NO_REVIEWS;
      board.(reviews := board.reviews[iteration := seen.Set(review.role, Some(NormalizeReview(review)))])
    case ScoresUpdated(tech, ux, biz, overall, bestVersion, bestScore, counts) =>
      var improved := board.bestScore.None? || overall > board.bestScore.value;
      board.(
        scores := board.scores[iteration := Score(iteration, tech, ux, biz, overall, counts)],
        bestVersion := if bestVersion.Some? then bestVersion else if improved then Some(iteration)
            else board.bestVersion,
        bestScore := if bestScore.Some? then bestScore else if improved then Some(overall) else board.bestScore)
    case RunCompleted(outcome) => Ended(board, Completed, outcome)
    case BudgetSpent(outcome) => Ended(board, MaxIterationsReached, outcome)
    case RunCancelled => board.(status := Cancelled)
    case RunFailed => board.(status := Failed)
    case _ => board
  }

  /** `EVENT_RECEIVED`: old sequences, and anything after a terminal status, are ignored. */
  function Receive(view: View, event: Event): View {
    if event.sequence <= view.latestSequence || Terminal(view.board.status) then view
    else View(event.sequence, ApplyDrafts(view.drafts, event.payload),
        ApplyBoard(view.board, event.iteration, event.payload))
  }

  function ReceiveAll(view: View, events: seq<Event>): View
    decreases |events|
  {
    if events == [] then view else ReceiveAll(Receive(view, events[0]), events[1..])
  }

  // ----- what the client works out for itself

  /** The best on the board is the earliest version with the highest score on it. */
  ghost predicate BestOnBoard(board: Board) {
    if board.scores == map[] then board.bestVersion.None? && board.bestScore.None?
    else
      && board.bestVersion.Some? && board.bestScore.Some? && board.bestVersion.value in board.scores
      && board.scores[board.bestVersion.value].overall == board.bestScore.value
      && (forall k :: k in board.scores ==> board.scores[k].overall <= board.bestScore.value)
      && (forall k :: k in board.scores && k < board.bestVersion.value ==>
            board.scores[k].overall < board.bestScore.value)
  }

  /** Scores that come without a best leave the client to keep it, and it keeps the earliest highest. */
  lemma OwnBestIsEarliestMaximum(board: Board, iteration: nat, payload: Payload)
    requires payload.ScoresUpdated? && payload.bestVersion.None? && payload.bestScore.None?
    requires BestOnBoard(board) && forall k :: k in board.scores ==> k < iteration
    ensures BestOnBoard(ApplyBoard(board, iteration, payload))
  {
    var after := ApplyBoard(board, iteration, payload);
    assert iteration in after.scores;
  }

  /** Scores that come with a best are believed. */
  lemma ToldBestIsShown(board: Board, iteration: nat, payload: Payload)
    requires payload.ScoresUpdated? && payload.bestVersion.Some? && payload.bestScore.Some?
    ensures var after := ApplyBoard(board, iteration, payload);
      after.bestVersion == payload.bestVersion && after.bestScore == payload.bestScore
  {
  }

  /**
   Whatever events come, in whatever order, no draft is lost or set back: only a finished document replaces
   one, an older attempt's text never joins a newer one, and a finished document takes no more text.
   */
  lemma DraftsOnlyAdvance(drafts: map<nat, Draft>, payload: Payload, k: nat)
    requires k in drafts && !payload.PrdGenerated?
    ensures var after := ApplyDrafts(drafts, payload);
      && k in after && after[k].attempt >= drafts[k].attempt
      && (after[k].attempt == drafts[k].attempt ==>
            drafts[k].content <= after[k].content && after[k].complete == drafts[k].complete)
      && (after[k].attempt > drafts[k].attempt ==> payload.PrdStreamReset? && after[k].content == [])
      && (drafts[k].complete && !payload.PrdStreamReset? ==> after[k] == drafts[k])
  {
  }

  /** Text for a document the client knows nothing of is taken only from a first attempt. */
  lemma LateTextIsNotShown(drafts: map<nat, Draft>, payload: Payload)
    requires payload.PrdDelta? && payload.version !in drafts
    ensures payload.version in ApplyDrafts(drafts, payload) <==> payload.attempt == 1
  {
  }

  /** Loading never shows a finished document as unfinished, whatever partial text the snapshot holds. */
  lemma {:induction false} VersionDraftsAreFinished(versions: seq<Version>)
    ensures forall k :: k in VersionDrafts(versions) ==> VersionDrafts(versions)[k].complete
    ensures forall v :: v in versions ==> v.number in VersionDrafts(versions)
  {
    if versions != [] {
      VersionDraftsAreFinished(versions[..|versions| - 1]);
    }
  }

  lemma LoadingKeepsFinished(docs: Docs, v: Version)
    requires v in docs.versions
    ensures v.number in SeededDrafts(docs) && SeededDrafts(docs)[v.number].complete
  {
    VersionDraftsAreFinished(docs.versions);
  }

  /** A completed run is shown as having passed, also when its evaluation is not stored. */
  lemma CompletedIsShownPassed(docs: Docs, best: Best)
    ensures var outcome := OutcomeFromSnapshot(Completed, docs, best);
      outcome.Some? && outcome.value.thresholdMet && outcome.value.gatePassed
  {
  }

  /** Without a latest evaluation the last version's own is shown, and that is no difference when they agree. */
  lemma LastEvaluationStandsIn(status: Status, docs: Docs, best: Best)
    requires docs.versions != [] && docs.latestEvaluation == docs.versions[|docs.versions| - 1].evaluation
    ensures OutcomeFromSnapshot(status, docs.(latestEvaluation := None), best)
        == OutcomeFromSnapshot(status, docs, best)
  {
  }

  /** A stored best is believed; without one the client scans the versions. */
  lemma BestIsStoredOrScanned(docs: Docs)
    ensures docs.bestVersion.Some? && docs.bestScore.Some? ==>
      BestOfSnapshot(docs).version == docs.bestVersion && BestOfSnapshot(docs).score == docs.bestScore
    ensures docs.bestVersion.None? || docs.bestScore.None? ==> BestOfSnapshot(docs) == ScanBest(docs.versions)
  {
  }

  /** An evaluation stored without its combined list is counted from its three reviews, to the same counts. */
  lemma UncombinedCountsAlike(e: Evaluation)
    requires e.combined == e.tech.feedback + e.ux.feedback + e.biz.feedback
    ensures SeveritiesOf(e.(combined := [])) == SeveritiesOf(e)
  {
  }

  // ----- deliveries with repeats

  /** The events come in strictly rising order, all after `seen`. */
  ghost predicate Rising(events: seq<Event>, seen: nat)
    decreases |events|
  {
    events == [] || (events[0].sequence > seen && Rising(events[1..], events[0].sequence))
  }

  /** `delivery` is `feed` in order, with any events not newer than the last delivered one in between. */
  ghost predicate Delivers(delivery: seq<Event>, feed: seq<Event>, seen: nat)
    decreases |delivery|
  {
    if delivery == [] then feed == []
    else
      || (delivery[0].sequence <= seen && Delivers(delivery[1..], feed, seen))
      || (feed != [] && delivery[0] == feed[0] && Delivers(delivery[1..], feed[1..], feed[0].sequence))
  }

  /** Repeated and old events change nothing: any such delivery shows what the feed itself shows. */
  lemma {:induction false} RepeatsAreIgnored(view: View, delivery: seq<Event>, feed: seq<Event>, seen: nat)
    requires Delivers(delivery, feed, seen) && Rising(feed, seen)
    requires view.latestSequence == seen || Terminal(view.board.status)
    ensures ReceiveAll(view, delivery) == ReceiveAll(view, feed)
    decreases |delivery|
  {
    hide ApplyDrafts, ApplyBoard;
    if Terminal(view.board.status) {
      EndedIgnoresAll(view, delivery);
      EndedIgnoresAll(view, feed);
    } else if delivery != [] {
      if delivery[0].sequence <= seen && Delivers(delivery[1..], feed, seen) {
        RepeatsAreIgnored(view, delivery[1..], feed, seen);
      } else {
        RepeatsAreIgnored(Receive(view, delivery[0]), delivery[1..], feed[1..], feed[0].sequence);
      }
    }
  }

  /** Nothing moves a view that shows a terminal status. */
  lemma {:induction false} EndedIgnoresAll(view: View, events: seq<Event>)
    requires Terminal(view.board.status)
    ensures ReceiveAll(view, events) == view
    decreases |events|
  {
    hide ApplyDrafts, ApplyBoard;
    if events != [] {
      EndedIgnoresAll(view, events[1..]);
    }
  }

  lemma {:induction false} ReceiveLast(view: View, events: seq<Event>, event: Event)
    ensures ReceiveAll(view, events + [event]) == Receive(ReceiveAll(view, events), event)
    decreases |events|
  {
    hide Receive;
    if events != [] {
      ReceiveLast(Receive(view, events[0]), events[1..], event);
      assert (events + [event])[1..] == events[1..] + [event];
    }
  }
}
