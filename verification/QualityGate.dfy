/**
 The quality gate (`backend/workflow.py`), stated over the three reviews of a round alone: what a run that
 completed, ran out of budget or was paused shows of its last version.
 */
module QualityGate {
  import opened Wrappers
  import opened RunTypes
  import opened RunManager
  import opened Workflow
  import opened RunShape
  import opened EventMeaning
  import StatusSafety

  // ----- the gate, without the counts the server keeps

  /** The reviewer raised something that must be fixed. */
  ghost predicate Blocks(review: RunTypes.Review) {
    exists k :: 0 <= k < |review.feedback| && review.feedback[k].severity.MustFix?
  }

  /** The nearest tenth to the mean of three scores, in tenths. */
  ghost predicate IsMean(tenths: nat, tech: nat, ux: nat, biz: nat) {
    -1 <= 3 * tenths - 10 * (tech + ux + biz) <= 1
  }

  /** The round's three reviews, each under its own role. */
  ghost predicate AreReviews(
    docs: Docs, tech: RunTypes.Review, ux: RunTypes.Review, biz: RunTypes.Review)
  {
    && docs.reviews == Trio(Some(tech), Some(ux), Some(biz)) && tech.role.Tech? && ux.role.Ux? && biz.role.Biz?
  }

  /** The last version belongs to this round and carries its reviews and their mean. */
  ghost predicate ScoredOn(
    docs: Docs, tech: RunTypes.Review, ux: RunTypes.Review, biz: RunTypes.Review, mean: nat)
  {
    && AreReviews(docs, tech, ux, biz) && IsMean(mean, tech.score, ux.score, biz.score)
    && docs.versions != [] && |docs.versions| == docs.iteration
    && var e := docs.versions[|docs.versions| - 1].evaluation;
       && e.Some? && e.value.tech == tech && e.value.ux == ux && e.value.biz == biz && e.value.overall == mean
       && e.value.combined == tech.feedback + ux.feedback + biz.feedback
  }

  ghost predicate Passes(
    tech: RunTypes.Review, ux: RunTypes.Review, biz: RunTypes.Review, mean: nat, threshold: nat)
  {
    mean >= threshold && !Blocks(tech) && !Blocks(ux) && !Blocks(biz)
  }

  /** The last version is scored on the round's reviews, and these pass the gate, or do not. */
  ghost predicate Judged(docs: Docs, passes: bool) {
    exists tech, ux, biz, mean ::
      ScoredOn(docs, tech, ux, biz, mean) && (Passes(tech, ux, biz, mean, docs.threshold) <==> passes)
  }

  // ----- the server's counts say the same

  lemma {:induction false} CountsBlockers(feedback: seq<Finding>)
    ensures CountSeverity(feedback, MustFix) == 0 <==>
      forall k :: 0 <= k < |feedback| ==> !feedback[k].severity.MustFix?
  {
    if feedback != [] {
      CountsBlockers(feedback[1..]);
      assert forall k :: 1 <= k < |feedback| ==> feedback[k] == feedback[1..][k - 1];
    }
  }

  lemma GateIsPassed(tech: RunTypes.Review, ux: RunTypes.Review, biz: RunTypes.Review, threshold: nat)
    ensures var e := Evaluate(tech, ux, biz);
      && IsMean(e.overall, tech.score, ux.score, biz.score)
      && (GatePassed(e, threshold) <==> Passes(tech, ux, biz, e.overall, threshold))
  {
    var all := tech.feedback + ux.feedback + biz.feedback;
    CountsBlockers(all);
    var n, m := |tech.feedback|, |tech.feedback| + |ux.feedback|;
    assert forall k :: 0 <= k < n ==> all[k] == tech.feedback[k];
    assert forall k :: 0 <= k < |ux.feedback| ==> all[n + k] == ux.feedback[k];
    assert forall k :: 0 <= k < |biz.feedback| ==> all[m + k] == biz.feedback[k];
  }

  /** Where the last version is scored, it is judged as the server's gate judges it. */
  lemma LastIsJudged(s: State)
    requires Tellable(s) && LastScored(s.run.snapshot.docs.versions)
    requires |s.run.snapshot.docs.versions| == s.run.snapshot.docs.iteration
    ensures var docs := s.run.snapshot.docs;
      Judged(docs, GatePassed(docs.versions[|docs.versions| - 1].evaluation.value, docs.threshold))
  {
    hide StatusSafety.StatusInv, ShapeInv, GateInv, DraftInv, Numbered, IsBest, AllButLastScored, Evaluate,
      GatePassed, Passes, IsMean;
    var docs := s.run.snapshot.docs;
    assert ReviewInv(s) && RoundInv(s) && ScoreInv(s);
    var tech, ux, biz := docs.reviews.tech.value, docs.reviews.ux.value, docs.reviews.biz.value;
    var e := docs.versions[|docs.versions| - 1].evaluation.value;
    GateIsPassed(tech, ux, biz, docs.threshold);
    EvaluationHolds(tech, ux, biz);
    assert ScoredOn(docs, tech, ux, biz, e.overall);
  }

  lemma EvaluationHolds(tech: RunTypes.Review, ux: RunTypes.Review, biz: RunTypes.Review)
    ensures var e := Evaluate(tech, ux, biz);
      && e.tech == tech && e.ux == ux && e.biz == biz && e.combined == tech.feedback + ux.feedback + biz.feedback
  {
  }

  // ----- over whole runs

  lemma GateHolds(s: State)
    requires Tellable(s)
    ensures var docs := s.run.snapshot.docs;
      && (s.run.snapshot.status.Completed? ==> Judged(docs, true))
      && (s.run.snapshot.status.MaxIterationsReached? ==> docs.iteration == docs.maxIterations && Judged(docs, false))
      && (s.run.snapshot.status.Paused? ==>
            docs.iteration < docs.maxIterations && docs.pendingPlan.None? && Judged(docs, false))
      && (PastGate(s.pc, s.run.snapshot.status) ==> docs.iteration < docs.maxIterations && Judged(docs, false))
  {
    hide ReviewInv, RoundInv, DraftInv, Numbered, IsBest, LocalsFit, VersionsInOrder, ScoresComputed,
      AllButLastScored, Judged, GatePassed, StatusSafety.StatusInv;
    var docs := s.run.snapshot.docs;
    assert ShapeInv(s) && GateInv(s);
    if s.run.snapshot.status.Paused? {
      PauseAt(s);
    }
    if LastScored(docs.versions) && |docs.versions| == docs.iteration {
      LastIsJudged(s);
    }
  }

  /**
   Gate soundness.  The last version of a completed run is scored on the round's three reviews, their mean
   meets the threshold and none of them raised anything that must be fixed.  A run out of budget has spent
   all of it, and its last version's mean falls short or some review raised such a finding.
   */
  lemma GateIsSound(states: seq<State>, actions: seq<Action>, maxIterations: nat, threshold: nat, k: nat)
    requires IsRun(states, actions, maxIterations, threshold) && k < |states|
    ensures var snapshot := states[k].run.snapshot;
      && (snapshot.status.Completed? ==> Judged(snapshot.docs, true))
      && (snapshot.status.MaxIterationsReached? ==>
            snapshot.docs.iteration == snapshot.docs.maxIterations && Judged(snapshot.docs, false))
  {
    hide Next, Initial, Tellable, Judged;
    ReachableIsTellable(states, actions, maxIterations, threshold, k);
    GateHolds(states[k]);
  }

  /**
   Safe-point pause.  A paused run's newest version is the current iteration's and is scored, its reviews
   did not pass the gate, budget remains, and no revision plan is pending.
   */
  lemma PauseIsSafePoint(states: seq<State>, actions: seq<Action>, maxIterations: nat, threshold: nat, k: nat)
    requires IsRun(states, actions, maxIterations, threshold) && k < |states|
    requires states[k].run.snapshot.status.Paused?
    ensures var docs := states[k].run.snapshot.docs;
      docs.iteration < docs.maxIterations && docs.pendingPlan.None? && Judged(docs, false)
  {
    hide Next, Initial, Tellable, Judged;
    ReachableIsTellable(states, actions, maxIterations, threshold, k);
    GateHolds(states[k]);
  }

  /**
   The decision.  Unless a cancel was asked for, deciding completes a run if and only if its reviews pass the
   gate, ends it by budget if and only if they do not and the budget is spent, and otherwise goes on: parked
   when a pause had been asked for by the time the scores were stored, and to the next node if not.
   */
  lemma DecisionIsTheGate(s: State)
    requires Tellable(s) && s.pc.AggDecide? && !s.everCancelled
    ensures var s', docs := Next(s, Work(Go)), s.run.snapshot.docs;
      && s'.Some? && !s'.value.pc.Ending?
      && !s'.value.run.snapshot.status.Cancelled? && !s'.value.run.snapshot.status.Failed?
      && (s'.value.run.snapshot.status.Completed? ==> Judged(docs, true))
      && (s'.value.run.snapshot.status.MaxIterationsReached? ==>
            docs.iteration == docs.maxIterations && Judged(docs, false))
      && (!Terminal(s'.value.run.snapshot.status) ==>
            && docs.iteration < docs.maxIterations && Judged(docs, false)
            && (s.pc.seen.PauseRequested? <==> s'.value.run.snapshot.status.Paused?)
            && (if s.pc.seen.PauseRequested? then s'.value.pc.AggWait? else s'.value.pc.AggRoute?))
  {
    hide ReviewInv, RoundInv, DraftInv, Numbered, IsBest, LocalsFit, VersionsInOrder, ScoresComputed,
      AllButLastScored, Judged, GatePassed, OutcomeOf, GateInv;
    assert ShapeInv(s) && ScoreInv(s) && StatusSafety.StatusInv(s);
    LastIsJudged(s);
  }

  /** Reviews cannot both pass and not pass. */
  lemma JudgedOnce(docs: Docs)
    ensures !(Judged(docs, true) && Judged(docs, false))
  {
    hide Passes, IsMean;
  }
}
