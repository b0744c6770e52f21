/**
 What each part of the workflow can change: where it may go next, which reviewers it moves, and which
 documents, scores and plans it touches.  The invariants are proved from these facts.
 */
module StepFlow {
  import opened Wrappers
  import opened RunTypes
  import opened RunManager
  import opened Workflow

  /** Only the decision after aggregation ends a run by score or by budget. */
  predicate NotDecided(s: State, s': State) {
    && (s'.run.snapshot.status.Completed? ==> s.run.snapshot.status.Completed?)
    && (s'.run.snapshot.status.MaxIterationsReached? ==> s.run.snapshot.status.MaxIterationsReached?)
  }

  predicate SameDocs(s: State, s': State) {
    s'.run.snapshot.docs == s.run.snapshot.docs && s'.reviewers == s.reviewers
  }

  lemma EntryFlow(s: State, input: Input)
    requires EntryStep(s, input).Some?
    ensures var s', docs := EntryStep(s, input).value, s.run.snapshot.docs;
      && s'.reviewers == s.reviewers && NotDecided(s, s')
      && if s.pc.GenBegin? then
           && s'.pc == GenStream(s.pc.g, s.pc.attempt) && s'.inFlight
           && s'.run.snapshot.docs == docs.(currentPrd := [], currentPrdAttempt := s.pc.attempt)
         else
           && s'.run.snapshot.docs == docs && s'.inFlight == s.inFlight
           && (s'.pc.GenEnter? || s'.pc.GenMark? || s'.pc.GenBegin? || s'.pc.Ending?)
           && (s'.pc.GenBegin? ==> s.pc == GenMark(s'.pc.g) && s'.pc.attempt == 1)
           && (s'.pc.GenMark? ==> s'.pc.g == GenLocals(docs.iteration, docs.pendingPlan))
  {
  }

  lemma StreamFlow(s: State, input: Input)
    requires StreamStep(s, input).Some?
    ensures var s', docs := StreamStep(s, input).value, s.run.snapshot.docs;
      && s'.reviewers == s.reviewers && NotDecided(s, s') && s'.inFlight == s.inFlight
      && s'.run.snapshot.docs
         == (if s.pc.GenStream? && input.Delta? && !s.run.cancelSignal
             then docs.(currentPrd := docs.currentPrd + input.text) else docs)
      && (s'.pc.Ending?
          || ((s'.pc.GenStream? || s'.pc.GenFailTiming? || s'.pc.GenFailUsage? || s'.pc.GenCommit?)
              && s'.pc.g == s.pc.g && s'.pc.attempt == s.pc.attempt)
          || (s'.pc.GenBegin? && s'.pc.g == s.pc.g && s'.pc.attempt == s.pc.attempt + 1 && s.pc.attempt < 2))
      && (s'.pc.GenCommit? ==> s'.pc.content != [])
  {
    hide Spend, AddTimingTo;
  }

  lemma FinishFlow(s: State, input: Input)
    requires FinishStep(s, input).Some?
    ensures var s', docs := FinishStep(s, input).value, s.run.snapshot.docs;
      && NotDecided(s, s')
      && s'.reviewers == (if s.pc.GenStage? then Trio(RevEnter, RevEnter, RevEnter) else s.reviewers)
      && if s.pc.GenCommit? && !s'.pc.Ending? then
           && s'.pc.GenUsage? && !s'.inFlight
           && s'.run.snapshot.docs == docs.(
                versions := docs.versions + [Version(s.pc.g.iteration, s.pc.content, None, s.pc.g.plan, s.pc.used)],
                currentPrd := s.pc.content, currentPrdAttempt := s.pc.attempt, pendingPlan := None)
         else
           && s'.run.snapshot.docs == docs && s'.inFlight == s.inFlight
           && (s.pc.GenCommit? ==> s'.pc.Ending?)
           && (s.pc.GenUsage? ==> s'.pc.GenTiming?)
           && (s.pc.GenTiming? ==> s'.pc.GenStage?)
           && (s.pc.GenStage? ==> s'.pc.Reviews? || s'.pc.Ending?)
  {
    hide Spend, AddTimingTo, CanTransition;
    if s.pc.GenStage? {
      StageIsNotDecision(s.run, RunTypes.Reviewing);
    }
  }

  /** Moving to a working stage never completes a run and never touches its documents. */
  lemma StageIsNotDecision(run: Run, stage: Status)
    requires !stage.Completed? && !stage.MaxIterationsReached?
    ensures SetStage(run, stage).Success? ==>
      && SetStage(run, stage).value.snapshot.docs == run.snapshot.docs
      && (SetStage(run, stage).value.snapshot.status == stage || SetStage(run, stage).value == run)
  {
  }

  lemma JoinFlow(s: State, input: Input)
    requires JoinStep(s, input).Some?
    ensures var s' := JoinStep(s, input).value;
      && SameDocs(s, s') && s'.run == s.run && s'.inFlight == s.inFlight
      && (s'.pc.Ending? || (s'.pc.AggEnter? && s.reviewers == Trio(RevDone, RevDone, RevDone)))
  {
  }

  lemma AggregatorFlow(s: State, input: Input)
    requires AggregatorStep(s, input).Some?
    ensures var s', docs := AggregatorStep(s, input).value, s.run.snapshot.docs;
      && s'.reviewers == s.reviewers && NotDecided(s, s') && s'.inFlight == s.inFlight
      && if s.pc.AggCommit? && AllReviewed(docs.reviews) then
           && s'.pc == AggDecide(EvaluateReviews(docs.reviews), s.run.snapshot.status)
           && s'.run.snapshot.docs == Aggregated(docs, EvaluateReviews(docs.reviews))
           && s'.run.snapshot.status == s.run.snapshot.status
         else
           && s'.run.snapshot.docs == docs
           && (s.pc.AggCommit? ==> s'.pc.Ending?)
           && (s.pc.AggMark? ==> s'.pc.AggCommit?)
           && (s.pc.AggEnter? ==> s'.pc.AggMark? || s'.pc.Ending?)
  {
    hide CanTransition, EvaluateReviews, Aggregated, ScoresPayload, AllReviewed;
  }

  lemma RouteFlow(s: State, input: Input)
    requires RouteStep(s, input).Some?
    ensures var s', docs := RouteStep(s, input).value, s.run.snapshot.docs;
      && SameDocs(s, s') && s'.inFlight == s.inFlight
      && (s'.pc.AggWait? || s'.pc.AggRoute? || s'.pc.OptEnter? || s'.pc.Ending? || s'.pc.Done?)
      && (!s.pc.AggDecide? ==> s'.run == s.run && !s'.pc.AggWait?)
      && (s.pc.AggWait? ==> s'.pc.AggRoute? || s'.pc.Ending?)
      && (s.pc.AggRoute? ==> if Terminal(s.run.snapshot.status) then s'.pc.Done? else s'.pc.OptEnter?)
      && (s.pc.AggDecide? ==> DecisionFits(s, s') && (s'.pc.AggWait? || s'.pc.AggRoute? || s'.pc.Ending?))
  {
    hide CanTransition, GatePassed, OutcomeOf, Terminal;
    if s.pc.AggDecide? {
      DecideFlow(s, s.pc.evaluation, s.pc.seen);
    }
  }

  /** What the decision did: completed, out of budget, held over, or refused by the table. */
  predicate DecisionFits(s: State, s': State)
    requires s.pc.AggDecide?
  {
    var docs, status := s.run.snapshot.docs, s'.run.snapshot.status;
    var passed := GatePassed(s.pc.evaluation, docs.threshold);
    || (s'.pc.Ending? && s'.run == s.run)
    || (s'.pc.AggRoute? && passed && status.Completed?)
    || (s'.pc.AggRoute? && !passed && status.MaxIterationsReached? && docs.iteration >= docs.maxIterations)
    || ((s'.pc.AggRoute? || s'.pc.AggWait?) && !passed && docs.iteration < docs.maxIterations
        && (status == s.run.snapshot.status || status.Optimizing? || status.Paused?))
  }

  lemma DecideFlow(s: State, e: Evaluation, seen: Status)
    requires s.pc == AggDecide(e, seen)
    ensures var s' := DecideStep(s, e, seen);
      && SameDocs(s, s') && s'.inFlight == s.inFlight && DecisionFits(s, s')
      && (s'.pc.AggWait? || s'.pc.AggRoute? || s'.pc.Ending?)
  {
    hide CanTransition, GatePassed, OutcomeOf;
  }

  lemma ParkFlow(s: State, input: Input)
    requires ParkStep(s, input).Some?
    ensures var s' := ParkStep(s, input).value;
      && SameDocs(s, s') && NotDecided(s, s') && s'.inFlight == s.inFlight
      && (PhaseOf(s'.pc).Parking? || s'.pc.OptMark? || s'.pc.Ending?)
  {
    hide SetStage, EnterPaused, WakeStep, NotDecided, SameDocs, PhaseOf;
    if s.pc.OptEnter? || s.pc.OptPause? || s.pc.OptWait? {
      ParkFirstFlow(s, input);
    } else {
      ParkAgainFlow(s, input);
    }
  }

  lemma ParkFirstFlow(s: State, input: Input)
    requires (s.pc.OptEnter? || s.pc.OptPause? || s.pc.OptWait?) && ParkStep(s, input).Some?
    ensures var s' := ParkStep(s, input).value;
      && SameDocs(s, s') && NotDecided(s, s') && s'.inFlight == s.inFlight
      && (PhaseOf(s'.pc).Parking? || s'.pc.Ending?)
  {
    hide SetStage, EnterPaused;
    PausedIsNotDecision(s.run);
  }

  lemma ParkAgainFlow(s: State, input: Input)
    requires (s.pc.OptStage? || s.pc.OptPauseAgain? || s.pc.OptWaitAgain? || s.pc.OptStageAgain?)
    requires ParkStep(s, input).Some?
    ensures var s' := ParkStep(s, input).value;
      && SameDocs(s, s') && NotDecided(s, s') && s'.inFlight == s.inFlight
      && (PhaseOf(s'.pc).Parking? || s'.pc.OptMark? || s'.pc.Ending?)
  {
    hide SetStage, EnterPaused;
    StageIsNotDecision(s.run, Optimizing);
    PausedIsNotDecision(s.run);
  }

  lemma PausedIsNotDecision(run: Run)
    ensures EnterPaused(run).Success? ==>
      && EnterPaused(run).value.snapshot.docs == run.snapshot.docs && EnterPaused(run).value.snapshot.status.Paused?
  {
  }

  lemma PlanFlow(s: State, input: Input)
    requires PlanStep(s, input).Some?
    ensures var s', docs := PlanStep(s, input).value, s.run.snapshot.docs;
      && s'.reviewers == s.reviewers && NotDecided(s, s') && s'.inFlight == s.inFlight
      && if s.pc.OptCommit? && !s'.pc.Ending? then
           && s'.pc.OptUsage?
           && s'.run.snapshot.docs
               == docs.(pendingPlan := Some(s.pc.plan), iteration := docs.iteration + 1, reviews := NO_REVIEWS)
         else
           && s'.run.snapshot.docs == docs
           && (s.pc.OptMark? ==> s'.pc.OptCall?)
           && (s.pc.OptCall? ==> s'.pc.OptCommit? || s'.pc.Ending?)
           && (s.pc.OptCommit? ==> s'.pc.Ending?)
           && (s.pc.OptUsage? ==> s'.pc.OptTiming?)
           && (s.pc.OptTiming? ==> s'.pc.OptStageNext?)
           && (s.pc.OptStageNext? ==> s'.pc.GenEnter? || s'.pc.Ending?)
  {
    hide CanTransition, Spend, AddTimingTo, ValidatedStructured;
    if s.pc.OptStageNext? {
      StageIsNotDecision(s.run, Generating);
    }
  }

  lemma CloseFlow(s: State, input: Input)
    requires CloseStep(s, input).Some?
    ensures var s' := CloseStep(s, input).value;
      SameDocs(s, s') && NotDecided(s, s') && s'.inFlight == s.inFlight && s.pc.Ending? && s'.pc.Done?
  {
    hide Terminal;
  }

  /** How one reviewer's step moves it, and what it stores. */
  predicate ReviewMoves(s: State, s': State, role: Role) {
    var docs, before, after := s.run.snapshot.docs, s.reviewers.Get(role), s'.reviewers.Get(role);
    && s.pc.Reviews? && s'.pc == s.pc && s'.inFlight == s.inFlight
    && s'.run.snapshot.status == s.run.snapshot.status
    && s'.reviewers == s.reviewers.Set(role, after)
    && if before.RevCommit? && !after.RevRaised? then
         after.RevUsage? && s'.run.snapshot.docs == docs.(reviews := docs.reviews.Set(role, Some(before.review)))
       else
         && s'.run.snapshot.docs == docs
         && (before.RevEnter? ==> after.RevCall? || after.RevRaised?)
         && (before.RevCall? ==> after.RevRaised? || (after.RevCommit? && after.review.role == role))
         && (before.RevCommit? ==> after.RevRaised?)
         && (before.RevUsage? ==> after.RevTiming?)
         && (before.RevTiming? ==> after.RevDone?)
         && (before.RevEnter? || before.RevCall? || before.RevCommit? || before.RevUsage? || before.RevTiming?)
  }

  lemma ReviewCallFlow(s: State, role: Role, input: Input)
    requires s.reviewers.Get(role).RevEnter? || s.reviewers.Get(role).RevCall?
    requires ReviewStep(s, role, input).Some?
    ensures ReviewMoves(s, ReviewStep(s, role, input).value, role)
  {
    hide RecordUsage, RecordTiming, FinishReview, ValidatedStructured;
  }

  lemma ReviewCommitFlow(s: State, role: Role, input: Input)
    requires s.reviewers.Get(role).RevCommit? && ReviewStep(s, role, input).Some?
    ensures ReviewMoves(s, ReviewStep(s, role, input).value, role)
  {
    hide RecordUsage, RecordTiming, ValidatedStructured;
  }

  lemma ReviewRecordFlow(s: State, role: Role, input: Input)
    requires !s.reviewers.Get(role).RevEnter? && !s.reviewers.Get(role).RevCall? && !s.reviewers.Get(role).RevCommit?
    requires ReviewStep(s, role, input).Some?
    ensures ReviewMoves(s, ReviewStep(s, role, input).value, role)
  {
    hide Spend, AddTimingTo, FinishReview, ValidatedStructured;
  }

  lemma ReviewFlow(s: State, role: Role, input: Input)
    requires ReviewStep(s, role, input).Some?
    ensures ReviewMoves(s, ReviewStep(s, role, input).value, role)
  {
    hide ReviewMoves, ReviewStep;
    if s.reviewers.Get(role).RevEnter? || s.reviewers.Get(role).RevCall? {
      ReviewCallFlow(s, role, input);
    } else if s.reviewers.Get(role).RevCommit? {
      ReviewCommitFlow(s, role, input);
    } else {
      ReviewRecordFlow(s, role, input);
    }
  }

  lemma UserFlow(s: State, a: Action)
    requires !a.Work? && !a.Review? && UserStep(s, a).Some?
    ensures var s' := UserStep(s, a).value;
      && SameDocs(s, s') && NotDecided(s, s') && s'.inFlight == s.inFlight && s'.pc == s.pc
      && (Terminal(s.run.snapshot.status) ==> Terminal(s'.run.snapshot.status))
  {
  }
}
