/**
 Concrete runs of the protocol.  They lead to the two kinds of snapshot that do not show the server's
 state, and to a parked workflow that is not shown as paused, so none of these conditions can be dropped.
 */
module Rehearsal {
  import opened Wrappers
  import opened RunTypes
  import opened RunManager
  import opened Workflow
  import opened RunShape
  import opened Reducer
  import opened EventMeaning
  import opened Simulation

  // ----- reaching a state

  function Play(s: State, actions: seq<Action>): Option<State> {
    if actions == [] then Some(s)
    else
      var before := Play(s, actions[..|actions| - 1]);
      if before.None? then None else Next(before.value, actions[|actions| - 1])
  }

  ghost predicate Reaches(s: State, t: State) { exists actions :: Play(s, actions) == Some(t) }

  lemma ReachesItself(s: State)
    ensures Reaches(s, s)
  {
    assert Play(s, []) == Some(s);
  }

  /** One more step from a state reached. */
  lemma Acts(o: State, s: State, a: Action) returns (t: State)
    requires Reaches(o, s) && Next(s, a).Some?
    ensures t == Next(s, a).value && Reaches(o, t)
  {
    hide Next;
    var actions :| Play(o, actions) == Some(s);
    assert (actions + [a])[..|actions|] == actions;
    assert Play(o, actions + [a]) == Next(s, a);
    t := Next(s, a).value;
  }

  /** What the initial state reaches is the end of a run. */
  lemma {:induction false} PlayIsRun(
    actions: seq<Action>, maxIterations: nat, threshold: nat) returns (states: seq<State>)
    requires 1 <= maxIterations && Play(Initial(maxIterations, threshold), actions).Some?
    ensures IsRun(states, actions, maxIterations, threshold)
    ensures Some(states[|actions|]) == Play(Initial(maxIterations, threshold), actions)
    decreases |actions|
  {
    hide Next, Initial;
    if actions == [] {
      states := [Initial(maxIterations, threshold)];
    } else {
      var n := |actions| - 1;
      var front := PlayIsRun(actions[..n], maxIterations, threshold);
      states := front + [Next(front[n], actions[n]).value];
      forall k | 0 <= k < |actions| ensures Next(states[k], actions[k]) == Some(states[k + 1]) {
        if k < n {
          assert Next(front[k], actions[..n][k]) == Some(front[k + 1]);
        }
      }
    }
  }

  // ----- the stretches of a run

  /** Not cancelled, in `status`, with these documents. */
  ghost predicate At(s: State, pc: Pc, status: Status, docs: Docs) {
    s.pc == pc && !s.run.cancelSignal && s.run.snapshot.status == status && s.run.snapshot.docs == docs
  }

  /** From the generator's entry to an open stream. */
  lemma Opens(o: State, s: State) returns (t: State)
    requires Reaches(o, s) && s.pc == GenEnter && !s.run.cancelSignal
    requires s.run.snapshot.status.Queued? || s.run.snapshot.status.Generating?
    ensures var docs := s.run.snapshot.docs;
      && Reaches(o, t) && t.inFlight
      && At(t, GenStream(GenLocals(docs.iteration, docs.pendingPlan), 1), Generating,
          docs.(currentPrd := [], currentPrdAttempt := 1))
  {
    hide Reaches, StreamStep, FinishStep, JoinStep, AggregatorStep, RouteStep, ParkStep, PlanStep, CloseStep,
      ReviewStep, UserStep;
    var entered := Acts(o, s, Work(Go));
    var marked := Acts(o, entered, Work(Go));
    t := Acts(o, marked, Work(Go));
  }

  /** A document arrives and is stored. */
  lemma Drafts(o: State, s: State, g: GenLocals, content: Text) returns (t: State)
    requires Reaches(o, s) && s.pc == GenStream(g, 1) && !s.run.cancelSignal && s.run.snapshot.status.Generating?
    requires content != []
    ensures var docs := s.run.snapshot.docs;
      && Reaches(o, t) && t.reviewers == s.reviewers
      && At(t, GenUsage(g, 1, NO_USAGE), Generating, docs.(
           versions := docs.versions + [Version(g.iteration, content, None, g.plan, NO_USAGE)],
           currentPrd := content, currentPrdAttempt := 1, pendingPlan := None))
  {
    hide Reaches, EntryStep, JoinStep, AggregatorStep, RouteStep, ParkStep, PlanStep, CloseStep, ReviewStep, UserStep;
    var ended := Acts(o, s, Work(StreamEnds(content, NO_USAGE)));
    t := Acts(o, ended, Work(Go));
  }

  /** Its spend is recorded and the reviewers start. */
  lemma Hands(o: State, s: State, g: GenLocals) returns (t: State)
    requires Reaches(o, s) && s.pc == GenUsage(g, 1, NO_USAGE) && !s.run.cancelSignal
    requires s.run.snapshot.status.Generating?
    ensures Reaches(o, t) && t.reviewers == Trio(RevEnter, RevEnter, RevEnter)
    ensures At(t, Reviews, RunTypes.Reviewing, s.run.snapshot.docs)
  {
    hide Reaches, Next;
    var recorded := Records(o, s, g);
    t := StartsReviews(o, recorded);
  }

  lemma Records(o: State, s: State, g: GenLocals) returns (t: State)
    requires Reaches(o, s) && s.pc == GenUsage(g, 1, NO_USAGE) && !s.run.cancelSignal
    ensures Reaches(o, t) && At(t, GenStage, s.run.snapshot.status, s.run.snapshot.docs)
  {
    hide Reaches, EntryStep, StreamStep, JoinStep, AggregatorStep, RouteStep, ParkStep, PlanStep, CloseStep,
      ReviewStep, UserStep, FinishGeneration, Spend, AddTimingTo, SetStage;
    var counted := Acts(o, s, Work(Go));
    t := Acts(o, counted, Work(Go));
  }

  lemma StartsReviews(o: State, s: State) returns (t: State)
    requires Reaches(o, s) && s.pc == GenStage && !s.run.cancelSignal && s.run.snapshot.status.Generating?
    ensures Reaches(o, t) && t.reviewers == Trio(RevEnter, RevEnter, RevEnter)
    ensures At(t, Reviews, RunTypes.Reviewing, s.run.snapshot.docs)
  {
    hide Reaches, EntryStep, StreamStep, JoinStep, AggregatorStep, RouteStep, ParkStep, PlanStep, CloseStep,
      ReviewStep, UserStep, FinishGeneration, RecordUsage, RecordTiming;
    t := Acts(o, s, Work(Go));
  }

  /** One reviewer's call, up to its review being stored. */
  lemma Answers(o: State, s: State, review: RunTypes.Review) returns (t: State)
    requires Reaches(o, s) && s.pc.Reviews? && !s.run.cancelSignal && s.reviewers.Get(review.role).RevEnter?
    ensures var docs := s.run.snapshot.docs;
      && Reaches(o, t) && t.reviewers == s.reviewers.Set(review.role, RevUsage(docs.iteration, NO_USAGE))
      && At(t, Reviews, s.run.snapshot.status, docs.(reviews := docs.reviews.Set(review.role, Some(review))))
  {
    hide Reaches, EntryStep, StreamStep, FinishStep, JoinStep, AggregatorStep, RouteStep, ParkStep, PlanStep,
      CloseStep, UserStep, RecordUsage, RecordTiming;
    var entered := Acts(o, s, Action.Review(review.role, Go));
    var answer := Reviewed(Answer(Some(review), NO_USAGE), RetryableError, RetryableError);
    var answered := Acts(o, entered, Action.Review(review.role, answer));
    t := Acts(o, answered, Action.Review(review.role, Go));
  }

  /** Its two records. */
  lemma Signs(o: State, s: State, role: Role, iteration: nat) returns (t: State)
    requires Reaches(o, s) && s.pc.Reviews? && !s.run.cancelSignal
    requires s.reviewers.Get(role) == RevUsage(iteration, NO_USAGE)
    ensures Reaches(o, t) && t.reviewers == s.reviewers.Set(role, RevDone)
    ensures At(t, Reviews, s.run.snapshot.status, s.run.snapshot.docs)
  {
    hide Reaches, EntryStep, StreamStep, FinishStep, JoinStep, AggregatorStep, RouteStep, ParkStep, PlanStep,
      CloseStep, UserStep, FinishReview, Spend, AddTimingTo;
    var counted := Acts(o, s, Action.Review(role, Go));
    t := Acts(o, counted, Action.Review(role, Go));
  }

  /** The reviews are in and the version is scored. */
  lemma Scores(o: State, s: State) returns (t: State)
    requires Reaches(o, s) && s.pc.Reviews? && !s.run.cancelSignal && s.run.snapshot.status == RunTypes.Reviewing
    requires s.reviewers == Trio(RevDone, RevDone, RevDone) && AllReviewed(s.run.snapshot.docs.reviews)
    ensures var docs := s.run.snapshot.docs;
      var e := EvaluateReviews(docs.reviews);
      Reaches(o, t) && At(t, AggDecide(e, RunTypes.Aggregating), RunTypes.Aggregating, Aggregated(docs, e))
  {
    hide Reaches, EntryStep, StreamStep, FinishStep, RouteStep, ParkStep, PlanStep, CloseStep, ReviewStep, UserStep,
      Aggregated, EvaluateReviews, ScoresPayload;
    var joined := Acts(o, s, Work(Go));
    var entered := Acts(o, joined, Work(Go));
    var marked := Acts(o, entered, Work(Go));
    t := Acts(o, marked, Work(Go));
  }

  /** The gate holds the version and the run goes on. */
  lemma Holds(o: State, s: State, e: Evaluation) returns (t: State)
    requires Reaches(o, s) && s.pc == AggDecide(e, RunTypes.Aggregating) && !s.run.cancelSignal
    requires s.run.snapshot.status == RunTypes.Aggregating && !GatePassed(e, s.run.snapshot.docs.threshold)
    requires s.run.snapshot.docs.iteration < s.run.snapshot.docs.maxIterations
    ensures Reaches(o, t) && At(t, OptEnter, Optimizing, s.run.snapshot.docs)
  {
    hide Reaches, EntryStep, StreamStep, FinishStep, JoinStep, AggregatorStep, ParkStep, PlanStep, CloseStep,
      ReviewStep, UserStep, GatePassed, OutcomeOf, EnterPaused;
    var held := Acts(o, s, Work(Go));
    t := Acts(o, held, Work(Go));
  }

  lemma Enters(o: State, s: State) returns (t: State)
    requires Reaches(o, s) && s.pc == OptEnter && !s.run.cancelSignal && s.run.snapshot.status.Optimizing?
    ensures Reaches(o, t) && At(t, OptMark, Optimizing, s.run.snapshot.docs)
  {
    hide Reaches, EntryStep, StreamStep, FinishStep, JoinStep, AggregatorStep, RouteStep, PlanStep, CloseStep,
      ReviewStep, UserStep, EnterPaused, WakeStep;
    var entered := Acts(o, s, Work(Go));
    t := Acts(o, entered, Work(Go));
  }

  /** A plan is made and stored. */
  lemma Plans(o: State, s: State, plan: Plan) returns (t: State)
    requires Reaches(o, s) && s.pc.OptMark? && !s.run.cancelSignal && s.run.snapshot.status.Optimizing?
    requires s.run.snapshot.docs.latestEvaluation.Some?
    ensures var docs := s.run.snapshot.docs;
      && Reaches(o, t)
      && At(t, OptUsage(docs.iteration, NO_USAGE), Optimizing,
            docs.(pendingPlan := Some(plan), iteration := docs.iteration + 1, reviews := NO_REVIEWS))
  {
    hide Reaches, EntryStep, StreamStep, FinishStep, JoinStep, AggregatorStep, RouteStep, ParkStep, CloseStep,
      ReviewStep, UserStep, RecordUsage, RecordTiming, SetStage;
    var marked := Acts(o, s, Work(Go));
    var answered := Acts(o, marked, Work(Planned(Answer(Some(plan), NO_USAGE), RetryableError, RetryableError)));
    t := Acts(o, answered, Work(Go));
  }

  /** Its spend is recorded and the next generation entered. */
  lemma Turns(o: State, s: State, iteration: nat) returns (t: State)
    requires Reaches(o, s) && s.pc == OptUsage(iteration, NO_USAGE) && !s.run.cancelSignal
    requires s.run.snapshot.status.Optimizing?
    ensures Reaches(o, t) && At(t, GenEnter, Generating, s.run.snapshot.docs)
  {
    hide Reaches, Next;
    var recorded := RecordsPlan(o, s, iteration);
    t := Returns(o, recorded);
  }

  lemma RecordsPlan(o: State, s: State, iteration: nat) returns (t: State)
    requires Reaches(o, s) && s.pc == OptUsage(iteration, NO_USAGE) && !s.run.cancelSignal
    ensures Reaches(o, t) && At(t, OptStageNext, s.run.snapshot.status, s.run.snapshot.docs)
  {
    hide Reaches, EntryStep, StreamStep, FinishStep, JoinStep, AggregatorStep, RouteStep, ParkStep, CloseStep,
      ReviewStep, UserStep, FinishOptimizer, ValidatedStructured, Spend, AddTimingTo, SetStage;
    var counted := Acts(o, s, Work(Go));
    t := Acts(o, counted, Work(Go));
  }

  lemma Returns(o: State, s: State) returns (t: State)
    requires Reaches(o, s) && s.pc == OptStageNext && !s.run.cancelSignal && s.run.snapshot.status.Optimizing?
    ensures Reaches(o, t) && At(t, GenEnter, Generating, s.run.snapshot.docs)
  {
    hide Reaches, EntryStep, StreamStep, FinishStep, JoinStep, AggregatorStep, RouteStep, ParkStep, CloseStep,
      ReviewStep, UserStep, FinishOptimizer, ValidatedStructured, RecordUsage, RecordTiming;
    t := Acts(o, s, Work(Go));
  }

  // ----- the three runs

  const TEXT: Text := [1]

  lemma Starts(o: State) returns (t: State)
    requires Reaches(o, o) && o == Initial(2, 850)
    ensures Reaches(o, t) && At(t, GenEnter, Queued, o.run.snapshot.docs)
  {
    hide Reaches;
    t := Acts(o, o, Work(Go));
  }

  /** The first document's stream, just opened. */
  lemma FirstStream() returns (t: State)
    ensures Reaches(Initial(2, 850), t) && t.run.snapshot.status.Generating?
  {
    hide Reaches, Next;
    var o := Initial(2, 850);
    ReachesItself(o);
    var entered := Starts(o);
    t := Opens(o, entered);
  }

  /** The first document, in review. */
  lemma FirstDraft() returns (t: State)
    ensures var docs := Initial(2, 850).run.snapshot.docs;
      && Reaches(Initial(2, 850), t) && t.reviewers == Trio(RevEnter, RevEnter, RevEnter)
      && At(t, Reviews, RunTypes.Reviewing,
          docs.(versions := [Version(1, TEXT, None, None, NO_USAGE)], currentPrd := TEXT))
  {
    hide Reaches, Next;
    var o := Initial(2, 850);
    ReachesItself(o);
    var entered := Starts(o);
    var streaming := Opens(o, entered);
    var stored := Drafts(o, streaming, GenLocals(1, None), TEXT);
    t := Hands(o, stored, GenLocals(1, None));
  }

  /** All three reviewers, one after the other. */
  lemma AllAnswer(
    o: State, s: State, tech: RunTypes.Review, ux: RunTypes.Review, biz: RunTypes.Review) returns (t: State)
    requires Reaches(o, s) && s.pc.Reviews? && !s.run.cancelSignal && s.reviewers == Trio(RevEnter, RevEnter, RevEnter)
    requires tech.role.Tech? && ux.role.Ux? && biz.role.Biz?
    ensures Reaches(o, t) && t.reviewers == Trio(RevDone, RevDone, RevDone)
    ensures At(t, Reviews, s.run.snapshot.status,
        s.run.snapshot.docs.(reviews := Trio(Some(tech), Some(ux), Some(biz))))
  {
    hide Reaches, Next;
    var iteration := s.run.snapshot.docs.iteration;
    var answered := Answers(o, s, tech);
    var signed := Signs(o, answered, Tech, iteration);
    answered := Answers(o, signed, ux);
    signed := Signs(o, answered, Ux, iteration);
    answered := Answers(o, signed, biz);
    t := Signs(o, answered, Biz, iteration);
  }

  /** The first round's evaluation when the technical reviewer finds `findings`. */
  function FirstEvaluation(findings: seq<Finding>): Evaluation {
    Evaluate(RunTypes.Review(Tech, 70, findings), RunTypes.Review(Ux, 70, []), RunTypes.Review(Biz, 70, []))
  }

  /** The first round, scored at 70 against a threshold of 85. */
  lemma FirstRound(findings: seq<Finding>) returns (t: State)
    ensures var docs, e := t.run.snapshot.docs, FirstEvaluation(findings);
      && Reaches(Initial(2, 850), t) && At(t, AggDecide(e, RunTypes.Aggregating), RunTypes.Aggregating, docs)
      && !t.inFlight
      && docs.latestEvaluation == Some(e) && docs.versions == [Version(1, TEXT, Some(e), None, NO_USAGE)]
      && docs.iteration == 1 && docs.maxIterations == 2 && docs.threshold == 850
  {
    hide Reaches, Next, Evaluate;
    var o := Initial(2, 850);
    var drafted := FirstDraft();
    var reviewed := AllAnswer(o, drafted, RunTypes.Review(Tech, 70, findings), RunTypes.Review(Ux, 70, []),
        RunTypes.Review(Biz, 70, []));
    t := Scores(o, reviewed);
    ReachedIsTellable(t);
  }

  /** A reached state is the end of a run, and so keeps every invariant. */
  lemma ReachedIsTellable(t: State)
    requires Reaches(Initial(2, 850), t)
    ensures Tellable(t) && (t.pc.AggDecide? ==> !t.inFlight)
    ensures exists states: seq<State>, actions: seq<Action> :: IsRun(states, actions, 2, 850) && states[|actions|] == t
  {
    hide Next, Initial, Good, RoundInv, Numbered, LastContent;
    var actions :| Play(Initial(2, 850), actions) == Some(t);
    var states := PlayIsRun(actions, 2, 850);
    ReachableIsTellable(states, actions, 2, 850, |actions|);
    assert DraftInv(t);
  }

  /** Some run shows a snapshot whose counts fall short of the server's: a blank must-fix finding was scored. */
  lemma BlankFindingIsReachable()
    ensures exists states: seq<State>, actions: seq<Action> ::
      && IsRun(states, actions, 2, 850) && !Collides(states[|actions|])
      && LoadSnapshot(states[|actions|].run.snapshot) != Ideal(states[|actions|])
  {
    hide Reaches, Next, IsRun, Initial, Tellable, LoadSnapshot, Ideal;
    var findings := [Finding(MustFix, true)];
    var t := FirstRound(findings);
    ReachedIsTellable(t);
    var e := FirstEvaluation(findings);
    assert e.combined[0] == findings[0];
    assert !NoBlank(e.combined);
    assert Scored(t.run.snapshot.docs.versions[0]);
    LoadShowsIdeal(t);
  }

  /** Some run shows a snapshot without its draft in flight: the second document starts like the first. */
  lemma CollisionIsReachable()
    ensures exists states: seq<State>, actions: seq<Action> ::
      && IsRun(states, actions, 2, 850) && NoBlankFindings(states[|actions|].run.snapshot.docs.versions)
      && LoadSnapshot(states[|actions|].run.snapshot) != Ideal(states[|actions|])
  {
    hide Reaches, Next, IsRun, Initial, Tellable, LoadSnapshot, Ideal, Collides, NoBlankFindings;
    var t := SecondDraft();
    ReachedIsTellable(t);
    LoadShowsIdeal(t);
  }

  /** The second document, streamed as far as the first one's text. */
  lemma SecondDraft() returns (t: State)
    ensures Reaches(Initial(2, 850), t) && Collides(t) && NoBlankFindings(t.run.snapshot.docs.versions)
  {
    hide Reaches, Next, Initial, Evaluate, GatePassed;
    var o, e := Initial(2, 850), FirstEvaluation([]);
    var scored := FirstRound([]);
    FirstFallsShort();
    var held := Holds(o, scored, e);
    var entered := Enters(o, held);
    var planned := Plans(o, entered, Plan(1, TEXT));
    var turned := Turns(o, planned, 1);
    var streaming := Opens(o, turned);
    t := Repeats(o, streaming);
  }

  /** Some run is parked, with neither signal set, and no longer shown as paused: a cancel was just asked for. */
  lemma ParkedIsNotAlwaysPaused()
    ensures exists states: seq<State>, actions: seq<Action> ::
        IsRun(states, actions, 2, 850) && ParkedUnpaused(states[|actions|])
  {
    hide Reaches, Next, IsRun, Initial, Tellable, Evaluate, ParkedUnpaused;
    var o := Initial(2, 850);
    var scored := FirstRound([]);
    FirstFallsShort();
    var held := Holds(o, scored, FirstEvaluation([]));
    var parked := Parks(o, held);
    var t := Cancels(o, parked);
    ReachedIsTellable(t);
  }

  predicate ParkedUnpaused(s: State) {
    s.pc.OptWait? && !s.run.resumeSignal && !s.run.cancelSignal && s.run.snapshot.status.CancelRequested?
  }

  lemma AsksForPause(o: State, s: State) returns (t: State)
    requires Reaches(o, s) && s.pc == OptEnter && !s.run.cancelSignal && s.run.snapshot.status.Optimizing?
    ensures Reaches(o, t) && At(t, OptEnter, PauseRequested, s.run.snapshot.docs)
  {
    hide Reaches, WorkStep, ReviewStep, Resume, RequestCancel, FinalizeCancel;
    t := Acts(o, s, UserPause);
  }

  lemma Parks(o: State, s: State) returns (t: State)
    requires Reaches(o, s) && s.pc == OptEnter && !s.run.cancelSignal && s.run.snapshot.status.Optimizing?
    ensures Reaches(o, t) && At(t, OptWait, Paused, s.run.snapshot.docs) && !t.run.resumeSignal
  {
    hide Reaches, EntryStep, StreamStep, FinishStep, JoinStep, AggregatorStep, RouteStep, PlanStep, CloseStep,
      ReviewStep, UserStep, SetStage, WakeStep;
    var asked := AsksForPause(o, s);
    var entered := Acts(o, asked, Work(Go));
    t := Acts(o, entered, Work(Go));
  }

  lemma Cancels(o: State, s: State) returns (t: State)
    requires Reaches(o, s) && s.pc == OptWait && s.run.snapshot.status.Paused? && !s.run.cancelSignal
    requires !s.run.resumeSignal
    ensures Reaches(o, t) && ParkedUnpaused(t)
  {
    hide Reaches;
    t := Acts(o, s, UserCancelAsks);
  }

  lemma FirstFallsShort()
    ensures var e := FirstEvaluation([]); !GatePassed(e, 850) && e.combined == []
  {
  }

  lemma Repeats(o: State, s: State) returns (t: State)
    requires Reaches(o, s) && s.pc.GenStream? && !s.run.cancelSignal && s.inFlight
    requires s.run.snapshot.docs.currentPrd == []
    ensures Reaches(o, t) && t.inFlight && t.run.snapshot.docs == s.run.snapshot.docs.(currentPrd := TEXT)
  {
    hide Reaches;
    t := Acts(o, s, Work(Delta(TEXT)));
    assert [] + TEXT == TEXT;
  }
}
