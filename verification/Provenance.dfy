/**
 Where a run's documents, reviews and plans come from (`backend/workflow.py`): each is what a provider
 answered, unchanged, each plan reaches the next version, and a user's override waits for the next plan.
 */
module Provenance {
  import opened Wrappers
  import opened RunTypes
  import opened RunManager
  import opened Workflow
  import opened StepFlow
  import opened RunShape
  import opened EventMeaning
  import opened StructuredCall

  // ----- what the providers have said

  /** Documents with their usage, reviews, and plans. */
  datatype Heard = Heard(
    documents: set<(Text, Usage)>, reviews: set<RunTypes.Review>, plans: set<Plan>)

  /** The value a structured call's last reply holds. */
  function LastValue<T>(received: seq<Reply<T>>): Option<T> {
    if received == [] then None
    else
      var last := received[|received| - 1];
      if last.Answer? then last.parsed else None
  }

  function Holding<T>(value: Option<T>): set<T> { if value.Some? then {value.value} else {} }

  ghost function HeardIn(a: Action): Heard {
    match a
    case Work(input) =>
      (match input
       case StreamEnds(content, usage) => Heard({(content, usage)}, {}, {})
       case Planned(first, second, repair) => Heard({}, {}, Holding(LastValue(Received(first, second, repair))))
       case _ => Heard({}, {}, {}))
    case Review(_, input) =>
      (match input
       case Reviewed(first, second, repair) => Heard({}, Holding(LastValue(Received(first, second, repair))), {})
       case _ => Heard({}, {}, {}))
    case _ => Heard({}, {}, {})
  }

  function Both(x: Heard, y: Heard): Heard {
    Heard(x.documents + y.documents, x.reviews + y.reviews, x.plans + y.plans)
  }

  ghost function HeardSoFar(actions: seq<Action>): Heard {
    if actions == [] then Heard({}, {}, {})
    else Both(HeardSoFar(actions[..|actions| - 1]), HeardIn(actions[|actions| - 1]))
  }

  // ----- everything kept was said

  predicate PlanSaid(plan: Option<Plan>, h: Heard) { plan.Some? ==> plan.value in h.plans }

  predicate ReviewSaid(review: Option<RunTypes.Review>, h: Heard) { review.Some? ==> review.value in h.reviews }

  /** A version's text and usage, its plan and the reviews it was scored on. */
  predicate VersionSaid(v: Version, h: Heard) {
    && (v.content, v.usage) in h.documents && PlanSaid(v.plan, h)
    && (v.evaluation.Some? ==>
          && v.evaluation.value.tech in h.reviews && v.evaluation.value.ux in h.reviews
          && v.evaluation.value.biz in h.reviews)
  }

  ghost predicate DocsSaid(docs: Docs, h: Heard) {
    && (forall k :: 0 <= k < |docs.versions| ==> VersionSaid(docs.versions[k], h))
    && ReviewSaid(docs.reviews.tech, h) && ReviewSaid(docs.reviews.ux, h) && ReviewSaid(docs.reviews.biz, h)
    && PlanSaid(docs.pendingPlan, h)
  }

  /** What the workflow is about to store. */
  predicate PcSaid(pc: Pc, h: Heard) {
    match pc
    case GenCommit(_, _, content, used) => (content, used) in h.documents
    case OptCommit(_, plan, _) => plan in h.plans
    case _ => true
  }

  predicate ReviewerSaid(reviewer: RevPc, h: Heard) { reviewer.RevCommit? ==> reviewer.review in h.reviews }

  ghost predicate AllSaid(s: State, h: Heard) {
    && DocsSaid(s.run.snapshot.docs, h) && PcSaid(s.pc, h)
    && ReviewerSaid(s.reviewers.tech, h) && ReviewerSaid(s.reviewers.ux, h) && ReviewerSaid(s.reviewers.biz, h)
  }

  lemma MoreIsSaid(s: State, h: Heard, more: Heard)
    requires AllSaid(s, h)
    ensures AllSaid(s, Both(h, more))
  {
  }

  lemma ObtainedIsLast<T(!new)>(first: Reply<T>, second: Reply<T>, repair: Reply<T>)
    ensures ValidatedStructured(first, second, repair).Obtained? ==>
      LastValue(Received(first, second, repair)) == Some(ValidatedStructured(first, second, repair).value)
  {
    hide ValidatedStructured, Received, Charged;
    CallIsPaidFor(first, second, repair);
  }

  /** What a step adds to what the workflow is about to store was said in that very step. */
  lemma StreamSays(s: State, input: Input)
    requires StreamStep(s, input).Some?
    ensures PcSaid(StreamStep(s, input).value.pc, HeardIn(Work(input))) || StreamStep(s, input).value.pc == s.pc
  {
    hide Emit, RecordUsage, RecordTiming;
  }

  lemma PlanSays(s: State, input: Input)
    requires PlanStep(s, input).Some?
    ensures PcSaid(PlanStep(s, input).value.pc, HeardIn(Work(input)))
  {
    hide Emit, RecordUsage, RecordTiming, SetStage, ValidatedStructured, Received;
    if input.Planned? {
      ObtainedIsLast(input.planFirst, input.planSecond, input.planRepair);
    }
  }

  lemma ReviewSays(s: State, role: Role, input: Input)
    requires ReviewStep(s, role, input).Some?
    ensures ReviewerSaid(ReviewStep(s, role, input).value.reviewers.Get(role), HeardIn(Action.Review(role, input)))
  {
    hide Emit, RecordUsage, RecordTiming, ValidatedStructured, Received;
    if input.Reviewed? {
      ObtainedIsLast(input.first, input.second, input.repair);
    }
  }

  lemma ScoringIsSaid(docs: Docs, h: Heard)
    requires DocsSaid(docs, h) && AllReviewed(docs.reviews)
    ensures DocsSaid(Aggregated(docs, EvaluateReviews(docs.reviews)), h)
  {
  }

  lemma AppendingIsSaid(docs: Docs, v: Version, h: Heard)
    requires DocsSaid(docs, h) && VersionSaid(v, h)
    ensures DocsSaid(docs.(versions := docs.versions + [v], pendingPlan := None), h)
  {
  }

  lemma WorkSays(s: State, input: Input, h: Heard)
    requires WorkStep(s, input).Some? && ShapeInv(s) && AllSaid(s, h)
    ensures AllSaid(WorkStep(s, input).value, Both(h, HeardIn(Work(input))))
  {
    hide EntryStep, StreamStep, FinishStep, JoinStep, AggregatorStep, RouteStep, ParkStep, PlanStep, CloseStep,
      Aggregated, EvaluateReviews, AllReviewed, DecisionFits, Terminal, NotDecided, VersionsInOrder, VersionSaid,
      HeardIn, PastGate;
    MoreIsSaid(s, h, HeardIn(Work(input)));
    match PhaseOf(s.pc)
    case Entering => EntryFlow(s, input);
    case Streaming => StreamFlow(s, input); StreamSays(s, input);
    case Finishing => FinishSays(s, input, Both(h, HeardIn(Work(input))));
    case InReview => JoinFlow(s, input);
    case Scoring =>
      AggregatorFlow(s, input);
      if AllReviewed(s.run.snapshot.docs.reviews) {
        ScoringIsSaid(s.run.snapshot.docs, Both(h, HeardIn(Work(input))));
      }
    case Routing => RouteFlow(s, input);
    case Parking => ParkFlow(s, input);
    case Planning => PlanFlow(s, input); PlanSays(s, input);
    case Closing => CloseFlow(s, input);
  }

  lemma FinishSays(s: State, input: Input, h: Heard)
    requires FinishStep(s, input).Some? && PhaseOf(s.pc).Finishing? && ShapeInv(s) && AllSaid(s, h)
    ensures AllSaid(FinishStep(s, input).value, h)
  {
    hide FinishStep, NotDecided, VersionsInOrder, PastGate;
    FinishFlow(s, input);
    if s.pc.GenCommit? {
      AppendingIsSaid(
        s.run.snapshot.docs, Version(s.pc.g.iteration, s.pc.content, None, s.pc.g.plan, s.pc.used), h);
    }
  }

  lemma StepSays(s: State, a: Action, h: Heard)
    requires Next(s, a).Some? && ShapeInv(s) && AllSaid(s, h)
    ensures AllSaid(Next(s, a).value, Both(h, HeardIn(a)))
  {
    hide WorkStep, ReviewStep, UserStep, HeardIn, VersionSaid, NotDecided, ShapeInv;
    MoreIsSaid(s, h, HeardIn(a));
    match a
    case Work(input) => WorkSays(s, input, h);
    case Review(role, input) =>
      ReviewFlow(s, role, input);
      ReviewSays(s, role, input);
    case _ => UserFlow(s, a);
  }

  lemma {:induction false} ReachableIsSaid(
    states: seq<State>, actions: seq<Action>, maxIterations: nat, threshold: nat, k: nat)
    requires IsRun(states, actions, maxIterations, threshold) && k <= |actions|
    ensures AllSaid(states[k], HeardSoFar(actions[..k]))
    decreases k
  {
    hide Next, AllSaid, HeardIn;
    if k == 0 {
      NothingSaid(maxIterations, threshold);
    } else {
      ReachableIsSaid(states, actions, maxIterations, threshold, k - 1);
      ShapeOfReachable(states, actions, maxIterations, threshold, k - 1);
      assert Next(states[k - 1], actions[k - 1]) == Some(states[k]);
      StepSays(states[k - 1], actions[k - 1], HeardSoFar(actions[..k - 1]));
      assert actions[..k][..k - 1] == actions[..k - 1];
    }
  }

  lemma NothingSaid(maxIterations: nat, threshold: nat)
    ensures AllSaid(Initial(maxIterations, threshold), HeardSoFar([]))
  {
  }

  lemma ShapeOfReachable(states: seq<State>, actions: seq<Action>, maxIterations: nat, threshold: nat, k: nat)
    requires IsRun(states, actions, maxIterations, threshold) && k < |states|
    ensures ShapeInv(states[k])
  {
    hide Next, Initial, ShapeInv, StatusSafety.StatusInv, ReviewInv, ScoreInv, GateInv;
    ReachableIsGood(states, actions, maxIterations, threshold, k);
  }

  /**
   Nothing is invented.  In every run each version's text and usage are a document a provider streamed, and
   each review, scored or not, and each plan are the value a provider's last reply held.
   */
  lemma NothingIsInvented(states: seq<State>, actions: seq<Action>, maxIterations: nat, threshold: nat, k: nat)
    requires IsRun(states, actions, maxIterations, threshold) && k <= |actions|
    ensures DocsSaid(states[k].run.snapshot.docs, HeardSoFar(actions[..k]))
  {
    hide Next, Initial, DocsSaid, HeardSoFar;
    ReachableIsSaid(states, actions, maxIterations, threshold, k);
  }

  // ----- plans reach versions

  /** The plans a log tells of, in order. */
  function PlansTold(log: seq<Event>): seq<Plan> {
    if log == [] then []
    else
      var payload := log[|log| - 1].payload;
      PlansTold(log[..|log| - 1]) + (if payload.RevisionPlanned? then [payload.plan] else [])
  }

  /** The first version had no plan, each later one the plan told after the one before, and one may be pending. */
  ghost predicate PlansFit(docs: Docs, told: seq<Plan>) {
    && |told| == docs.iteration - 1 && |docs.versions| <= docs.iteration
    && (forall k :: 0 <= k < |docs.versions| ==>
          docs.versions[k].plan == if k == 0 then None else Some(told[k - 1]))
    && docs.pendingPlan
        == (if |docs.versions| == docs.iteration || docs.iteration == 1 then None else Some(told[docs.iteration - 2]))
  }

  ghost predicate PlansHandedOn(s: State) {
    PlansFit(s.run.snapshot.docs, PlansTold(s.run.log))
  }

  lemma TellingKeepsPlans(s: State, s': State, payload: Payload, told: seq<Plan>)
    requires Matches(s, s', payload) && ShapeInv(s) && DraftInv(s) && PlansFit(s.run.snapshot.docs, told)
    ensures PlansFit(s'.run.snapshot.docs, told + (if payload.RevisionPlanned? then [payload.plan] else []))
  {
    hide VersionsInOrder, LocalsFit, PastGate, EvaluateReviews, AllReviewed, OutcomeOf, GatePassed, ScoresPayload,
      Drafting, Drafted;
    var docs, docs' := s.run.snapshot.docs, s'.run.snapshot.docs;
    if payload.PrdGenerated? {
      assert forall k :: 0 <= k < |docs.versions| ==> docs'.versions[k] == docs'.versions[..|docs.versions|][k];
    }
    assert told + [] == told;
  }

  lemma StepHandsPlansOn(s: State, s': State)
    requires Tellable(s) && Explained(s, s') && PlansHandedOn(s)
    ensures PlansHandedOn(s')
  {
    hide Good, RoundInv, Matches, PlansFit, Numbered, DraftInv;
    ShapeOf(s);
    if Tells(s, s') {
      var n := |s.run.log|;
      TellingKeepsPlans(s, s', s'.run.log[n].payload, PlansTold(s.run.log));
    } else {
      QuietKeepsPlans(s, s', PlansTold(s.run.log));
    }
  }

  lemma QuietKeepsPlans(s: State, s': State, told: seq<Plan>)
    requires Quiet(s, s') && PlansFit(s.run.snapshot.docs, told)
    ensures PlansFit(s'.run.snapshot.docs, told)
  {
  }

  lemma ShapeOf(s: State)
    requires Good(s)
    ensures ShapeInv(s)
  {
    hide ShapeInv, StatusSafety.StatusInv, ReviewInv, ScoreInv, GateInv;
  }

  /**
   Plans reach versions.  In every run the first version was generated without a plan and each later one
   with the plan announced after the version before it; a plan not used yet is pending.
   */
  lemma {:induction false} PlansReachVersions(
    states: seq<State>, actions: seq<Action>, maxIterations: nat, threshold: nat, k: nat)
    requires IsRun(states, actions, maxIterations, threshold) && k < |states|
    ensures PlansFit(states[k].run.snapshot.docs, PlansTold(states[k].run.log))
  {
    hide Next, Tellable, Explained, PlansFit;
    if k == 0 {
      NoPlansYet(maxIterations, threshold);
    } else {
      PlansReachVersions(states, actions, maxIterations, threshold, k - 1);
      ReachableIsTellable(states, actions, maxIterations, threshold, k - 1);
      ReachableIsTellable(states, actions, maxIterations, threshold, k);
      StepHandsPlansOn(states[k - 1], states[k]);
    }
  }

  lemma NoPlansYet(maxIterations: nat, threshold: nat)
    ensures PlansHandedOn(Initial(maxIterations, threshold))
  {
  }

  // ----- a user's override

  predicate StoresPlan(s: State, s': State, a: Action) { a.Work? && s.pc.OptCommit? && s'.pc.OptUsage? }

  /** The last override a resume brought, until a plan has been stored. */
  function OverrideWaiting(states: seq<State>, actions: seq<Action>, k: nat): Option<Text>
    requires k <= |actions| < |states|
  {
    if k == 0 then None
    else
      var s, a := states[k - 1], actions[k - 1];
      if a.UserResume? && s.run.snapshot.status.Paused? then a.userOverride
      else if StoresPlan(s, states[k], a) then None
      else OverrideWaiting(states, actions, k - 1)
  }

  lemma DraftingKeepsOverride(s: State, input: Input)
    requires WorkStep(s, input).Some? && (PhaseOf(s.pc).Entering? || PhaseOf(s.pc).Streaming?)
    ensures WorkStep(s, input).value.run.snapshot.pendingOverride == s.run.snapshot.pendingOverride
  {
    hide CanTransition, Spend, AddTimingTo, FinishStep, JoinStep, AggregatorStep, RouteStep, ParkStep, PlanStep,
      CloseStep;
  }

  lemma FinishingKeepsOverride(s: State, input: Input)
    requires WorkStep(s, input).Some? && (PhaseOf(s.pc).Finishing? || PhaseOf(s.pc).InReview?)
    ensures WorkStep(s, input).value.run.snapshot.pendingOverride == s.run.snapshot.pendingOverride
  {
    hide CanTransition, Spend, AddTimingTo, EntryStep, StreamStep, AggregatorStep, RouteStep, ParkStep, PlanStep,
      CloseStep;
  }

  lemma ScoringKeepsOverride(s: State, input: Input)
    requires WorkStep(s, input).Some? && (PhaseOf(s.pc).Scoring? || PhaseOf(s.pc).Routing?)
    ensures WorkStep(s, input).value.run.snapshot.pendingOverride == s.run.snapshot.pendingOverride
  {
    hide CanTransition, Aggregated, EvaluateReviews, AllReviewed, OutcomeOf, GatePassed, ScoresPayload, Terminal,
      EntryStep, StreamStep, FinishStep, JoinStep, PlanStep, ParkStep, CloseStep;
  }

  lemma ParkingKeepsOverride(s: State, input: Input)
    requires WorkStep(s, input).Some? && (PhaseOf(s.pc).Parking? || PhaseOf(s.pc).Closing?)
    ensures WorkStep(s, input).value.run.snapshot.pendingOverride == s.run.snapshot.pendingOverride
  {
    hide CanTransition, Terminal, EntryStep, StreamStep, FinishStep, JoinStep, PlanStep, AggregatorStep, RouteStep;
  }

  lemma PlanUsesOverride(s: State, input: Input)
    requires PlanStep(s, input).Some?
    ensures var s' := PlanStep(s, input).value;
      s'.run.snapshot.pendingOverride
          == if StoresPlan(s, s', Work(input)) then None else s.run.snapshot.pendingOverride
  {
    hide CanTransition, Spend, AddTimingTo, ValidatedStructured;
  }

  lemma OthersKeepOverride(s: State, a: Action)
    requires !a.Work? && Next(s, a).Some?
    ensures Next(s, a).value.run.snapshot.pendingOverride
        == if a.UserResume? && s.run.snapshot.status.Paused? then a.userOverride else s.run.snapshot.pendingOverride
  {
    hide CanTransition, Spend, AddTimingTo, ValidatedStructured, Terminal;
  }

  lemma StepKeepsOverride(s: State, a: Action)
    requires Next(s, a).Some?
    ensures var s' := Next(s, a).value;
      s'.run.snapshot.pendingOverride
          == if a.UserResume? && s.run.snapshot.status.Paused? then a.userOverride
             else if StoresPlan(s, s', a) then None else s.run.snapshot.pendingOverride
  {
    hide WorkStep, ReviewStep, UserStep;
    if !a.Work? {
      OthersKeepOverride(s, a);
    } else if PhaseOf(s.pc).Planning? {
      PlanningIsPlan(s, a.input);
      PlanUsesOverride(s, a.input);
    } else if PhaseOf(s.pc).Scoring? || PhaseOf(s.pc).Routing? {
      ScoringKeepsOverride(s, a.input);
    } else if PhaseOf(s.pc).Parking? || PhaseOf(s.pc).Closing? {
      ParkingKeepsOverride(s, a.input);
    } else if PhaseOf(s.pc).Finishing? || PhaseOf(s.pc).InReview? {
      FinishingKeepsOverride(s, a.input);
    } else {
      DraftingKeepsOverride(s, a.input);
    }
  }

  lemma PlanningIsPlan(s: State, input: Input)
    requires PhaseOf(s.pc).Planning?
    ensures WorkStep(s, input) == PlanStep(s, input)
  {
    hide PlanStep;
  }

  /**
   An override waits for a plan.  In every run the override on record is the one the last resume brought,
   whatever else has happened since, until a plan is stored; that uses it up.
   */
  lemma {:induction false} OverrideWaitsForPlan(
    states: seq<State>, actions: seq<Action>, maxIterations: nat, threshold: nat, k: nat)
    requires IsRun(states, actions, maxIterations, threshold) && k <= |actions|
    ensures states[k].run.snapshot.pendingOverride == OverrideWaiting(states, actions, k)
  {
    hide Next;
    if k > 0 {
      OverrideWaitsForPlan(states, actions, maxIterations, threshold, k - 1);
      assert Next(states[k - 1], actions[k - 1]) == Some(states[k]);
      StepKeepsOverride(states[k - 1], actions[k - 1]);
    }
  }
}
