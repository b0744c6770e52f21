/**
 Token conservation (`record_usage` and `record_timing` in `backend/run_manager.py`, and the order in
 which `backend/workflow.py` calls them).
 */
module SpendingProofs {
  import opened Wrappers
  import opened RunTypes
  import opened RunManager
  import opened Workflow
  import opened StepFlow

  function UsageOf(timing: Timing, node: Node): Usage { if timing.node == node then timing.usage else NO_USAGE }

  /** The tokens of one node over all its recorded calls, failed attempts included. */
  function TimingTotal(timings: seq<Timing>, node: Node): Usage {
    if timings == [] then NO_USAGE
    else AddUsage(TimingTotal(timings[..|timings| - 1], node), UsageOf(timings[|timings| - 1], node))
  }

  /** Recorded as usage, its timing still to come. */
  function UsageFirst(pc: Pc, reviewers: Trio<RevPc>, node: Node): Usage {
    match node
    case Generator => if pc.GenTiming? then pc.used else NO_USAGE
    case Reviewer(role) => if reviewers.Get(role).RevTiming? then reviewers.Get(role).used else NO_USAGE
    case Aggregator => NO_USAGE
    case Optimizer => if pc.OptTiming? then pc.used else NO_USAGE
  }

  /** Recorded as a timing, its usage still to come: only a failed attempt that reported its spend. */
  function TimingFirst(pc: Pc, node: Node): Usage {
    if node.Generator? && pc.GenFailUsage? then pc.used else NO_USAGE
  }

  /** The node is between its two recording commits. */
  predicate Between(s: State, node: Node) {
    match node
    case Generator => s.pc.GenTiming? || s.pc.GenFailUsage?
    case Reviewer(role) => s.reviewers.Get(role).RevTiming?
    case Aggregator => false
    case Optimizer => s.pc.OptTiming?
  }

  predicate Resting(reviewer: RevPc) { reviewer.RevIdle? || reviewer.RevDone? }

  ghost predicate Balanced(spending: Spending, pc: Pc, reviewers: Trio<RevPc>) {
    && spending.total == spending.byNode.Sum()
    && forall node ::
         AddUsage(spending.byNode.Get(node), TimingFirst(pc, node))
         == AddUsage(TimingTotal(spending.timings, node), UsageFirst(pc, reviewers, node))
  }

  ghost predicate SpendInv(s: State) {
    && Balanced(s.run.snapshot.spending, s.pc, s.reviewers)
    && (!s.pc.Reviews? && !PhaseOf(s.pc).Closing? ==>
          Resting(s.reviewers.tech) && Resting(s.reviewers.ux) && Resting(s.reviewers.biz))
  }

  // ----- the two records

  lemma TimingTotalSnoc(timings: seq<Timing>, timing: Timing, node: Node)
    ensures TimingTotal(timings + [timing], node) == AddUsage(TimingTotal(timings, node), UsageOf(timing, node))
  {
    assert (timings + [timing])[..|timings|] == timings;
  }

  lemma SpendFacts(spending: Spending, node: Node, usage: Usage)
    ensures var after := Spend(spending, node, usage);
      && after.timings == spending.timings
      && (spending.total == spending.byNode.Sum() ==> after.total == after.byNode.Sum())
      && forall other :: after.byNode.Get(other)
           == (if other == node then AddUsage(spending.byNode.Get(node), usage) else spending.byNode.Get(other))
  {
    LedgerAddSums(spending.byNode, node, usage);
  }

  /** Usage recorded and owed a timing, or its owed timing settled. */
  lemma SpendBalances(
    spending: Spending, pc: Pc, reviewers: Trio<RevPc>, node: Node, usage: Usage, pc': Pc, reviewers': Trio<RevPc>)
    requires Balanced(spending, pc, reviewers)
    requires forall other :: other != node ==>
      TimingFirst(pc', other) == TimingFirst(pc, other)
          && UsageFirst(pc', reviewers', other) == UsageFirst(pc, reviewers, other)
    requires
      || (TimingFirst(pc, node) == TimingFirst(pc', node) == NO_USAGE
          && UsageFirst(pc, reviewers, node) == NO_USAGE && UsageFirst(pc', reviewers', node) == usage)
      || (TimingFirst(pc, node) == usage && TimingFirst(pc', node) == NO_USAGE
          && UsageFirst(pc, reviewers, node) == UsageFirst(pc', reviewers', node) == NO_USAGE)
    ensures Balanced(Spend(spending, node, usage), pc', reviewers')
  {
    hide Spend, TimingFirst, UsageFirst, TimingTotal;
    SpendFacts(spending, node, usage);
    var after := Spend(spending, node, usage);
    forall other
      ensures AddUsage(after.byNode.Get(other), TimingFirst(pc', other))
           == AddUsage(TimingTotal(after.timings, other), UsageFirst(pc', reviewers', other))
    {
      assert AddUsage(spending.byNode.Get(other), TimingFirst(pc, other))
          == AddUsage(TimingTotal(spending.timings, other), UsageFirst(pc, reviewers, other));
    }
  }

  lemma TimingBalances(
    spending: Spending, pc: Pc, reviewers: Trio<RevPc>, timing: Timing, pc': Pc, reviewers': Trio<RevPc>)
    requires Balanced(spending, pc, reviewers)
    requires forall other :: other != timing.node ==>
      TimingFirst(pc', other) == TimingFirst(pc, other)
          && UsageFirst(pc', reviewers', other) == UsageFirst(pc, reviewers, other)
    requires
      || (UsageFirst(pc, reviewers, timing.node) == UsageFirst(pc', reviewers', timing.node) == NO_USAGE
          && TimingFirst(pc, timing.node) == NO_USAGE && TimingFirst(pc', timing.node) == timing.usage)
      || (UsageFirst(pc, reviewers, timing.node) == timing.usage && UsageFirst(pc', reviewers', timing.node) == NO_USAGE
          && TimingFirst(pc, timing.node) == TimingFirst(pc', timing.node) == NO_USAGE)
    ensures Balanced(AddTimingTo(spending, timing), pc', reviewers')
  {
    hide TimingFirst, UsageFirst, TimingTotal;
    var after := AddTimingTo(spending, timing);
    forall other
      ensures AddUsage(after.byNode.Get(other), TimingFirst(pc', other))
           == AddUsage(TimingTotal(after.timings, other), UsageFirst(pc', reviewers', other))
    {
      TimingTotalSnoc(spending.timings, timing, other);
      assert AddUsage(spending.byNode.Get(other), TimingFirst(pc, other))
          == AddUsage(TimingTotal(spending.timings, other), UsageFirst(pc, reviewers, other));
    }
  }

  // ----- what each step spends

  lemma StreamSpends(s: State, input: Input)
    requires StreamStep(s, input).Some?
    ensures var s', spending := StreamStep(s, input).value, s.run.snapshot.spending;
      match s.pc
      case GenStream(_, _) =>
        s'.run.snapshot.spending == spending && !s'.pc.GenFailUsage? && !s'.pc.GenTiming? && !s'.pc.OptTiming?
      case GenFailTiming(g, attempt, spent) =>
        && s'.run.snapshot.spending
           == AddTimingTo(spending,
               Timing(Generator, g.iteration, attempt, false, if spent.Some? then spent.value else NO_USAGE))
        && (if spent.Some? then s'.pc == GenFailUsage(g, attempt, spent.value) else s'.pc.GenBegin? || s'.pc.Ending?)
      case GenFailUsage(_, _, used) =>
        s'.run.snapshot.spending == Spend(spending, Generator, used) && (s'.pc.GenBegin? || s'.pc.Ending?)
      case _ => true
  {
  }

  lemma FinishSpends(s: State, input: Input)
    requires FinishStep(s, input).Some?
    ensures var s', spending := FinishStep(s, input).value, s.run.snapshot.spending;
      match s.pc
      case GenUsage(g, attempt, used) =>
        s'.run.snapshot.spending == Spend(spending, Generator, used) && s'.pc == GenTiming(g, attempt, used)
      case GenTiming(g, attempt, used) =>
        s'.run.snapshot.spending == AddTimingTo(spending, Timing(Generator, g.iteration, attempt, true, used))
      case _ => s'.run.snapshot.spending == spending
  {
    hide CanTransition, Spend, AddTimingTo;
  }

  lemma PlanSpends(s: State, input: Input)
    requires PlanStep(s, input).Some?
    ensures var s', spending := PlanStep(s, input).value, s.run.snapshot.spending;
      match s.pc
      case OptUsage(iteration, used) =>
        s'.run.snapshot.spending == Spend(spending, Optimizer, used) && s'.pc == OptTiming(iteration, used)
      case OptTiming(iteration, used) =>
        s'.run.snapshot.spending == AddTimingTo(spending, Timing(Optimizer, iteration, 1, true, used))
      case _ => s'.run.snapshot.spending == spending
  {
    hide CanTransition, ValidatedStructured, Spend, AddTimingTo;
  }

  lemma ReviewSpends(s: State, role: Role, input: Input)
    requires ReviewStep(s, role, input).Some?
    ensures var s', spending := ReviewStep(s, role, input).value, s.run.snapshot.spending;
      match s.reviewers.Get(role)
      case RevUsage(iteration, used) =>
        && s'.run.snapshot.spending == Spend(spending, Reviewer(role), used)
        && s'.reviewers.Get(role) == RevTiming(iteration, used)
      case RevTiming(iteration, used) =>
        s'.run.snapshot.spending == AddTimingTo(spending, Timing(Reviewer(role), iteration, 1, true, used))
      case _ => s'.run.snapshot.spending == spending
  {
    hide ValidatedStructured, Spend, AddTimingTo;
  }

  lemma OthersSpendNothing(s: State, a: Action)
    requires Next(s, a).Some? && !a.Review?
    requires a.Work? ==> PhaseOf(s.pc).Entering? || PhaseOf(s.pc).InReview? || PhaseOf(s.pc).Closing?
    ensures Next(s, a).value.run.snapshot.spending == s.run.snapshot.spending
  {
    hide CanTransition, StreamStep, FinishStep, AggregatorStep, RouteStep, ParkStep, PlanStep, ReviewStep;
  }

  lemma ScoringSpendsNothing(s: State, input: Input)
    requires WorkStep(s, input).Some? && (PhaseOf(s.pc).Scoring? || PhaseOf(s.pc).Routing? || PhaseOf(s.pc).Parking?)
    ensures WorkStep(s, input).value.run.snapshot.spending == s.run.snapshot.spending
  {
    hide CanTransition, StreamStep, FinishStep, EntryStep, PlanStep, ReviewStep, JoinStep, CloseStep, Aggregated,
      EvaluateReviews, ScoresPayload, OutcomeOf, GatePassed, AllReviewed;
  }

  // ----- every step keeps the balance

  /** Nothing recorded, and nobody enters or leaves the gap between two records. */
  lemma SameBalance(s: State, s': State)
    requires SpendInv(s) && s'.run.snapshot.spending == s.run.snapshot.spending
    requires forall node :: TimingFirst(s'.pc, node) == TimingFirst(s.pc, node)
    requires forall node :: UsageFirst(s'.pc, s'.reviewers, node) == UsageFirst(s.pc, s.reviewers, node)
    ensures Balanced(s'.run.snapshot.spending, s'.pc, s'.reviewers)
  {
    hide TimingFirst, UsageFirst, TimingTotal;
    forall node
      ensures AddUsage(s'.run.snapshot.spending.byNode.Get(node), TimingFirst(s'.pc, node))
           == AddUsage(TimingTotal(s'.run.snapshot.spending.timings, node), UsageFirst(s'.pc, s'.reviewers, node))
    {
      assert AddUsage(s.run.snapshot.spending.byNode.Get(node), TimingFirst(s.pc, node))
          == AddUsage(TimingTotal(s.run.snapshot.spending.timings, node), UsageFirst(s.pc, s.reviewers, node));
    }
  }

  lemma StreamKeepsBalance(s: State, input: Input)
    requires SpendInv(s) && PhaseOf(s.pc).Streaming? && StreamStep(s, input).Some?
    ensures SpendInv(StreamStep(s, input).value)
  {
    hide StreamStep, Spend, AddTimingTo, Balanced, AddUsage;
    var s', spending := StreamStep(s, input).value, s.run.snapshot.spending;
    StreamFlow(s, input);
    StreamSpends(s, input);
    match s.pc
    case GenFailTiming(g, attempt, spent) =>
      var usage := if spent.Some? then spent.value else NO_USAGE;
      TimingBalances(spending, s.pc, s.reviewers, Timing(Generator, g.iteration, attempt, false, usage), s'.pc,
          s'.reviewers);
    case GenFailUsage(_, _, used) => SpendBalances(spending, s.pc, s.reviewers, Generator, used, s'.pc, s'.reviewers);
    case _ => SameBalance(s, s');
  }

  lemma FinishKeepsBalance(s: State, input: Input)
    requires SpendInv(s) && PhaseOf(s.pc).Finishing? && FinishStep(s, input).Some?
    ensures SpendInv(FinishStep(s, input).value)
  {
    hide FinishStep, Spend, AddTimingTo, Balanced, AddUsage;
    var s', spending := FinishStep(s, input).value, s.run.snapshot.spending;
    FinishFlow(s, input);
    FinishSpends(s, input);
    match s.pc
    case GenUsage(_, _, used) => SpendBalances(spending, s.pc, s.reviewers, Generator, used, s'.pc, s'.reviewers);
    case GenTiming(g, attempt, used) =>
      TimingBalances(spending, s.pc, s.reviewers, Timing(Generator, g.iteration, attempt, true, used), s'.pc,
          s'.reviewers);
    case _ => SameBalance(s, s');
  }

  lemma PlanKeepsBalance(s: State, input: Input)
    requires SpendInv(s) && PhaseOf(s.pc).Planning? && PlanStep(s, input).Some?
    ensures SpendInv(PlanStep(s, input).value)
  {
    hide PlanStep, Spend, AddTimingTo, Balanced, AddUsage;
    var s', spending := PlanStep(s, input).value, s.run.snapshot.spending;
    PlanFlow(s, input);
    PlanSpends(s, input);
    match s.pc
    case OptUsage(_, used) => SpendBalances(spending, s.pc, s.reviewers, Optimizer, used, s'.pc, s'.reviewers);
    case OptTiming(iteration, used) =>
      TimingBalances(spending, s.pc, s.reviewers, Timing(Optimizer, iteration, 1, true, used), s'.pc, s'.reviewers);
    case _ => SameBalance(s, s');
  }

  lemma ReviewKeepsBalance(s: State, role: Role, input: Input)
    requires SpendInv(s) && ReviewStep(s, role, input).Some?
    ensures SpendInv(ReviewStep(s, role, input).value)
  {
    hide ReviewStep, Spend, AddTimingTo, Balanced, AddUsage;
    var s', spending := ReviewStep(s, role, input).value, s.run.snapshot.spending;
    ReviewFlow(s, role, input);
    ReviewSpends(s, role, input);
    match s.reviewers.Get(role)
    case RevUsage(_, used) => SpendBalances(spending, s.pc, s.reviewers, Reviewer(role), used, s'.pc, s'.reviewers);
    case RevTiming(iteration, used) =>
      TimingBalances(spending, s.pc, s.reviewers, Timing(Reviewer(role), iteration, 1, true, used), s'.pc,
          s'.reviewers);
    case _ => SameBalance(s, s');
  }

  lemma QuietKeepsBalance(s: State, a: Action)
    requires SpendInv(s) && Next(s, a).Some? && !a.Review?
    requires a.Work? ==> !PhaseOf(s.pc).Streaming? && !PhaseOf(s.pc).Finishing? && !PhaseOf(s.pc).Planning?
    ensures SpendInv(Next(s, a).value)
  {
    hide EntryStep, JoinStep, AggregatorStep, RouteStep, ParkStep, CloseStep, UserStep, Balanced, AddUsage,
      Aggregated, EvaluateReviews, AllReviewed, DecisionFits, Terminal;
    var s' := Next(s, a).value;
    match a
    case Work(input) =>
      match PhaseOf(s.pc) {
        case Entering => EntryFlow(s, input); OthersSpendNothing(s, a);
        case InReview => JoinFlow(s, input); OthersSpendNothing(s, a);
        case Closing => CloseFlow(s, input); OthersSpendNothing(s, a);
        case Scoring => AggregatorFlow(s, input); ScoringSpendsNothing(s, input);
        case Routing => RouteFlow(s, input); ScoringSpendsNothing(s, input);
        case Parking => ParkFlow(s, input); ScoringSpendsNothing(s, input);
        case _ =>
      }
      SameBalance(s, s');
    case _ =>
      UserFlow(s, a);
      OthersSpendNothing(s, a);
      SameBalance(s, s');
  }

  lemma StepKeepsBalance(s: State, a: Action)
    requires SpendInv(s) && Next(s, a).Some?
    ensures SpendInv(Next(s, a).value)
  {
    hide SpendInv, StreamStep, FinishStep, PlanStep, ReviewStep;
    if a.Review? {
      ReviewKeepsBalance(s, a.role, a.reviewInput);
    } else if a.Work? && PhaseOf(s.pc).Streaming? {
      StreamKeepsBalance(s, a.input);
    } else if a.Work? && PhaseOf(s.pc).Finishing? {
      FinishKeepsBalance(s, a.input);
    } else if a.Work? && PhaseOf(s.pc).Planning? {
      PlanKeepsBalance(s, a.input);
    } else {
      QuietKeepsBalance(s, a);
    }
  }

  lemma EmptyLedgerIsZero(node: Node)
    ensures EMPTY_LEDGER.Get(node) == NO_USAGE
  {
  }

  lemma IdleOwesNothing(node: Node)
    ensures TimingFirst(Start, node) == NO_USAGE && UsageFirst(Start, Trio(RevIdle, RevIdle, RevIdle), node) == NO_USAGE
  {
  }

  lemma NoTimingsNoTokens(node: Node)
    ensures TimingTotal([], node) == NO_USAGE
  {
  }

  lemma EmptyLedgerSums()
    ensures EMPTY_LEDGER.Sum() == NO_USAGE
  {
  }

  lemma NothingSpentBalances()
    ensures Balanced(Spending(NO_USAGE, EMPTY_LEDGER, []), Start, Trio(RevIdle, RevIdle, RevIdle))
  {
    hide Ledger.Get, Ledger.Sum, UsageFirst, TimingFirst, TimingTotal;
    EmptyLedgerSums();
    forall node
      ensures AddUsage(EMPTY_LEDGER.Get(node), TimingFirst(Start, node))
           == AddUsage(TimingTotal([], node), UsageFirst(Start, Trio(RevIdle, RevIdle, RevIdle), node))
    {
      EmptyLedgerIsZero(node);
      IdleOwesNothing(node);
      NoTimingsNoTokens(node);
    }
  }

  lemma InitialBalances(maxIterations: nat, threshold: nat)
    ensures SpendInv(Initial(maxIterations, threshold))
  {
    hide Balanced;
    NothingSpentBalances();
  }

  lemma {:induction false} ReachableBalances(
    states: seq<State>, actions: seq<Action>, maxIterations: nat, threshold: nat, k: nat)
    requires IsRun(states, actions, maxIterations, threshold) && k < |states|
    ensures SpendInv(states[k])
  {
    hide SpendInv, Next, Initial;
    InitialBalances(maxIterations, threshold);
    if k > 0 {
      ReachableBalances(states, actions, maxIterations, threshold, k - 1);
      assert Next(states[k - 1], actions[k - 1]) == Some(states[k]);
      StepKeepsBalance(states[k - 1], actions[k - 1]);
    }
  }

  /**
   Token conservation.  Under parallel reviewers, retries and repairs the total always equals the sum
   over the nodes, and a node not between its two recording commits has spent exactly what its timings
   say, failed attempts included.
   */
  lemma TokensAreConserved(states: seq<State>, actions: seq<Action>, maxIterations: nat, threshold: nat, k: nat)
    requires IsRun(states, actions, maxIterations, threshold) && k < |states|
    ensures var spending := states[k].run.snapshot.spending;
      && spending.total == spending.byNode.Sum()
      && forall node :: !Between(states[k], node) ==> spending.byNode.Get(node) == TimingTotal(spending.timings, node)
  {
    hide Next, Initial, TimingTotal;
    ReachableBalances(states, actions, maxIterations, threshold, k);
    var s := states[k];
    var spending := s.run.snapshot.spending;
    forall node | !Between(s, node) ensures spending.byNode.Get(node) == TimingTotal(spending.timings, node) {
      assert AddUsage(spending.byNode.Get(node), TimingFirst(s.pc, node))
          == AddUsage(TimingTotal(spending.timings, node), UsageFirst(s.pc, s.reviewers, node));
      assert TimingFirst(s.pc, node) == NO_USAGE && UsageFirst(s.pc, s.reviewers, node) == NO_USAGE;
    }
  }
}
