/**
 What a run is billed (`record_usage` in `backend/run_manager.py` and its callers in
 `backend/workflow.py`): each node's tokens are what the provider's answers to its calls charged, added up
 over the calls whose usage the run recorded.
 */
module Charges {
  import opened Wrappers
  import opened RunTypes
  import opened RunManager
  import opened Workflow
  import opened StepFlow
  import opened StructuredCall
  import opened SpendingProofs

  // ----- calls and records, read off the actions of a run

  /** The provider is heard on behalf of `node`: a stream ends or breaks off, a structured call returns. */
  predicate Hears(s: State, a: Action, node: Node) {
    match node
    case Generator => s.pc.GenStream? && a.Work? && (a.input.StreamEnds? || a.input.StreamFails?)
    case Reviewer(role) =>
      a.Review? && a.role == role && s.reviewers.Get(role).RevCall? && a.reviewInput.Reviewed?
    case Aggregator => false
    case Optimizer => s.pc.OptCall? && a.Work? && a.input.Planned?
  }

  function InputOf(a: Action): Input
    requires a.Work? || a.Review?
  {
    if a.Work? then a.input else a.reviewInput
  }

  /** The run records the usage of the last call made for `node`. */
  predicate Records(s: State, a: Action, node: Node) {
    match node
    case Generator => a.Work? && (s.pc.GenUsage? || s.pc.GenFailUsage?)
    case Reviewer(role) => a.Review? && a.role == role && s.reviewers.Get(role).RevUsage?
    case Aggregator => false
    case Optimizer => a.Work? && s.pc.OptUsage?
  }

  /** What the provider's answers in an input charged, those that did not validate included. */
  ghost function ChargeOf(input: Input): Usage {
    match input
    case StreamEnds(_, usage) => usage
    case StreamFails(_, spent) => if spent.Some? then spent.value else NO_USAGE
    case Reviewed(first, second, repair) => Charged(Received(first, second, repair))
    case Planned(first, second, repair) => Charged(Received(first, second, repair))
    case _ => NO_USAGE
  }

  /** The last input heard for `node` in the first `k` steps. */
  function LastHeard(states: seq<State>, actions: seq<Action>, k: nat, node: Node): Option<Input>
    requires k <= |actions| < |states|
  {
    if k == 0 then None
    else if Hears(states[k - 1], actions[k - 1], node) then Some(InputOf(actions[k - 1]))
    else LastHeard(states, actions, k - 1, node)
  }

  /** What the records of the first `k` steps add up to for `node`. */
  ghost function Billed(states: seq<State>, actions: seq<Action>, k: nat, node: Node): Usage
    requires k <= |actions| < |states|
  {
    if k == 0 then NO_USAGE
    else
      var heard := LastHeard(states, actions, k - 1, node);
      AddUsage(Billed(states, actions, k - 1, node),
               if Records(states[k - 1], actions[k - 1], node) && heard.Some? then ChargeOf(heard.value) else NO_USAGE)
  }

  // ----- what the workflow holds is what it last heard

  /** The usage a node is about to record, or has recorded without its timing, is what was charged. */
  ghost predicate GeneratorHolds(pc: Pc, heard: Option<Input>) {
    match pc
    case GenFailTiming(_, _, spent) => heard == Some(StreamFails(true, spent))
    case GenFailUsage(_, _, used) => heard == Some(StreamFails(true, Some(used)))
    case GenCommit(_, _, content, used) => heard == Some(StreamEnds(content, used))
    case GenUsage(_, _, used) => heard.Some? && ChargeOf(heard.value) == used
    case GenTiming(_, _, used) => heard.Some? && ChargeOf(heard.value) == used
    case _ => true
  }

  ghost predicate ReviewerHolds(reviewer: RevPc, heard: Option<Input>) {
    match reviewer
    case RevCommit(_, review, used) => heard.Some? && ChargeOf(heard.value) == used
    case RevUsage(_, used) => heard.Some? && ChargeOf(heard.value) == used
    case RevTiming(_, used) => heard.Some? && ChargeOf(heard.value) == used
    case _ => true
  }

  ghost predicate OptimizerHolds(pc: Pc, heard: Option<Input>) {
    match pc
    case OptCommit(_, _, used) => heard.Some? && ChargeOf(heard.value) == used
    case OptUsage(_, used) => heard.Some? && ChargeOf(heard.value) == used
    case OptTiming(_, used) => heard.Some? && ChargeOf(heard.value) == used
    case _ => true
  }

  ghost predicate Holds(s: State, node: Node, heard: Option<Input>) {
    match node
    case Generator => GeneratorHolds(s.pc, heard)
    case Reviewer(role) => ReviewerHolds(s.reviewers.Get(role), heard)
    case Aggregator => true
    case Optimizer => OptimizerHolds(s.pc, heard)
  }

  function HeardNext(s: State, a: Action, node: Node, heard: Option<Input>): Option<Input> {
    if Hears(s, a, node) then Some(InputOf(a)) else heard
  }

  lemma ObtainedIsCharged<T(!new)>(first: Reply<T>, second: Reply<T>, repair: Reply<T>)
    ensures ValidatedStructured(first, second, repair).Obtained? ==>
      ValidatedStructured(first, second, repair).usage == Charged(Received(first, second, repair))
  {
    hide ValidatedStructured, Charged, Received;
    CallIsPaidFor(first, second, repair);
  }

  lemma StreamHolds(s: State, input: Input, heard: Option<Input>)
    requires StreamStep(s, input).Some? && GeneratorHolds(s.pc, heard)
    ensures GeneratorHolds(StreamStep(s, input).value.pc, HeardNext(s, Work(input), Generator, heard))
  {
    hide Spend, AddTimingTo, Emit, RecordUsage, RecordTiming;
  }

  lemma FinishHolds(s: State, input: Input, heard: Option<Input>)
    requires FinishStep(s, input).Some? && GeneratorHolds(s.pc, heard)
    ensures GeneratorHolds(FinishStep(s, input).value.pc, heard)
  {
    hide Emit, RecordUsage, RecordTiming, SetStage;
  }

  lemma ReviewHolds(s: State, role: Role, input: Input, heard: Option<Input>)
    requires ReviewStep(s, role, input).Some? && ReviewerHolds(s.reviewers.Get(role), heard)
    ensures ReviewerHolds(ReviewStep(s, role, input).value.reviewers.Get(role),
        HeardNext(s, Action.Review(role, input), Reviewer(role), heard))
  {
    hide Emit, RecordUsage, RecordTiming, ValidatedStructured, Charged, Received;
    if input.Reviewed? {
      ObtainedIsCharged(input.first, input.second, input.repair);
    }
  }

  lemma PlanHolds(s: State, input: Input, heard: Option<Input>)
    requires PlanStep(s, input).Some? && OptimizerHolds(s.pc, heard)
    ensures OptimizerHolds(PlanStep(s, input).value.pc, HeardNext(s, Work(input), Optimizer, heard))
  {
    hide Emit, RecordUsage, RecordTiming, SetStage, ValidatedStructured, Charged, Received;
    if input.Planned? {
      ObtainedIsCharged(input.planFirst, input.planSecond, input.planRepair);
    }
  }

  /** Where a step outside a node's own phase leads, the node holds nothing. */
  lemma OthersHoldNothing(s: State, input: Input)
    requires WorkStep(s, input).Some?
    ensures var pc, phase := WorkStep(s, input).value.pc, PhaseOf(s.pc);
      && (!phase.Streaming? && !phase.Finishing? ==> forall heard :: GeneratorHolds(pc, heard))
      && (!phase.Planning? ==> forall heard :: OptimizerHolds(pc, heard))
      && (WorkStep(s, input).value.reviewers == s.reviewers
          || WorkStep(s, input).value.reviewers == Trio(RevEnter, RevEnter, RevEnter))
  {
    hide EntryStep, StreamStep, FinishStep, JoinStep, AggregatorStep, RouteStep, ParkStep, PlanStep, CloseStep,
      Aggregated, EvaluateReviews, AllReviewed, DecisionFits, Terminal, NotDecided;
    match PhaseOf(s.pc)
    case Entering => EntryFlow(s, input);
    case Streaming => StreamFlow(s, input);
    case Finishing => FinishFlow(s, input);
    case InReview => JoinFlow(s, input);
    case Scoring => AggregatorFlow(s, input);
    case Routing => RouteFlow(s, input);
    case Parking => ParkFlow(s, input);
    case Planning => PlanFlow(s, input);
    case Closing => CloseFlow(s, input);
  }

  lemma WorkHolds(s: State, input: Input, node: Node, heard: Option<Input>)
    requires WorkStep(s, input).Some? && Holds(s, node, heard)
    ensures Holds(WorkStep(s, input).value, node, HeardNext(s, Work(input), node, heard))
  {
    hide EntryStep, StreamStep, FinishStep, JoinStep, AggregatorStep, RouteStep, ParkStep, PlanStep, CloseStep,
      GeneratorHolds, OptimizerHolds;
    OthersHoldNothing(s, input);
    if node.Generator? && PhaseOf(s.pc).Streaming? {
      StreamHolds(s, input, heard);
    } else if node.Generator? && PhaseOf(s.pc).Finishing? {
      FinishHolds(s, input, heard);
    } else if node.Optimizer? && PhaseOf(s.pc).Planning? {
      PlanHolds(s, input, heard);
    }
  }

  lemma StepHolds(s: State, a: Action, node: Node, heard: Option<Input>)
    requires Next(s, a).Some? && Holds(s, node, heard)
    ensures Holds(Next(s, a).value, node, HeardNext(s, a, node, heard))
  {
    hide WorkStep, ReviewStep, UserStep, GeneratorHolds, OptimizerHolds, ReviewerHolds;
    match a
    case Work(input) => WorkHolds(s, input, node, heard);
    case Review(role, input) =>
      ReviewFlow(s, role, input);
      if node == Reviewer(role) {
        ReviewHolds(s, role, input, heard);
      }
    case _ => UserFlow(s, a);
  }

  // ----- what a step bills

  /** A step adds to a node's tokens exactly when it records its usage, and adds what the node holds. */
  ghost predicate Bills(s: State, s': State, a: Action, node: Node, heard: Option<Input>) {
    s'.run.snapshot.spending.byNode.Get(node)
    == AddUsage(s.run.snapshot.spending.byNode.Get(node),
                if Records(s, a, node) && heard.Some? then ChargeOf(heard.value) else NO_USAGE)
  }

  lemma SameSpendingBills(s: State, s': State, a: Action, node: Node, heard: Option<Input>)
    requires s'.run.snapshot.spending.byNode == s.run.snapshot.spending.byNode && !Records(s, a, node)
    ensures Bills(s, s', a, node, heard)
  {
    hide Ledger.Get;
  }

  lemma SpendBills(s: State, s': State, a: Action, spender: Node, used: Usage, node: Node, heard: Option<Input>)
    requires s'.run.snapshot.spending == Spend(s.run.snapshot.spending, spender, used)
    requires Records(s, a, node) <==> node == spender
    requires node == spender ==> heard.Some? && ChargeOf(heard.value) == used
    ensures Bills(s, s', a, node, heard)
  {
    hide Ledger.Get, Spend, Records, ChargeOf;
    SpendFacts(s.run.snapshot.spending, spender, used);
  }

  lemma GeneratorBills(s: State, input: Input, node: Node, heard: Option<Input>)
    requires (PhaseOf(s.pc).Streaming? || PhaseOf(s.pc).Finishing?) && WorkStep(s, input).Some? && Holds(s, node, heard)
    ensures Bills(s, WorkStep(s, input).value, Work(input), node, heard)
  {
    hide StreamStep, FinishStep, Spend, Bills;
    var s', a := WorkStep(s, input).value, Work(input);
    if PhaseOf(s.pc).Streaming? {
      StreamSpends(s, input);
    } else {
      FinishSpends(s, input);
    }
    if s.pc.GenUsage? || s.pc.GenFailUsage? {
      SpendBills(s, s', a, Generator, s.pc.used, node, heard);
    } else {
      SameSpendingBills(s, s', a, node, heard);
    }
  }

  lemma OptimizerBills(s: State, input: Input, node: Node, heard: Option<Input>)
    requires PhaseOf(s.pc).Planning? && WorkStep(s, input).Some? && Holds(s, node, heard)
    ensures Bills(s, WorkStep(s, input).value, Work(input), node, heard)
  {
    hide PlanStep, Spend, Bills;
    var s', a := WorkStep(s, input).value, Work(input);
    PlanSpends(s, input);
    if s.pc.OptUsage? {
      SpendBills(s, s', a, Optimizer, s.pc.used, node, heard);
    } else {
      SameSpendingBills(s, s', a, node, heard);
    }
  }

  lemma ReviewerBills(s: State, role: Role, input: Input, node: Node, heard: Option<Input>)
    requires ReviewStep(s, role, input).Some? && Holds(s, node, heard)
    ensures Bills(s, ReviewStep(s, role, input).value, Action.Review(role, input), node, heard)
  {
    hide ReviewStep, Spend, Bills;
    var s', a := ReviewStep(s, role, input).value, Action.Review(role, input);
    ReviewSpends(s, role, input);
    if s.reviewers.Get(role).RevUsage? {
      SpendBills(s, s', a, Reviewer(role), s.reviewers.Get(role).used, node, heard);
    } else {
      SameSpendingBills(s, s', a, node, heard);
    }
  }

  lemma StepBills(s: State, a: Action, node: Node, heard: Option<Input>)
    requires Next(s, a).Some? && Holds(s, node, heard)
    ensures Bills(s, Next(s, a).value, a, node, heard)
  {
    hide WorkStep, ReviewStep, UserStep, Bills, Holds;
    match a
    case Work(input) =>
      match PhaseOf(s.pc) {
        case Streaming => GeneratorBills(s, input, node, heard);
        case Finishing => GeneratorBills(s, input, node, heard);
        case Planning => OptimizerBills(s, input, node, heard);
        case Scoring => ScoringSpendsNothing(s, input); SameSpendingBills(s, Next(s, a).value, a, node, heard);
        case Routing => ScoringSpendsNothing(s, input); SameSpendingBills(s, Next(s, a).value, a, node, heard);
        case Parking => ScoringSpendsNothing(s, input); SameSpendingBills(s, Next(s, a).value, a, node, heard);
        case _ => OthersSpendNothing(s, a); SameSpendingBills(s, Next(s, a).value, a, node, heard);
      }
    case Review(role, input) => ReviewerBills(s, role, input, node, heard);
    case _ =>
      OthersSpendNothing(s, a);
      SameSpendingBills(s, Next(s, a).value, a, node, heard);
  }

  // ----- over whole runs

  lemma {:induction false} ReachableHolds(
    states: seq<State>, actions: seq<Action>, maxIterations: nat, threshold: nat, k: nat, node: Node)
    requires IsRun(states, actions, maxIterations, threshold) && k <= |actions|
    ensures Holds(states[k], node, LastHeard(states, actions, k, node))
  {
    hide Next, Hears, GeneratorHolds, ReviewerHolds, OptimizerHolds;
    if k == 0 {
      NothingHeld(maxIterations, threshold, node);
    } else {
      ReachableHolds(states, actions, maxIterations, threshold, k - 1, node);
      assert Next(states[k - 1], actions[k - 1]) == Some(states[k]);
      HeardOnlyWithInput(states[k - 1], actions[k - 1], node);
      StepHolds(states[k - 1], actions[k - 1], node, LastHeard(states, actions, k - 1, node));
    }
  }

  lemma HeardOnlyWithInput(s: State, a: Action, node: Node)
    ensures Hears(s, a, node) ==> a.Work? || a.Review?
  {
  }

  lemma NothingHeld(maxIterations: nat, threshold: nat, node: Node)
    ensures Holds(Initial(maxIterations, threshold), node, None)
    ensures Initial(maxIterations, threshold).run.snapshot.spending.byNode.Get(node) == NO_USAGE
  {
    EmptyLedgerIsZero(node);
  }

  /**
   Every answer is paid for.  In every run a node's tokens are what the provider charged for the calls the
   run recorded: all answers of a call, the one that did not validate and its repair alike, and failed
   generation attempts that reported their spend.
   */
  lemma {:induction false} TokensAreCharged(
    states: seq<State>, actions: seq<Action>, maxIterations: nat, threshold: nat, k: nat, node: Node)
    requires IsRun(states, actions, maxIterations, threshold) && k <= |actions|
    ensures states[k].run.snapshot.spending.byNode.Get(node) == Billed(states, actions, k, node)
  {
    hide Next, Hears, Records, Ledger.Get, Holds, ChargeOf, LastHeard;
    if k == 0 {
      NothingHeld(maxIterations, threshold, node);
    } else {
      TokensAreCharged(states, actions, maxIterations, threshold, k - 1, node);
      ReachableHolds(states, actions, maxIterations, threshold, k - 1, node);
      assert Next(states[k - 1], actions[k - 1]) == Some(states[k]);
      StepBills(states[k - 1], actions[k - 1], node, LastHeard(states, actions, k - 1, node));
    }
  }
}
