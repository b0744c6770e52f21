/**
 The shapes a run is made of (`backend/schemas.py`), its status table (`backend/state_machine.py`)
 and the token sum (`backend/telemetry.py`).
 */
module RunTypes {
  import opened Wrappers

  // ----- status table

  datatype Status =
    | Queued | Generating | Reviewing | Aggregating | Optimizing | PauseRequested | Paused
    | CancelRequested | Completed | MaxIterationsReached | Cancelled | Failed

  predicate Terminal(status: Status) {
    status.Completed? || status.MaxIterationsReached? || status.Cancelled? || status.Failed?
  }

  /** The allowed transitions, one row per current status. */
  predicate CanTransition(current: Status, target: Status) {
    match current
    case Queued => target.Generating? || target.CancelRequested? || target.Failed?
    case Generating => target.Reviewing? || target.PauseRequested? || target.CancelRequested? || target.Failed?
    case Reviewing => target.Aggregating? || target.PauseRequested? || target.CancelRequested? || target.Failed?
    case Aggregating =>
      || target.Completed? || target.MaxIterationsReached? || target.Optimizing?
      || target.PauseRequested? || target.Paused? || target.CancelRequested? || target.Failed?
    case Optimizing => target.Generating? || target.PauseRequested? || target.CancelRequested? || target.Failed?
    case PauseRequested =>
      || target.Paused? || target.Completed? || target.MaxIterationsReached? || target.CancelRequested?
      || target.Failed?
    case Paused => target.Optimizing? || target.CancelRequested? || target.Failed?
    case CancelRequested => target.Cancelled? || target.Failed?
    case _ => false
  }

  /** Exactly the terminal statuses have no way out, and every other one can still fail. */
  lemma TerminalHasNoWayOut(status: Status)
    ensures Terminal(status) <==> forall target :: !CanTransition(status, target)
    ensures !Terminal(status) <==> CanTransition(status, Failed)
  {
    assert !Terminal(status) ==> CanTransition(status, Failed);
  }

  /** A status in which the workflow is at work. */
  predicate Working(status: Status) {
    status.Generating? || status.Reviewing? || status.Aggregating? || status.Optimizing?
  }

  /** The table read by target: from where each status can be entered. */
  lemma EnteredFrom(current: Status)
    ensures !CanTransition(current, Queued)
    ensures CanTransition(current, Generating) <==> current.Queued? || current.Optimizing?
    ensures CanTransition(current, Reviewing) <==> current.Generating?
    ensures CanTransition(current, Aggregating) <==> current.Reviewing?
    ensures CanTransition(current, Optimizing) <==> current.Aggregating? || current.Paused?
    ensures CanTransition(current, PauseRequested) <==> Working(current)
    ensures CanTransition(current, Paused) <==> current.Aggregating? || current.PauseRequested?
    ensures CanTransition(current, Completed) <==> current.Aggregating? || current.PauseRequested?
    ensures CanTransition(current, MaxIterationsReached) <==> current.Aggregating? || current.PauseRequested?
    ensures CanTransition(current, CancelRequested) <==> !Terminal(current) && !current.CancelRequested?
    ensures CanTransition(current, Cancelled) <==> current.CancelRequested?
    ensures CanTransition(current, Failed) <==> !Terminal(current)
  {
  }

  // ----- reviews and scores

  /** A document's text, as opaque code units. */
  type Text = seq<int>

  datatype Role = Tech | Ux | Biz

  /** One value for each of the three roles. */
  datatype Trio<T> = Trio(tech: T, ux: T, biz: T) {
    function Get(role: Role): T {
      match role case Tech => tech case Ux => ux case Biz => biz
    }
    function Set(role: Role, value: T): Trio<T> {
      match role
      case Tech => this.(tech := value)
      case Ux => this.(ux := value)
      case Biz => this.(biz := value)
    }
  }

  datatype Severity = MustFix | ShouldFix | Advisory

  /** `blank`: the issue and the recommendation are both nothing but white space. */
  datatype Finding = Finding(severity: Severity, blank: bool)

  datatype Review = Review(role: Role, score: nat, feedback: seq<Finding>)

  /** Scores of the whole are integer tenths. */
  datatype Evaluation = Evaluation(tech: Review, ux: Review, biz: Review, overall: nat, combined: seq<Finding>)

  datatype SeverityCounts = SeverityCounts(mustFix: nat, shouldFix: nat, advisory: nat)

  function CountSeverity(feedback: seq<Finding>, severity: Severity): nat {
    if feedback == [] then 0
    else (if feedback[0].severity == severity then 1 else 0) + CountSeverity(feedback[1..], severity)
  }

  function CountsOf(feedback: seq<Finding>): SeverityCounts {
    SeverityCounts(CountSeverity(feedback, MustFix), CountSeverity(feedback, ShouldFix),
        CountSeverity(feedback, Advisory))
  }

  lemma {:induction false} CountLast(feedback: seq<Finding>, item: Finding, severity: Severity)
    ensures CountSeverity(feedback + [item], severity)
            == CountSeverity(feedback, severity) + (if item.severity == severity then 1 else 0)
  {
    if feedback == [] {
      assert feedback + [item] == [item];
    } else {
      CountLast(feedback[1..], item, severity);
      assert (feedback + [item])[1..] == feedback[1..] + [item];
    }
  }

  /** `severity_counts`: one pass over the findings, three accumulators. */
  method TallySeverities(feedback: seq<Finding>) returns (counts: SeverityCounts)
    ensures counts == CountsOf(feedback)
    ensures counts.mustFix + counts.shouldFix + counts.advisory == |feedback|
  {
    var mustFix, shouldFix, advisory := 0, 0, 0;
    for i := 0 to |feedback|
      invariant SeverityCounts(mustFix, shouldFix, advisory) == CountsOf(feedback[..i])
      invariant mustFix + shouldFix + advisory == i
    {
      assert feedback[..i + 1] == feedback[..i] + [feedback[i]];
      CountLast(feedback[..i], feedback[i], MustFix);
      CountLast(feedback[..i], feedback[i], ShouldFix);
      CountLast(feedback[..i], feedback[i], Advisory);
      match feedback[i].severity
      case MustFix => mustFix := mustFix + 1;
      case ShouldFix => shouldFix := shouldFix + 1;
      case Advisory => advisory := advisory + 1;
    }
    assert feedback[..|feedback|] == feedback;
    counts := SeverityCounts(mustFix, shouldFix, advisory);
  }

  /** The mean of three scores in tenths, rounded to the nearest; a third is never a tie. */
  function Overall(tech: nat, ux: nat, biz: nat): (tenths: nat)
    ensures -1 <= 3 * tenths - 10 * (tech + ux + biz) <= 1
  {
    var sum := 10 * (tech + ux + biz);
    sum / 3 + (if sum % 3 == 2 then 1 else 0)
  }

  function Evaluate(tech: Review, ux: Review, biz: Review): Evaluation {
    Evaluation(tech, ux, biz, Overall(tech.score, ux.score, biz.score), tech.feedback + ux.feedback + biz.feedback)
  }

  function MustFixCount(e: Evaluation): nat { CountSeverity(e.combined, MustFix) }

  // ----- usage

  /** Token counts; the validated total is always their sum. */
  datatype Usage = Usage(input: nat, output: nat) {
    function Total(): nat { input + output }
  }

  const NO_USAGE := Usage(0, 0)

  function AddUsage(left: Usage, right: Usage): Usage {
    Usage(left.input + right.input, left.output + right.output)
  }

  /** `add_usage` is a commutative monoid, and totals add up under it. */
  lemma UsageIsMonoid(x: Usage, y: Usage, z: Usage)
    ensures AddUsage(x, y) == AddUsage(y, x) && AddUsage(x, NO_USAGE) == x
    ensures AddUsage(AddUsage(x, y), z) == AddUsage(x, AddUsage(y, z))
    ensures AddUsage(x, y).Total() == x.Total() + y.Total()
  {
  }

  datatype Node = Generator | Reviewer(role: Role) | Aggregator | Optimizer

  datatype Timing = Timing(node: Node, version: nat, attempt: nat, succeeded: bool, usage: Usage)

  /** Tokens per node; a node that has recorded nothing stands at zero. */
  datatype Ledger = Ledger(generator: Usage, reviewers: Trio<Usage>, aggregator: Usage, optimizer: Usage) {
    function Get(node: Node): Usage {
      match node
      case Generator => generator
      case Reviewer(role) => reviewers.Get(role)
      case Aggregator => aggregator
      case Optimizer => optimizer
    }
    function Add(node: Node, usage: Usage): Ledger {
      match node
      case Generator => this.(generator := AddUsage(generator, usage))
      case Reviewer(role) => this.(reviewers := reviewers.Set(role, AddUsage(reviewers.Get(role), usage)))
      case Aggregator => this.(aggregator := AddUsage(aggregator, usage))
      case Optimizer => this.(optimizer := AddUsage(optimizer, usage))
    }
    /** The sum over all nodes. */
    function Sum(): Usage {
      AddUsage(AddUsage(AddUsage(generator, optimizer), aggregator),
               AddUsage(AddUsage(reviewers.tech, reviewers.ux), reviewers.biz))
    }
  }

  const EMPTY_LEDGER := Ledger(NO_USAGE, Trio(NO_USAGE, NO_USAGE, NO_USAGE), NO_USAGE, NO_USAGE)

  lemma LedgerAddSums(ledger: Ledger, node: Node, usage: Usage)
    ensures ledger.Add(node, usage).Sum() == AddUsage(ledger.Sum(), usage)
    ensures forall other ::
      ledger.Add(node, usage).Get(other)
          == (if other == node then AddUsage(ledger.Get(node), usage) else ledger.Get(other))
  {
  }

  // ----- snapshots

  datatype Plan = Plan(iteration: nat, objective: Text)

  datatype Version = Version(
    number: nat, content: Text, evaluation: Option<Evaluation>, plan: Option<Plan>, usage: Usage)

  /** The part of a snapshot the documents, their reviews and their scores live in. */
  datatype Docs = Docs(
    iteration: nat,
    maxIterations: nat,
    threshold: nat,
    versions: seq<Version>,
    currentPrd: Text,
    currentPrdAttempt: nat,
    latestEvaluation: Option<Evaluation>,
    bestVersion: Option<nat>,
    bestScore: Option<nat>,
    reviews: Trio<Option<Review>>,
    pendingPlan: Option<Plan>)

  /** What a run has spent: in total, per node, and call by call. */
  datatype Spending = Spending(total: Usage, byNode: Ledger, timings: seq<Timing>)

  datatype Snapshot = Snapshot(
    status: Status,
    docs: Docs,
    spending: Spending,
    pendingOverride: Option<Text>,
    latestSequence: nat)

  const NO_REVIEWS: Trio<Option<Review>> := Trio(None, None, None)

  /** The two halves of the quality gate. */
  predicate ThresholdMet(e: Evaluation, threshold: nat) { e.overall >= threshold }

  predicate GatePassed(e: Evaluation, threshold: nat) { ThresholdMet(e, threshold) && MustFixCount(e) == 0 }

  // ----- events

  datatype Outcome = Outcome(
    finalVersion: nat, bestVersion: Option<nat>, bestScore: Option<nat>, threshold: nat,
    completedIterations: nat, maxIterations: nat, thresholdMet: bool, gatePassed: bool, counts: SeverityCounts)

  datatype Payload =
    | RunStarted
    | StatusChanged(previous: Status, current: Status)
    | NodeStarted(node: Node)
    | PrdDelta(version: nat, attempt: nat, delta: Text)
    | PrdStreamReset(version: nat, attempt: nat)
    | PrdGenerated(version: nat, attempt: nat, content: Text)
    | ReviewCompleted(review: Review)
    | ScoresUpdated(tech: nat, ux: nat, biz: nat, overall: nat, bestVersion: Option<nat>, bestScore: Option<nat>,
        counts: SeverityCounts)
    | RevisionPlanned(plan: Plan)
    | PauseAsked(previous: Status, current: Status)
    | RunPaused
    | RunResumed(hasOverride: bool)
    | TelemetryUpdated(tokens: Usage)
    | RunCompleted(outcome: Outcome)
    | BudgetSpent(outcome: Outcome)
    | RunCancelled
    | RunFailed

  datatype Event = Event(sequence: nat, iteration: nat, payload: Payload)

  /** Streamed live but never stored. */
  predicate Transient(event: Event) { event.payload.PrdDelta? }
}
