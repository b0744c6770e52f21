/**
 A structured provider call (`_validated_structured` in `backend/workflow.py`): its retry, its repair and
 what they cost.
 */
module StructuredCall {
  import opened Wrappers
  import opened RunTypes
  import opened Workflow

  // ----- the provider calls and their price

  /** An answer that does not validate. */
  predicate Unvalidated<T>(reply: Reply<T>) { reply.Answer? && reply.parsed.None? }

  /**
   The replies received, in order: after an error worth a retry one more attempt, after an answer that does
   not validate one repair, and nothing else.
   */
  ghost predicate AreReplies<T(!new)>(
    received: seq<Reply<T>>, first: Reply<T>, second: Reply<T>, repair: Reply<T>)
  {
    || (received == [first] && !first.RetryableError? && !Unvalidated(first))
    || (received == [first, repair] && Unvalidated(first))
    || (received == [first, second] && first.RetryableError? && !Unvalidated(second))
    || (received == [first, second, repair] && first.RetryableError? && Unvalidated(second))
  }

  function PriceOf<T>(reply: Reply<T>): Usage { if reply.Answer? then reply.usage else NO_USAGE }

  /** What the provider charged: the usage of every answer, whether it validated or not. */
  function Charged<T>(received: seq<Reply<T>>): Usage {
    if received == [] then NO_USAGE
    else AddUsage(Charged(received[..|received| - 1]), PriceOf(received[|received| - 1]))
  }

  /** The last reply's value at the price of all of them, or nothing when the last one holds no value. */
  ghost predicate PaidFor<T(!new)>(outcome: CallOutcome<T>, received: seq<Reply<T>>) {
    received != [] &&
    var last := received[|received| - 1];
    match outcome
    case Obtained(value, usage) => last.Answer? && last.parsed == Some(value) && usage == Charged(received)
    case Broken => !(last.Answer? && last.parsed.Some?)
  }

  lemma ChargedLast<T>(received: seq<Reply<T>>, last: Reply<T>)
    ensures Charged(received + [last]) == AddUsage(Charged(received), PriceOf(last))
  {
    assert (received + [last])[..|received|] == received;
  }

  lemma ChargedForNone<T>()
    ensures Charged<T>([]) == NO_USAGE
  {
  }

  lemma ChargedForOne<T>(x: Reply<T>)
    ensures Charged([x]) == PriceOf(x)
  {
    hide Charged, PriceOf;
    ChargedForNone<T>();
    ChargedLast([], x);
    assert [] + [x] == [x];
  }

  lemma ChargedForTwo<T>(x: Reply<T>, y: Reply<T>)
    ensures Charged([x, y]) == AddUsage(PriceOf(x), PriceOf(y))
  {
    hide Charged, PriceOf, AddUsage;
    ChargedForOne(x);
    ChargedLast([x], y);
    assert [x] + [y] == [x, y];
  }

  lemma ChargedForThree<T>(x: Reply<T>, y: Reply<T>, z: Reply<T>)
    ensures Charged([x, y, z]) == AddUsage(AddUsage(PriceOf(x), PriceOf(y)), PriceOf(z))
  {
    hide Charged, PriceOf, AddUsage;
    ChargedForTwo(x, y);
    ChargedLast([x, y], z);
    assert [x, y] + [z] == [x, y, z];
  }

  /** The replies a call receives. */
  ghost function Received<T(!new)>(
    first: Reply<T>, second: Reply<T>, repair: Reply<T>): (received: seq<Reply<T>>)
    ensures AreReplies(received, first, second, repair)
  {
    if first.RetryableError? then if Unvalidated(second) then [first, second, repair] else [first, second]
    else if Unvalidated(first) then [first, repair] else [first]
  }

  lemma RepliesAreReceived<T(!new)>(received: seq<Reply<T>>, first: Reply<T>, second: Reply<T>, repair: Reply<T>)
    requires AreReplies(received, first, second, repair)
    ensures received == Received(first, second, repair)
  {
  }

  /** What the protocol makes of a call is the last reply's value, at the price of every answer received. */
  lemma CallIsPaidFor<T(!new)>(first: Reply<T>, second: Reply<T>, repair: Reply<T>)
    ensures PaidFor(ValidatedStructured(first, second, repair), Received(first, second, repair))
  {
    hide Charged, PaidFor;
    if first.RetryableError? {
      RetryIsPaidFor(first, second, repair);
    } else {
      TryIsPaidFor(first, second, repair);
    }
  }

  lemma TryIsPaidFor<T(!new)>(first: Reply<T>, second: Reply<T>, repair: Reply<T>)
    requires !first.RetryableError?
    ensures PaidFor(ValidatedStructured(first, second, repair), Received(first, second, repair))
  {
    hide Charged;
    ChargedForOne(first);
    ChargedForTwo(first, repair);
  }

  lemma RetryIsPaidFor<T(!new)>(first: Reply<T>, second: Reply<T>, repair: Reply<T>)
    requires first.RetryableError?
    ensures PaidFor(ValidatedStructured(first, second, repair), Received(first, second, repair))
  {
    hide Charged;
    ChargedForTwo(first, second);
    ChargedForThree(first, second, repair);
  }

  // ----- the loop

  /** `_validated_structured`; `received` are the replies of the provider calls it made. */
  method CallStructured<T(!new)>(first: Reply<T>, second: Reply<T>, repair: Reply<T>)
    returns (outcome: CallOutcome<T>, calls: nat, ghost received: seq<Reply<T>>)
    ensures outcome == ValidatedStructured(first, second, repair)
    ensures calls == |received| && AreReplies(received, first, second, repair) && PaidFor(outcome, received)
    ensures 1 <= calls <= 3 && (calls == 3 ==> first.RetryableError?)
  {
    hide Charged, PaidFor;
    CallIsPaidFor(first, second, repair);
    var result: Option<Reply<T>> := None;
    calls, received := 0, [];
    for attempt := 0 to 2
      invariant attempt <= 1 && calls == attempt && result.None?
      invariant attempt == 1 ==> first.RetryableError?
      invariant received == if attempt == 0 then [] else [first]
    {
      var reply := if attempt == 0 then first else second;
      calls := calls + 1;
      received := received + [reply];
      match reply
      case Answer(_, _) => result := Some(reply); break;
      case RetryableError =>
        if attempt == 1 {
          return Broken, calls, received;
        }
      case OtherError => return Broken, calls, received;
    }
    var answer := result.value;
    if answer.parsed.Some? {
      return Obtained(answer.parsed.value, answer.usage), calls, received;
    }
    calls := calls + 1;
    received := received + [repair];
    if repair.Answer? && repair.parsed.Some? {
      return Obtained(repair.parsed.value, AddUsage(answer.usage, repair.usage)), calls, received;
    }
    return Broken, calls, received;
  }
}
