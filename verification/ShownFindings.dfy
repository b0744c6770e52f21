/**
 What a reader is shown of a review's findings (`normalizeFeedback` in `src/lib/contracts.ts`), stated
 without it: the findings with something in them, each once and in order.
 */
module ShownFindings {
  import opened Wrappers
  import opened RunTypes
  import opened Reducer

  ghost predicate Rises(at: seq<nat>) { forall k, l :: 0 <= k < l < |at| ==> at[k] < at[l] }

  /** The positions of the findings that are not blank, and no others. */
  ghost predicate ArePositions(at: seq<nat>, feedback: seq<Finding>) {
    forall i: nat :: i in at <==> i < |feedback| && !feedback[i].blank
  }

  ghost predicate ReadsOff(shown: seq<Finding>, feedback: seq<Finding>, at: seq<nat>) {
    |at| == |shown| && forall k :: 0 <= k < |at| ==> at[k] < |feedback| && shown[k] == feedback[at[k]]
  }

  /** `shown` is `feedback` read off at rising positions, which are exactly those of the non-blank findings. */
  ghost predicate Picks(shown: seq<Finding>, feedback: seq<Finding>, at: seq<nat>) {
    Rises(at) && ArePositions(at, feedback) && ReadsOff(shown, feedback, at)
  }

  ghost predicate ShowsLegible(shown: seq<Finding>, feedback: seq<Finding>) {
    exists at: seq<nat> :: Picks(shown, feedback, at)
  }

  // ----- there is exactly one such list

  lemma {:induction false} PositionsAgree(at: seq<nat>, other: seq<nat>)
    requires Rises(at) && Rises(other) && forall i: nat :: i in at <==> i in other
    ensures at == other
    decreases |at|
  {
    assert (at != [] ==> at[0] in at) && (other != [] ==> other[0] in other);
    if at != [] && other != [] {
      assert at[0] in other && other[0] in at;
      assert at[0] == other[0];
      forall i: nat ensures i in at[1..] <==> i in other[1..] {
        RestMembers(at, i);
        RestMembers(other, i);
      }
      PositionsAgree(at[1..], other[1..]);
      assert at == [at[0]] + at[1..] && other == [other[0]] + other[1..];
    }
  }

  lemma RestMembers(at: seq<nat>, i: nat)
    requires Rises(at) && at != []
    ensures i in at[1..] <==> i in at && i != at[0]
  {
    if i in at && i != at[0] {
      var k :| 0 <= k < |at| && at[k] == i;
      assert at[1..][k - 1] == i;
    }
  }

  /** Only one list shows the legible findings. */
  lemma LegibleIsUnique(shown: seq<Finding>, other: seq<Finding>, feedback: seq<Finding>)
    requires ShowsLegible(shown, feedback) && ShowsLegible(other, feedback)
    ensures shown == other
  {
    hide Rises, ArePositions, ReadsOff;
    var at: seq<nat> :| Picks(shown, feedback, at);
    var at': seq<nat> :| Picks(other, feedback, at');
    SamePicks(shown, other, feedback, at, at');
  }

  lemma SamePicks(shown: seq<Finding>, other: seq<Finding>, feedback: seq<Finding>, at: seq<nat>, at': seq<nat>)
    requires Picks(shown, feedback, at) && Picks(other, feedback, at')
    ensures shown == other
  {
    hide Rises;
    PositionsAgree(at, at');
  }

  // ----- the client's normalizing shows it

  function Shifted(at: seq<nat>): (later: seq<nat>)
    ensures |later| == |at| && forall k :: 0 <= k < |at| ==> later[k] == at[k] + 1
  {
    seq(|at|, k requires 0 <= k < |at| => at[k] + 1)
  }

  lemma ShiftedMembers(at: seq<nat>)
    ensures forall i: nat :: i in Shifted(at) <==> i >= 1 && i - 1 in at
  {
    forall i: nat | i >= 1 && i - 1 in at ensures i in Shifted(at) {
      var k :| 0 <= k < |at| && at[k] == i - 1;
      assert Shifted(at)[k] == i;
    }
  }

  lemma OneMorePick(feedback: seq<Finding>, rest: seq<Finding>, at: seq<nat>)
    requires feedback != [] && Picks(rest, feedback[1..], at)
    ensures feedback[0].blank ==> Picks(rest, feedback, Shifted(at))
    ensures !feedback[0].blank ==> Picks([feedback[0]] + rest, feedback, [0] + Shifted(at))
  {
    ShiftedMembers(at);
    var later := Shifted(at);
    hide Shifted;
    assert ArePositions(at, feedback[1..]);
    assert Rises([0] + later);
    forall i: nat ensures i in later <==> 1 <= i < |feedback| && !feedback[i].blank {
      if i >= 1 {
        assert i - 1 in at <==> i - 1 < |feedback[1..]| && !feedback[1..][i - 1].blank;
      }
    }
  }

  lemma {:induction false} NormalizeShowsLegible(feedback: seq<Finding>)
    ensures ShowsLegible(Normalize(feedback), feedback)
  {
    hide Picks;
    if feedback == [] {
      NothingToPick();
    } else {
      NormalizeShowsLegible(feedback[1..]);
      var rest := Normalize(feedback[1..]);
      var at: seq<nat> :| Picks(rest, feedback[1..], at);
      OneMorePick(feedback, rest, at);
      assert [] + rest == rest;
    }
  }

  lemma NothingToPick()
    ensures Picks([], [], [])
  {
  }

  /** The client shows exactly the legible findings. */
  lemma NormalizeIsLegible(shown: seq<Finding>, feedback: seq<Finding>)
    ensures shown == Normalize(feedback) <==> ShowsLegible(shown, feedback)
  {
    hide ShowsLegible;
    NormalizeShowsLegible(feedback);
    if ShowsLegible(shown, feedback) {
      LegibleIsUnique(shown, Normalize(feedback), feedback);
    }
  }

  /** Without blank findings that is all of them. */
  lemma LegibleIsAll(feedback: seq<Finding>)
    requires NoBlank(feedback)
    ensures ShowsLegible(feedback, feedback)
  {
    NormalizeShrinks(feedback);
    NormalizeIsLegible(feedback, feedback);
  }

  // ----- reviews

  /** The one list that shows the legible findings. */
  ghost function LegibleFindings(feedback: seq<Finding>): (shown: seq<Finding>)
    ensures ShowsLegible(shown, feedback)
  {
    NormalizeShowsLegible(feedback);
    var shown :| ShowsLegible(shown, feedback);
    shown
  }

  ghost function LegibleReview(review: Review): Review {
    Review(review.role, review.score, LegibleFindings(review.feedback))
  }

  ghost function LegibleOption(review: Option<Review>): Option<Review> {
    if review.Some? then Some(LegibleReview(review.value)) else None
  }

  ghost function LegibleTrio(reviews: Trio<Option<Review>>): Trio<Option<Review>> {
    Trio(LegibleOption(reviews.tech), LegibleOption(reviews.ux), LegibleOption(reviews.biz))
  }

  lemma NormalizedIsLegible(review: Review)
    ensures NormalizeReview(review) == LegibleReview(review)
  {
    hide ShowsLegible;
    NormalizeIsLegible(LegibleFindings(review.feedback), review.feedback);
  }

  lemma NormalizedTrioIsLegible(reviews: Trio<Option<Review>>)
    ensures NormalizeTrio(reviews) == LegibleTrio(reviews)
  {
    hide NormalizeReview, LegibleReview;
    forall review: Review ensures NormalizeReview(review) == LegibleReview(review) {
      NormalizedIsLegible(review);
    }
  }
}
