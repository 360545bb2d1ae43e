/** Cleanup of earlier reviews left by the action itself: every review in the
    listing is inspected in order, and those written by the
    automation account are either dismissed (changes requested) or deleted
    (pending). The remote calls are represented by the actions they would issue. */
module Dismissal {

  /** The login the cleanup recognises as its own (the default token's bot account). */
  const BotLogin := "github-actions[bot]"
  const ChangesRequestedState := "CHANGES_REQUESTED"
  const PendingState := "PENDING"

  /** A listed review: its id, its author's login and its state, as the forge reports them. */
  datatype Review = Review(id: int, login: string, state: string)

  /** A remote call on one earlier review. */
  datatype Action =
    | Dismiss(reviewId: int, message: string)
    | DeletePending(reviewId: int)

  /** The reviews the cleanup acts on: the automation's own reviews that request
      changes or are still pending. */
  predicate Qualifies(r: Review) {
    r.login == BotLogin && (r.state == ChangesRequestedState || r.state == PendingState)
  }

  /** The call issued for a qualifying review. */
  function ActionOf(r: Review, message: string): (act: Action)
    requires Qualifies(r)
    ensures act.reviewId == r.id
    ensures act.Dismiss? <==> r.state == ChangesRequestedState
    ensures act.Dismiss? ==> act.message == message
  {
    if r.state == ChangesRequestedState then Dismiss(r.id, message) else DeletePending(r.id)
  }

  /** The qualifying reviews of `rs`, in listing order. */
  function Selected(rs: seq<Review>): (sel: seq<Review>)
    ensures |sel| <= |rs|
    ensures forall r :: r in sel ==> r in rs && Qualifies(r)
  {
    if rs == [] then []
    else (if Qualifies(rs[0]) then [rs[0]] else []) + Selected(rs[1..])
  }

  /** Every qualifying review of the listing is selected. */
  lemma {:induction false} SelectedComplete(rs: seq<Review>, r: Review)
    requires r in rs && Qualifies(r)
    ensures r in Selected(rs)
  {
    if rs[0] != r {
      SelectedComplete(rs[1..], r);
    }
  }

  /** One call per selected review, in the same order. */
  function Actions(sel: seq<Review>, message: string): (acts: seq<Action>)
    requires forall r :: r in sel ==> Qualifies(r)
    ensures |acts| == |sel|
    ensures forall k :: 0 <= k < |sel| ==> acts[k] == ActionOf(sel[k], message)
  {
    if sel == [] then [] else [ActionOf(sel[0], message)] + Actions(sel[1..], message)
  }

  /** The cleanup plan as a filter followed by a map over the listed reviews. */
  function Plan(rs: seq<Review>, message: string): seq<Action> {
    Actions(Selected(rs), message)
  }

  lemma {:induction false} SelectedAppend(a: seq<Review>, b: seq<Review>)
    ensures Selected(a + b) == Selected(a) + Selected(b)
  {
    if a == [] {
      assert a + b == b;
    } else {
      assert (a + b)[0] == a[0];
      assert (a + b)[1..] == a[1..] + b;
      SelectedAppend(a[1..], b);
    }
  }

  lemma {:induction false} ActionsAppend(a: seq<Review>, b: seq<Review>, message: string)
    requires forall r :: r in a ==> Qualifies(r)
    requires forall r :: r in b ==> Qualifies(r)
    ensures Actions(a + b, message) == Actions(a, message) + Actions(b, message)
  {
    if a == [] {
      assert a + b == b;
    } else {
      assert (a + b)[0] == a[0];
      assert (a + b)[1..] == a[1..] + b;
      ActionsAppend(a[1..], b, message);
    }
  }

  /** The plan of a concatenated listing is the concatenation of the plans:
      each review is handled on its own, and actions keep listing order. */
  lemma PlanAppend(a: seq<Review>, b: seq<Review>, message: string)
    ensures Plan(a + b, message) == Plan(a, message) + Plan(b, message)
  {
    SelectedAppend(a, b);
    ActionsAppend(Selected(a), Selected(b), message);
  }

  /** What one review contributes, branch by branch as the listing walk decides it. */
  lemma PlanSingle(r: Review, message: string)
    ensures r.login == BotLogin && r.state == ChangesRequestedState ==>
              Plan([r], message) == [Dismiss(r.id, message)]
    ensures r.login == BotLogin && r.state == PendingState ==>
              Plan([r], message) == [DeletePending(r.id)]
    ensures r.login != BotLogin || (r.state != ChangesRequestedState && r.state != PendingState) ==>
              Plan([r], message) == []
  {
    assert [r][1..] == [];
  }

  /** A review by anyone other than the automation is never acted on, wherever it is listed. */
  lemma ForeignReviewIgnored(a: seq<Review>, r: Review, b: seq<Review>, message: string)
    requires r.login != BotLogin
    ensures Plan(a + [r] + b, message) == Plan(a + b, message)
  {
    PlanAppend(a + [r], b, message);
    PlanAppend(a, [r], message);
    PlanAppend(a, b, message);
    PlanSingle(r, message);
  }

  /** Every planned action targets a listed review of the automation: a dismissal
      (with the given message) for one requesting changes, a deletion for a pending one. */
  lemma PlanTouchesOnlyBotReviews(rs: seq<Review>, message: string)
    ensures forall act :: act in Plan(rs, message) ==>
              exists r :: r in rs && r.login == BotLogin && act.reviewId == r.id &&
                (if r.state == ChangesRequestedState then act == Dismiss(r.id, message)
                 else r.state == PendingState && act == DeletePending(r.id))
  {
    var sel := Selected(rs);
    forall act | act in Plan(rs, message)
      ensures exists r :: r in rs && r.login == BotLogin && act.reviewId == r.id &&
                (if r.state == ChangesRequestedState then act == Dismiss(r.id, message)
                 else r.state == PendingState && act == DeletePending(r.id))
    {
      var k :| 0 <= k < |sel| && Plan(rs, message)[k] == act;
      assert sel[k] in sel;
      var r := sel[k];
      assert act == ActionOf(r, message);
    }
  }

  /** The listing walk: each review in turn, each qualifying one appending its call. */
  method DismissReviews(reviews: seq<Review>, message: string) returns (actions: seq<Action>)
    ensures actions == Plan(reviews, message)
  {
    actions := [];
    for i := 0 to |reviews|
      invariant actions == Plan(reviews[..i], message)
    {
      var review := reviews[i];
      if review.login == BotLogin {
        if review.state == ChangesRequestedState {
          actions := actions + [Dismiss(review.id, message)];
        } else if review.state == PendingState {
          actions := actions + [DeletePending(review.id)];
        }
      }
      assert reviews[..i + 1] == reviews[..i] + [review];
      PlanAppend(reviews[..i], [review], message);
      PlanSingle(review, message);
    }
    assert reviews[..|reviews|] == reviews;
  }
}
