/** The product reviews screen: the rating distribution, the signed-in
    user's own review, and submitting or deleting a review. */
module ProductReviews {
  import opened Common
  import opened Catalog

  /** A review as listed by `GET /reviews/product/:id`. `userId` is the
      reviewer's `user._id`, absent when the review has no user. */
  datatype Review = Review(id: string, userId: Option<string>, rating: int, comment: Option<string>)

  /** The `data` of that response: each key may be missing. */
  datatype ReviewsData = ReviewsData(reviews: Option<seq<Review>>, avgRating: Option<real>)

  /** The body of `POST /reviews`. */
  datatype ReviewPayload = ReviewPayload(product: string, rating: int, comment: string)

  /** How many reviews give rating `k`. */
  function CountRating(reviews: seq<Review>, k: int): (r: nat)
    ensures r <= |reviews|
  {
    if reviews == [] then 0
    else CountRating(reviews[..|reviews| - 1], k) + (if reviews[|reviews| - 1].rating == k then 1 else 0)
  }

  /** Some review gives rating `k`. */
  predicate HasRating(reviews: seq<Review>, k: int) {
    exists i :: 0 <= i < |reviews| && reviews[i].rating == k
  }

  /** `getRatingDistribution()`: keys 5 to 1 start at zero and every review
      adds one to the key of its rating, creating that key if needed. */
  method RatingDistribution(reviews: seq<Review>) returns (distribution: map<int, nat>)
    ensures forall k :: 1 <= k <= 5 ==> k in distribution
    ensures forall k :: k in distribution <==> 1 <= k <= 5 || HasRating(reviews, k)
    ensures forall k :: k in distribution ==> distribution[k] == CountRating(reviews, k)
  {
    distribution := map[5 := 0, 4 := 0, 3 := 0, 2 := 0, 1 := 0];
    for i := 0 to |reviews|
      invariant forall k :: k in distribution <==> 1 <= k <= 5 || HasRating(reviews[..i], k)
      invariant forall k :: k in distribution ==> distribution[k] == CountRating(reviews[..i], k)
    {
      var r := reviews[i].rating;
      var before := if r in distribution then distribution[r] else 0;
      distribution := distribution[r := before + 1];
      assert reviews[..i + 1][..i] == reviews[..i];
      forall k ensures HasRating(reviews[..i + 1], k) <==> HasRating(reviews[..i], k) || r == k {
        if HasRating(reviews[..i + 1], k) {
          var j :| 0 <= j < i + 1 && reviews[..i + 1][j].rating == k;
          if j < i {
            assert reviews[..i][j].rating == k;
          }
        }
        if HasRating(reviews[..i], k) {
          var j :| 0 <= j < i && reviews[..i][j].rating == k;
          assert reviews[..i + 1][j].rating == k;
        }
        if r == k {
          assert reviews[..i + 1][i].rating == k;
        }
      }
      forall k | !HasRating(reviews[..i], k) ensures CountRating(reviews[..i], k) == 0 {
        NoRatingNoCount(reviews[..i], k);
      }
    }
    assert reviews[..|reviews|] == reviews;
  }

  lemma {:induction false} NoRatingNoCount(reviews: seq<Review>, k: int)
    requires !HasRating(reviews, k)
    ensures CountRating(reviews, k) == 0
  {
    if reviews != [] {
      var init := reviews[..|reviews| - 1];
      assert !HasRating(init, k) by {
        forall j | 0 <= j < |init| ensures init[j].rating != k {
          assert init[j] == reviews[j];
        }
      }
      NoRatingNoCount(init, k);
      assert reviews[|reviews| - 1].rating != k;
    }
  }

  /** When every rating is between 1 and 5, the five bars count every
      review once. */
  lemma {:induction false} FiveBarsCountEveryReview(reviews: seq<Review>)
    requires forall i :: 0 <= i < |reviews| ==> 1 <= reviews[i].rating <= 5
    ensures CountRating(reviews, 5) + CountRating(reviews, 4) + CountRating(reviews, 3) +
            CountRating(reviews, 2) + CountRating(reviews, 1) == |reviews|
  {
    if reviews != [] {
      var init := reviews[..|reviews| - 1];
      assert forall i :: 0 <= i < |init| ==> init[i] == reviews[i];
      FiveBarsCountEveryReview(init);
    }
  }

  /** `distribution[star] || 0`. */
  function BarCount(distribution: map<int, nat>, star: int): nat {
    if star in distribution then distribution[star] else 0
  }

  /** A bar's width: `(count / totalReviews) * 100`, or 0 without reviews. */
  function Percentage(count: nat, total: nat): (r: real)
    ensures total == 0 ==> r == 0.0
    ensures count <= total ==> 0.0 <= r <= 100.0
    ensures 0 < total && count == total ==> r == 100.0
  {
    if total > 0 then (count as real / total as real) * 100.0 else 0.0
  }

  /** Shares of one total add up like their counts. */
  lemma SharesAdd(a: nat, b: nat, total: nat)
    requires total > 0
    ensures Percentage(a, total) + Percentage(b, total) == Percentage(a + b, total)
  {
    var t := total as real;
    assert a as real / t + b as real / t == (a + b) as real / t;
  }

  /** Five shares of counts that make up the total add up to 100. */
  lemma FiveSharesMakeWhole(c5: nat, c4: nat, c3: nat, c2: nat, c1: nat, n: nat)
    requires n > 0 && c5 + c4 + c3 + c2 + c1 == n
    ensures Percentage(c5, n) + Percentage(c4, n) + Percentage(c3, n) + Percentage(c2, n) +
            Percentage(c1, n) == 100.0
  {
    SharesAdd(c5, c4, n);
    SharesAdd(c5 + c4, c3, n);
    SharesAdd(c5 + c4 + c3, c2, n);
    SharesAdd(c5 + c4 + c3 + c2, c1, n);
  }

  /** The five bars' percentages add up to 100 when there are reviews and
      every rating is between 1 and 5. */
  lemma BarsAddUpToWhole(reviews: seq<Review>)
    requires reviews != []
    requires forall i :: 0 <= i < |reviews| ==> 1 <= reviews[i].rating <= 5
    ensures var t := |reviews|;
            Percentage(CountRating(reviews, 5), t) + Percentage(CountRating(reviews, 4), t) +
            Percentage(CountRating(reviews, 3), t) + Percentage(CountRating(reviews, 2), t) +
            Percentage(CountRating(reviews, 1), t) == 100.0
  {
    FiveBarsCountEveryReview(reviews);
    FiveSharesMakeWhole(CountRating(reviews, 5), CountRating(reviews, 4), CountRating(reviews, 3),
                        CountRating(reviews, 2), CountRating(reviews, 1), |reviews|);
  }

  /** `reviews.find(r => r.user?._id === user?._id)`: the first review whose
      reviewer id equals the signed-in user's, both possibly absent. */
  function OwnReview(reviews: seq<Review>, currentUserId: Option<string>): (r: Option<Review>)
    ensures r.None? <==> forall i :: 0 <= i < |reviews| ==> reviews[i].userId != currentUserId
    ensures r.Some? ==>
              exists i :: 0 <= i < |reviews| && reviews[i] == r.value && r.value.userId == currentUserId &&
                          forall j :: 0 <= j < i ==> reviews[j].userId != currentUserId
  {
    if reviews == [] then None
    else if reviews[0].userId == currentUserId then Some(reviews[0])
    else
      var r := OwnReview(reviews[1..], currentUserId);
      assert forall i :: 1 <= i < |reviews| ==> reviews[i] == reviews[1..][i - 1];
      if r.Some? then
        var i :| 0 <= i < |reviews[1..]| && reviews[1..][i] == r.value && r.value.userId == currentUserId &&
                 forall j :: 0 <= j < i ==> reviews[1..][j].userId != currentUserId;
        assert reviews[i + 1] == r.value;
        r
      else r
  }

  /** Signed out, a review without a reviewer is taken as one's own (both
      ids are `undefined`); signed in, only one's own review is found. */
  lemma OwnReviewMatching(reviews: seq<Review>, userId: string)
    ensures OwnReview([Review("r1", None, 4, None)], None).Some?
    ensures OwnReview(reviews, Some(userId)).Some? ==> OwnReview(reviews, Some(userId)).value.userId == Some(userId)
  {
  }

  /** Why `handleSubmitReview()` refuses. */
  datatype ReviewError = SelectRating | LoginRequired

  function ErrorMessage(e: ReviewError): string {
    match e
    case SelectRating => "Please select a rating"
    case LoginRequired => "Please login to review"
  }

  /** The guards of `handleSubmitReview()`: the rating is checked before
      the sign-in. */
  function SubmitGuard(rating: int, signedIn: bool): (r: Option<ReviewError>)
    ensures r == Some(SelectRating) <==> rating < 1
    ensures r == Some(LoginRequired) <==> rating >= 1 && !signedIn
    ensures r.None? <==> rating >= 1 && signedIn
  {
    if rating < 1 then Some(SelectRating) else if !signedIn then Some(LoginRequired) else None
  }

  /** The stars drawn for a rating: star `i + 1` is filled when it is at
      most the rating. */
  function Stars(rating: int): (r: seq<bool>)
    ensures |r| == 5
  {
    seq(5, i requires 0 <= i < 5 => i + 1 <= rating)
  }

  /** The filled stars come first, and their number is the rating clamped
      to 0..5. */
  lemma StarsFillFromLeft(rating: int)
    ensures forall i, j :: 0 <= i < j < 5 && Stars(rating)[j] ==> Stars(rating)[i]
    ensures forall i :: 0 <= i < 5 ==> (Stars(rating)[i] <==> i < rating)
  {
  }

  /** The success toast: "Review updated" when the user already had a
      review, "Review submitted" otherwise. */
  function SubmittedMessage(updated: bool): string {
    if updated then "Review updated" else "Review submitted"
  }

  /** What submitting the form led to. */
  datatype SubmitOutcome =
    | Refused(error: ReviewError)
    | Submitted(payload: ReviewPayload, updated: bool)
    | NotSubmitted(payload: ReviewPayload, message: string)

  /** What `handleSubmitReview()` leads to for the form's rating and
      comment: a refusal by the guards, or `POST /reviews` with the trimmed
      comment, reported by the success toast or the server's message. */
  function SubmitOutcomeFor(productId: string, rating: int, comment: string, signedIn: bool,
                            hadReview: bool, post: ApiResult): (r: SubmitOutcome)
    ensures SubmitGuard(rating, signedIn).Some? ==> r == Refused(SubmitGuard(rating, signedIn).value)
    ensures r.Submitted? || r.NotSubmitted? ==>
              rating >= 1 && signedIn && r.payload == ReviewPayload(productId, rating, Trim(comment))
    ensures r.Submitted? <==> SubmitGuard(rating, signedIn).None? && post.Succeeded?
    ensures r.Submitted? ==> r.updated == hadReview
    ensures r.NotSubmitted? ==> r.message == MessageOr(post.serverMessage, "Failed to submit review")
  {
    var refusal := SubmitGuard(rating, signedIn);
    if refusal.Some? then Refused(refusal.value)
    else
      var payload := ReviewPayload(productId, rating, Trim(comment));
      match post
      case Succeeded => Submitted(payload, hadReview)
      case Failed(m) => NotSubmitted(payload, MessageOr(m, "Failed to submit review"))
  }

  /** The screen's state. A network request is replaced by its outcome,
      passed in as a parameter (`None` or a failure for a failed request). */
  class ProductReviewsState {
    var reviews: seq<Review>
    var avgRating: real
    var rating: int
    var comment: string
    var showReviewForm: bool
    var userReview: Option<Review>

    constructor()
      ensures reviews == [] && avgRating == 0.0 && rating == 0 && comment == ""
      ensures !showReviewForm && userReview.None?
    {
      reviews, avgRating, rating, comment := [], 0.0, 0, "";
      showReviewForm, userReview := false, None;
    }

    /** `fetchReviews()`: the list, the average and the user's own review,
        whose rating and comment fill the form; when there is no own review
        the form keeps what it had. A failed request changes nothing. */
    method FetchReviews(response: Option<ReviewsData>, currentUserId: Option<string>)
      modifies this
      ensures response.None? ==>
        reviews == old(reviews) && avgRating == old(avgRating) && userReview == old(userReview) &&
        rating == old(rating) && comment == old(comment)
      ensures response.Some? ==>
        var data := response.value;
        var own := if data.reviews.Some? then OwnReview(data.reviews.value, currentUserId) else None;
        reviews == data.reviews.GetOr([]) && avgRating == data.avgRating.GetOr(0.0) && userReview == own &&
        (own.Some? ==> rating == own.value.rating && comment == own.value.comment.GetOr("")) &&
        (own.None? ==> rating == old(rating) && comment == old(comment))
      ensures showReviewForm == old(showReviewForm)
    {
      if response.None? {
        return;
      }
      var data := response.value;
      reviews := data.reviews.GetOr([]);
      avgRating := data.avgRating.GetOr(0.0);
      var userRev := if data.reviews.Some? then OwnReview(data.reviews.value, currentUserId) else None;
      userReview := userRev;
      if userRev.Some? {
        rating := userRev.value.rating;
        comment := userRev.value.comment.GetOr("");
      }
    }

    /** `handleSubmitReview()`: the guards, then `POST /reviews`; success
        closes the form (the list is then fetched again). */
    method HandleSubmitReview(productId: string, signedIn: bool, post: ApiResult)
      returns (outcome: SubmitOutcome)
      modifies this`showReviewForm
      ensures outcome == SubmitOutcomeFor(productId, old(rating), old(comment), signedIn, old(userReview).Some?, post)
      ensures showReviewForm == if outcome.Submitted? then false else old(showReviewForm)
    {
      outcome := SubmitOutcomeFor(productId, rating, comment, signedIn, userReview.Some?, post);
      if outcome.Submitted? {
        showReviewForm := false;
      }
    }

    /** The confirmed "Delete" of `handleDeleteReview()`, offered only with
        an own review: `DELETE /reviews/:id`, then on success the form is
        reset (the list is then fetched again). */
    method DeleteOwnReview(deleteSucceeded: bool) returns (deletedId: string)
      requires userReview.Some?
      modifies this`userReview, this`rating, this`comment
      ensures deletedId == old(userReview).value.id
      ensures deleteSucceeded ==> userReview.None? && rating == 0 && comment == ""
      ensures !deleteSucceeded ==>
        userReview == old(userReview) && rating == old(rating) && comment == old(comment)
    {
      deletedId := userReview.value.id;
      if deleteSucceeded {
        userReview, rating, comment := None, 0, "";
      }
    }
  }
}
