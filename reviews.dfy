/**
 * Room reviews: the validation rules, the one-review-per-booking rule and the
 * per-room listing.  Creating, editing and deleting reviews are `Hotel` methods.
 */
module Reviews {
  import opened Tables

  /** `rating` in 1..5 and a comment of at most 1000 characters, for both create and update. */
  predicate ValidReviewInput(rating: int, comment: Option<string>) {
    1 <= rating <= 5 && (comment.Some? ==> |comment.value| <= 1000)
  }

  /** Some review is attached to this booking key. */
  predicate HasReview(reviews: map<nat, Review>, bookingKey: nat) {
    exists k :: k in reviews && reviews[k].bookingId == bookingKey
  }

  /** At most one review per booking. */
  ghost predicate OneReviewPerBooking(reviews: map<nat, Review>) {
    forall i, j :: i in reviews && j in reviews && reviews[i].bookingId == reviews[j].bookingId ==> i == j
  }

  /** Every stored rating is in 1..5. */
  ghost predicate RatingsInRange(reviews: map<nat, Review>) {
    forall k :: k in reviews ==> 1 <= reviews[k].rating <= 5
  }

  /** The row `store` inserts. */
  function NewReview(caller: Option<nat>, roomId: nat, bookingKey: nat, rating: int, comment: Option<string>): (r: Review)
    ensures r.userId == caller && r.verifiedBooking
    ensures r.roomId == roomId && r.bookingId == bookingKey && r.rating == rating && r.comment == comment
  {
    Review(caller, roomId, bookingKey, rating, comment, true)
  }

  /** Adding a review for a booking that has none keeps one review per booking. */
  lemma AddKeepsOnePerBooking(reviews: map<nat, Review>, k: nat, r: Review)
    requires OneReviewPerBooking(reviews) && k !in reviews && !HasReview(reviews, r.bookingId)
    ensures OneReviewPerBooking(reviews[k := r])
  {
  }

  /** Adding a review for a booking that already has one breaks the rule: hence the 422 in `store`. */
  lemma AddDuplicateBreaksOnePerBooking(reviews: map<nat, Review>, k: nat, r: Review)
    requires k !in reviews && HasReview(reviews, r.bookingId)
    ensures !OneReviewPerBooking(reviews[k := r])
  {
    var j :| j in reviews && reviews[j].bookingId == r.bookingId;
    assert reviews[k := r][j].bookingId == reviews[k := r][k].bookingId;
  }

  /** `roomReviews`: the reviews of the room, newest first. */
  function RoomReviews(reviews: map<nat, Review>, roomId: nat): (r: seq<nat>)
    ensures forall k :: k in r <==> k in reviews && reviews[k].roomId == roomId
    ensures forall i, j :: 0 <= i < j < |r| ==> r[i] > r[j]
  {
    NewestFirst(Where(reviews, (v: Review) => v.roomId == roomId))
  }
}
