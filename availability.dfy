/**
 * Room availability and average rating (the Room model).
 *
 * `isAvailable` asks whether any booking of the room that is not cancelled and
 * is paid matches one of three tests joined by OR: its check-in lies in the
 * closed range [checkIn, checkOut] (SQL BETWEEN is inclusive at both ends), its
 * check-out lies in that range, or it starts no later and ends no earlier than
 * the range.  The ranges are closed, so a stay that ends on the day another
 * starts counts as a conflict.
 */
module Availability {
  import opened Tables

  /** A booking takes part in the availability check: not cancelled and paid. */
  predicate Occupying(b: Booking) {
    b.status != Cancelled && b.paidStatus == PaidStatusPaid
  }

  /** SQL `x BETWEEN lo AND hi`. */
  predicate Between(x: Day, lo: Day, hi: Day) {
    lo <= x <= hi
  }

  /** The three OR'd date tests of the availability query. */
  predicate Conflicts(b: Booking, checkIn: Day, checkOut: Day) {
    || Between(b.checkIn, checkIn, checkOut)
    || Between(b.checkOut, checkIn, checkOut)
    || (b.checkIn <= checkIn && b.checkOut >= checkOut)
  }

  /** A booking of the room that the availability query finds. */
  predicate Blocks(b: Booking, roomId: nat, checkIn: Day, checkOut: Day) {
    b.roomId == Some(roomId) && Occupying(b) && Conflicts(b, checkIn, checkOut)
  }

  /** `Room::isAvailable`: no booking of the room passes every filter. */
  predicate IsAvailable(bookings: map<nat, Booking>, roomId: nat, checkIn: Day, checkOut: Day) {
    !exists k :: k in bookings && Blocks(bookings[k], roomId, checkIn, checkOut)
  }

  /** Closed-interval overlap of the stored stay and the requested range. */
  predicate ClosedOverlap(b: Booking, checkIn: Day, checkOut: Day) {
    b.checkIn <= checkOut && b.checkOut >= checkIn
  }

  /** Half-open overlap of [b.checkIn, b.checkOut) and [checkIn, checkOut). */
  predicate HalfOpenOverlap(b: Booking, checkIn: Day, checkOut: Day) {
    b.checkIn < checkOut && checkIn < b.checkOut
  }

  /** For well-formed ranges the three-way test is exactly closed-interval overlap. */
  lemma ThreeWayIsClosedOverlap(b: Booking, checkIn: Day, checkOut: Day)
    requires b.checkIn <= b.checkOut && checkIn <= checkOut
    ensures Conflicts(b, checkIn, checkOut) <==> ClosedOverlap(b, checkIn, checkOut)
  {
  }

  /** Closed overlap always implies the three-way test, whatever the ranges. */
  lemma ClosedOverlapConflicts(b: Booking, checkIn: Day, checkOut: Day)
    requires ClosedOverlap(b, checkIn, checkOut)
    ensures Conflicts(b, checkIn, checkOut)
  {
  }

  /** The three-way test is half-open overlap plus touching at either end. */
  lemma ConflictsIsHalfOpenOrTouching(b: Booking, checkIn: Day, checkOut: Day)
    requires b.checkIn < b.checkOut && checkIn < checkOut
    ensures Conflicts(b, checkIn, checkOut) <==>
              (HalfOpenOverlap(b, checkIn, checkOut) || b.checkOut == checkIn || b.checkIn == checkOut)
  {
  }

  /** A room is available iff no occupying booking of that room overlaps the closed range. */
  lemma {:induction false} AvailableIffNoClosedOverlap(bookings: map<nat, Booking>, roomId: nat, checkIn: Day, checkOut: Day)
    requires checkIn <= checkOut
    requires forall k :: k in bookings ==> bookings[k].checkIn <= bookings[k].checkOut
    ensures IsAvailable(bookings, roomId, checkIn, checkOut) <==>
              forall k :: k in bookings && bookings[k].roomId == Some(roomId) && Occupying(bookings[k]) ==>
                            !ClosedOverlap(bookings[k], checkIn, checkOut)
  {
    forall k | k in bookings
      ensures Conflicts(bookings[k], checkIn, checkOut) <==> ClosedOverlap(bookings[k], checkIn, checkOut)
    {
      ThreeWayIsClosedOverlap(bookings[k], checkIn, checkOut);
    }
  }

  /** A room without bookings is available for every range. */
  lemma NoBookingsAvailable(roomId: nat, checkIn: Day, checkOut: Day)
    ensures IsAvailable(map[], roomId, checkIn, checkOut)
  {
  }

  /** When row `k` does not block, availability is decided by the other rows alone. */
  lemma SameOutsideK(bookings: map<nat, Booking>, k: nat, b: Booking, roomId: nat, checkIn: Day, checkOut: Day)
    requires !Blocks(b, roomId, checkIn, checkOut)
    ensures IsAvailable(bookings[k := b], roomId, checkIn, checkOut) == IsAvailable(bookings - {k}, roomId, checkIn, checkOut)
  {
    var with, without := bookings[k := b], bookings - {k};
    if !IsAvailable(with, roomId, checkIn, checkOut) {
      var j :| j in with && Blocks(with[j], roomId, checkIn, checkOut);
      assert j in without && without[j] == with[j];
    }
    if !IsAvailable(without, roomId, checkIn, checkOut) {
      var j :| j in without && Blocks(without[j], roomId, checkIn, checkOut);
      assert j in with && with[j] == without[j];
    }
  }

  /** A cancelled booking never makes the room unavailable, whatever its dates and room. */
  lemma CancelledIgnored(bookings: map<nat, Booking>, k: nat, b: Booking, roomId: nat, checkIn: Day, checkOut: Day)
    requires b.status == Cancelled
    ensures IsAvailable(bookings[k := b], roomId, checkIn, checkOut) == IsAvailable(bookings - {k}, roomId, checkIn, checkOut)
  {
    SameOutsideK(bookings, k, b, roomId, checkIn, checkOut);
  }

  /** A booking whose paid_status is not "paid" never makes the room unavailable. */
  lemma UnpaidIgnored(bookings: map<nat, Booking>, k: nat, b: Booking, roomId: nat, checkIn: Day, checkOut: Day)
    requires b.paidStatus != PaidStatusPaid
    ensures IsAvailable(bookings[k := b], roomId, checkIn, checkOut) == IsAvailable(bookings - {k}, roomId, checkIn, checkOut)
  {
    SameOutsideK(bookings, k, b, roomId, checkIn, checkOut);
  }

  /** Only bookings of this room are consulted: a booking of another room, or of none, is ignored. */
  lemma OtherRoomIgnored(bookings: map<nat, Booking>, k: nat, b: Booking, roomId: nat, checkIn: Day, checkOut: Day)
    requires b.roomId != Some(roomId)
    ensures IsAvailable(bookings[k := b], roomId, checkIn, checkOut) == IsAvailable(bookings - {k}, roomId, checkIn, checkOut)
  {
    SameOutsideK(bookings, k, b, roomId, checkIn, checkOut);
  }

  /** Removing bookings never turns an available room unavailable. */
  lemma RemovalKeepsAvailable(bookings: map<nat, Booking>, gone: set<nat>, roomId: nat, checkIn: Day, checkOut: Day)
    requires IsAvailable(bookings, roomId, checkIn, checkOut)
    ensures IsAvailable(bookings - gone, roomId, checkIn, checkOut)
  {
  }

  /** Cancelling a booking never turns an available room unavailable. */
  lemma CancellingKeepsAvailable(bookings: map<nat, Booking>, k: nat, roomId: nat, checkIn: Day, checkOut: Day)
    requires k in bookings
    requires IsAvailable(bookings, roomId, checkIn, checkOut)
    ensures IsAvailable(bookings[k := bookings[k].(status := Cancelled)], roomId, checkIn, checkOut)
  {
    CancelledIgnored(bookings, k, bookings[k].(status := Cancelled), roomId, checkIn, checkOut);
    RemovalKeepsAvailable(bookings, {k}, roomId, checkIn, checkOut);
  }

  /** Boundary touching counts: an occupying stay that ends on the requested check-in day blocks the room. */
  lemma TouchingBlocks(bookings: map<nat, Booking>, k: nat, roomId: nat, checkIn: Day, checkOut: Day)
    requires k in bookings && bookings[k].roomId == Some(roomId) && Occupying(bookings[k])
    requires bookings[k].checkOut == checkIn && checkIn <= checkOut
    ensures !IsAvailable(bookings, roomId, checkIn, checkOut)
  {
    assert Blocks(bookings[k], roomId, checkIn, checkOut);
  }

  /** A requested range inside an occupying stay, or enclosing one, is refused. */
  lemma NestedBlocks(bookings: map<nat, Booking>, k: nat, roomId: nat, checkIn: Day, checkOut: Day)
    requires k in bookings && bookings[k].roomId == Some(roomId) && Occupying(bookings[k])
    requires bookings[k].checkIn <= bookings[k].checkOut
    requires || (bookings[k].checkIn <= checkIn && checkOut <= bookings[k].checkOut)
             || (checkIn <= bookings[k].checkIn && bookings[k].checkOut <= checkOut)
    ensures !IsAvailable(bookings, roomId, checkIn, checkOut)
  {
    assert Blocks(bookings[k], roomId, checkIn, checkOut);
  }

  /** The keys of the room's reviews. */
  function RoomReviewIds(reviews: map<nat, Review>, roomId: nat): set<nat> {
    Where(reviews, (r: Review) => r.roomId == roomId)
  }

  /** `Room::averageRating`: the mean rating of the room's reviews, 0 when it has none. */
  function AverageRating(reviews: map<nat, Review>, roomId: nat): (avg: real)
    ensures RoomReviewIds(reviews, roomId) == {} ==> avg == 0.0
  {
    var ids := RoomReviewIds(reviews, roomId);
    if ids == {} then 0.0
    else (SumOver(reviews, ids, (r: Review) => r.rating) as real) / (|ids| as real)
  }

  /** When every stored rating is in 1..5, a room with reviews averages between 1 and 5. */
  lemma AverageRatingInRange(reviews: map<nat, Review>, roomId: nat)
    requires forall k :: k in reviews ==> 1 <= reviews[k].rating <= 5
    requires RoomReviewIds(reviews, roomId) != {}
    ensures 1.0 <= AverageRating(reviews, roomId) <= 5.0
  {
    var ids := RoomReviewIds(reviews, roomId);
    var rating := (r: Review) => r.rating;
    SumOverAtLeast(reviews, ids, rating, 1);
    SumOverAtMost(reviews, ids, rating, 5);
    var s := SumOver(reviews, ids, rating) as real;
    var n := |ids| as real;
    MeanBounds(s, n, 1.0, 5.0);
  }

  lemma MeanBounds(s: real, n: real, lo: real, hi: real)
    requires n > 0.0 && n * lo <= s <= n * hi
    ensures lo <= s / n <= hi
  {
    var a := s / n;
    assert a * n == s;
    assert (a - lo) * n >= 0.0 && (hi - a) * n >= 0.0;
  }
}
