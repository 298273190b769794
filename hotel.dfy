/**
 * The application's database as one mutable object: the five tables and their
 * auto-increment counters, and one method per endpoint that writes to them.
 * Each method answers with the HTTP status the controller sends and states the
 * whole new state in terms of the pure record builders of the other modules.
 */
module HotelState {
  import opened Tables
  import opened BookingApi
  import opened Payments
  import opened WebBooking
  import opened Reviews
  import opened AdminPanel
  import opened Profile

  const Success := 200
  const Created := 201

  /** Every column of every table, for stating what a method leaves alone. */
  datatype Db = Db(
    users: map<nat, User>,
    rooms: map<nat, Room>,
    bookings: map<nat, Booking>,
    payments: map<nat, Payment>,
    reviews: map<nat, Review>,
    nextRoom: nat,
    nextBooking: nat,
    nextPayment: nat,
    nextReview: nat)

  /** A room row as the room endpoints keep it: an allowed status, a non-negative price, room for someone. */
  ghost predicate RoomsWellFormed(rooms: map<nat, Room>) {
    forall k :: k in rooms ==> rooms[k].status in RoomStatuses && rooms[k].price >= 0 && rooms[k].capacity >= 1
  }

  class Hotel {
    var users: map<nat, User>
    var rooms: map<nat, Room>
    var bookings: map<nat, Booking>
    var payments: map<nat, Payment>
    var reviews: map<nat, Review>
    var nextRoom: nat
    var nextBooking: nat
    var nextPayment: nat
    var nextReview: nat

    function Snapshot(): Db
      reads this
    {
      Db(users, rooms, bookings, payments, reviews, nextRoom, nextBooking, nextPayment, nextReview)
    }

    /** The invariants the endpoints keep between requests. */
    ghost predicate Valid()
      reads this
    {
      && KeysBelow(rooms, nextRoom) && KeysBelow(bookings, nextBooking)
      && KeysBelow(payments, nextPayment) && KeysBelow(reviews, nextReview)
      && OneReviewPerBooking(reviews) && RatingsInRange(reviews)
      && UniqueEmails(users) && RoomsWellFormed(rooms)
    }

    /** An empty hotel over an existing user table (registration is not part of this model). */
    constructor (registered: map<nat, User>)
      requires UniqueEmails(registered)
      ensures Valid()
      ensures Snapshot() == Db(registered, map[], map[], map[], map[], 0, 0, 0, 0)
    {
      users, rooms, bookings, payments, reviews := registered, map[], map[], map[], map[];
      nextRoom, nextBooking, nextPayment, nextReview := 0, 0, 0, 0;
    }

    /**
     * `BookingController@store` (API): 422 on invalid input, 500 when `userEmail`
     * is missing from the request, else a confirmed booking at the next key.
     */
    method StoreBooking(req: BookingRequest) returns (status: int, key: nat)
      requires Valid()
      modifies this
      ensures Valid()
      ensures !ValidBookingRequest(req) ==> status == Unprocessable && Snapshot() == old(Snapshot())
      ensures ValidBookingRequest(req) && req.userEmail.Absent? ==> status == ServerError && Snapshot() == old(Snapshot())
      ensures ValidBookingRequest(req) && !req.userEmail.Absent? ==>
        && status == Created && key == old(nextBooking)
        && Snapshot() == old(Snapshot()).(bookings := old(bookings)[key := NewBooking(req, OwnerFor(users, req.userEmail))],
                                          nextBooking := key + 1)
    {
      key := nextBooking;
      if !ValidBookingRequest(req) {
        return Unprocessable, key;
      }
      if req.userEmail.Absent? {
        return ServerError, key;
      }
      bookings := bookings[key := NewBooking(req, OwnerFor(users, req.userEmail))];
      nextBooking := key + 1;
      status := Created;
    }

    /**
     * `PaymentController@store`: 422 on invalid input, 500 when `user_email` is
     * missing, else a payment row with a fresh transaction id, and the first
     * booking with the reference marked paid.
     */
    method StorePayment(req: PaymentRequest, now: Timestamp, suffix: nat) returns (status: int, key: nat)
      requires Valid() && ValidTimestamp(now) && 1000 <= suffix <= 9999
      modifies this
      ensures Valid()
      ensures !ValidPaymentRequest(req) ==> status == Unprocessable && Snapshot() == old(Snapshot())
      ensures ValidPaymentRequest(req) && req.userEmail.Absent? ==> status == ServerError && Snapshot() == old(Snapshot())
      ensures ValidPaymentRequest(req) && !req.userEmail.Absent? ==>
        && status == Created && key == old(nextPayment)
        && Snapshot() == old(Snapshot()).(payments := old(payments)[key := CardPayment(req, TransactionId(now, suffix))],
                                          nextPayment := key + 1,
                                          bookings := MarkPaid(old(bookings), req.bookingId))
    {
      key := nextPayment;
      if !ValidPaymentRequest(req) {
        return Unprocessable, key;
      }
      if req.userEmail.Absent? {
        return ServerError, key;
      }
      var payment := CardPayment(req, TransactionId(now, suffix));
      var paid := MarkPaid(bookings, req.bookingId);
      payments := payments[key := payment];
      nextPayment := key + 1;
      bookings := paid;
      status := Created;
    }

    /**
     * `PaymentController@uploadProof`: 422 for an unknown reference, 500 for an
     * anonymous caller, 403 unless the caller owns the booking, else a bank
     * transfer awaiting verification.
     */
    method UploadProof(caller: Option<nat>, bookingId: string, proofPath: string) returns (status: int, key: nat)
      requires Valid() && (caller.Some? ==> caller.value in users)
      modifies this
      ensures Valid()
      ensures status != Created ==> Snapshot() == old(Snapshot())
      ensures status == Unprocessable <==> ByReference(old(bookings), bookingId).None?
      ensures ByReference(old(bookings), bookingId).Some? && caller.None? ==> status == ServerError
      ensures ByReference(old(bookings), bookingId).Some? && caller.Some? ==>
        var b := old(bookings)[ByReference(old(bookings), bookingId).value];
        && (status == Forbidden <==> b.userId != caller)
        && (b.userId == caller ==> status == Created)
        && (status == Created ==>
              key == old(nextPayment) &&
              Snapshot() == old(Snapshot()).(payments := old(payments)[key := ProofPayment(b, old(users)[caller.value].email, proofPath)],
                                             nextPayment := key + 1))
      ensures status in {Unprocessable, ServerError, Forbidden, Created}
    {
      key := nextPayment;
      match ByReference(bookings, bookingId)
      case None =>
        return Unprocessable, key;
      case Some(k) =>
        if caller.None? {
          return ServerError, key;
        }
        var b := bookings[k];
        if b.userId != caller {
          return Forbidden, key;
        }
        payments := payments[key := ProofPayment(b, users[caller.value].email, proofPath)];
        nextPayment := key + 1;
        status := Created;
    }

    /**
     * `PaymentController@verifyProof`: 403 unless admin, 422 for an unknown
     * payment, else the decision recorded on the payment and, when verified, the
     * booking with the payment's reference marked paid.
     */
    method VerifyProof(caller: Option<nat>, paymentId: nat, verified: bool, comment: Option<string>, now: int)
      returns (status: int)
      requires Valid()
      modifies this
      ensures Valid()
      ensures !IsAdmin(users, caller) ==> status == Forbidden && Snapshot() == old(Snapshot())
      ensures IsAdmin(users, caller) && paymentId !in payments ==> status == Unprocessable && Snapshot() == old(Snapshot())
      ensures IsAdmin(users, caller) && paymentId in old(payments) ==>
        var p := old(payments)[paymentId];
        && status == Success
        && Snapshot() == old(Snapshot()).(payments := old(payments)[paymentId := Decide(p, verified, comment, now)],
                                          bookings := if verified then MarkPaid(old(bookings), p.bookingId) else old(bookings))
    {
      if !IsAdmin(users, caller) {
        return Forbidden;
      }
      if paymentId !in payments {
        return Unprocessable;
      }
      var p := payments[paymentId];
      payments := payments[paymentId := Decide(p, verified, comment, now)];
      if verified {
        bookings := MarkPaid(bookings, p.bookingId);
      }
      status := Success;
    }

    /**
     * `BookingController@processPayment` (web): 404 for an unknown booking, a
     * redirect back for a stranger, a validation failure without a card number,
     * else the booking marked paid with a fresh payment reference.
     */
    method ProcessPayment(caller: Option<nat>, id: nat, cardNumber: Option<string>, randomBytes: seq<Byte>)
      returns (r: Result<Page>)
      requires Valid() && |randomBytes| == 4
      modifies this
      ensures Valid()
      ensures r.Err? <==> id !in bookings
      ensures r.Err? ==> r.code == NotFound
      ensures r != Ok(RedirectToMyBookings(PaymentRef(randomBytes))) ==> Snapshot() == old(Snapshot())
      ensures id in old(bookings) && !MayPay(users, caller, old(bookings)[id]) ==> r == Ok(RedirectBackUnauthorized)
      ensures id in old(bookings) && MayPay(users, caller, old(bookings)[id]) && (cardNumber.None? || cardNumber.value == "") ==>
        r == Ok(ValidationFailed)
      ensures id in old(bookings) && MayPay(users, caller, old(bookings)[id]) && cardNumber.Some? && cardNumber.value != "" ==>
        && r == Ok(RedirectToMyBookings(PaymentRef(randomBytes)))
        && Snapshot() == old(Snapshot()).(bookings := old(bookings)[id := old(bookings)[id].(paid := true,
                                                                                          paymentRef := PaymentRef(randomBytes),
                                                                                          status := "paid")])
    {
      if id !in bookings {
        return Err(NotFound);
      }
      var b := bookings[id];
      if !MayPay(users, caller, b) {
        return Ok(RedirectBackUnauthorized);
      }
      if cardNumber.None? || cardNumber.value == "" {
        return Ok(ValidationFailed);
      }
      var reference := PaymentRef(randomBytes);
      bookings := bookings[id := b.(paid := true, paymentRef := reference, status := "paid")];
      r := Ok(RedirectToMyBookings(reference));
    }

    /**
     * `ReviewController@store`: 422 on invalid input or an unknown booking or
     * room, 403 unless the caller owns the booking, 422 when the booking already
     * has a review, else a verified review at the next key.
     */
    method StoreReview(caller: Option<nat>, bookingKey: nat, roomId: nat, rating: int, comment: Option<string>)
      returns (status: int, key: nat)
      requires Valid()
      modifies this
      ensures Valid()
      ensures status != Created ==> Snapshot() == old(Snapshot())
      ensures !ValidReviewInput(rating, comment) || bookingKey !in bookings || roomId !in rooms ==> status == Unprocessable
      ensures bookingKey in bookings && bookings[bookingKey].userId != caller && ValidReviewInput(rating, comment) && roomId in rooms ==>
        status == Forbidden
      ensures HasReview(old(reviews), bookingKey) ==> status != Created
      ensures (ValidReviewInput(rating, comment) && bookingKey in old(bookings) && roomId in old(rooms) &&
               old(bookings)[bookingKey].userId == caller && HasReview(old(reviews), bookingKey)) ==>
        status == Unprocessable
      ensures status == Created <==>
        ValidReviewInput(rating, comment) && bookingKey in bookings && roomId in rooms &&
        bookings[bookingKey].userId == caller && !HasReview(old(reviews), bookingKey)
      ensures status == Created ==>
        key == old(nextReview) &&
        Snapshot() == old(Snapshot()).(reviews := old(reviews)[key := NewReview(caller, roomId, bookingKey, rating, comment)],
                                       nextReview := key + 1)
    {
      key := nextReview;
      if !ValidReviewInput(rating, comment) || bookingKey !in bookings || roomId !in rooms {
        return Unprocessable, key;
      }
      if bookings[bookingKey].userId != caller {
        return Forbidden, key;
      }
      if HasReview(reviews, bookingKey) {
        return Unprocessable, key;
      }
      var review := NewReview(caller, roomId, bookingKey, rating, comment);
      AddKeepsOnePerBooking(reviews, key, review);
      reviews := reviews[key := review];
      nextReview := key + 1;
      status := Created;
    }

    /** `ReviewController@update`: 422, 404, 403 (owner only), else a new rating and comment. */
    method UpdateReview(caller: Option<nat>, id: nat, rating: int, comment: Option<string>) returns (status: int)
      requires Valid()
      modifies this
      ensures Valid()
      ensures status != Success ==> Snapshot() == old(Snapshot())
      ensures !ValidReviewInput(rating, comment) ==> status == Unprocessable
      ensures ValidReviewInput(rating, comment) && id !in reviews ==> status == NotFound
      ensures ValidReviewInput(rating, comment) && id in reviews && reviews[id].userId != caller ==> status == Forbidden
      ensures ValidReviewInput(rating, comment) && id in old(reviews) && old(reviews)[id].userId == caller ==>
        status == Success &&
        Snapshot() == old(Snapshot()).(reviews := old(reviews)[id := old(reviews)[id].(rating := rating, comment := comment)])
    {
      if !ValidReviewInput(rating, comment) {
        return Unprocessable;
      }
      if id !in reviews {
        return NotFound;
      }
      if reviews[id].userId != caller {
        return Forbidden;
      }
      reviews := reviews[id := reviews[id].(rating := rating, comment := comment)];
      status := Success;
    }

    /** `ReviewController@destroy`: 404, 403 (owner only), else exactly that review removed. */
    method DestroyReview(caller: Option<nat>, id: nat) returns (status: int)
      requires Valid()
      modifies this
      ensures Valid()
      ensures status != Success ==> Snapshot() == old(Snapshot())
      ensures id !in old(reviews) ==> status == NotFound
      ensures id in old(reviews) && old(reviews)[id].userId != caller ==> status == Forbidden
      ensures id in old(reviews) && old(reviews)[id].userId == caller ==>
        status == Success && Snapshot() == old(Snapshot()).(reviews := old(reviews) - {id})
    {
      if id !in reviews {
        return NotFound;
      }
      if reviews[id].userId != caller {
        return Forbidden;
      }
      reviews := reviews - {id};
      status := Success;
    }

    /** `AdminController@createRoom`: 403 unless admin, 422 on invalid input, else an available room. */
    method CreateRoom(caller: Option<nat>, input: RoomInput) returns (status: int, key: nat)
      requires Valid()
      modifies this
      ensures Valid()
      ensures status != Created ==> Snapshot() == old(Snapshot())
      ensures !IsAdmin(users, caller) ==> status == Forbidden
      ensures IsAdmin(users, caller) && !ValidRoomInput(input) ==> status == Unprocessable
      ensures IsAdmin(users, caller) && ValidRoomInput(input) ==>
        status == Created && key == old(nextRoom) &&
        Snapshot() == old(Snapshot()).(rooms := old(rooms)[key := NewRoom(input)], nextRoom := key + 1)
    {
      key := nextRoom;
      if !IsAdmin(users, caller) {
        return Forbidden, key;
      }
      if !ValidRoomInput(input) {
        return Unprocessable, key;
      }
      rooms := rooms[key := NewRoom(input)];
      nextRoom := key + 1;
      status := Created;
    }

    /** `AdminController@updateRoom`: 403, then 404 for an unknown room, then 422, else the supplied fields. */
    method UpdateRoom(caller: Option<nat>, id: nat, patch: RoomPatch) returns (status: int)
      requires Valid()
      modifies this
      ensures Valid()
      ensures status != Success ==> Snapshot() == old(Snapshot())
      ensures !IsAdmin(users, caller) ==> status == Forbidden
      ensures IsAdmin(users, caller) && id !in rooms ==> status == NotFound
      ensures IsAdmin(users, caller) && id in rooms && !ValidRoomPatch(patch) ==> status == Unprocessable
      ensures IsAdmin(users, caller) && id in old(rooms) && ValidRoomPatch(patch) ==>
        status == Success && Snapshot() == old(Snapshot()).(rooms := old(rooms)[id := Patched(old(rooms)[id], patch)])
    {
      if !IsAdmin(users, caller) {
        return Forbidden;
      }
      if id !in rooms {
        return NotFound;
      }
      if !ValidRoomPatch(patch) {
        return Unprocessable;
      }
      PatchedKeepsRoomValid(rooms[id], patch);
      rooms := rooms[id := Patched(rooms[id], patch)];
      status := Success;
    }

    /** `AdminController@deleteRoom`: 403, then 404, else exactly that room removed. */
    method DeleteRoom(caller: Option<nat>, id: nat) returns (status: int)
      requires Valid()
      modifies this
      ensures Valid()
      ensures status != Success ==> Snapshot() == old(Snapshot())
      ensures !IsAdmin(users, caller) ==> status == Forbidden
      ensures IsAdmin(users, caller) && id !in old(rooms) ==> status == NotFound
      ensures IsAdmin(users, caller) && id in old(rooms) ==>
        status == Success && Snapshot() == old(Snapshot()).(rooms := old(rooms) - {id})
    {
      if !IsAdmin(users, caller) {
        return Forbidden;
      }
      if id !in rooms {
        return NotFound;
      }
      rooms := rooms - {id};
      status := Success;
    }

    /**
     * `AdminController@updatePrices`: 403 unless admin, 422 unless every entry
     * names an existing room with a non-negative price, else one price write
     * per entry, in order.
     */
    method UpdatePrices(caller: Option<nat>, updates: seq<PriceUpdate>) returns (status: int)
      requires Valid()
      modifies this
      ensures Valid()
      ensures status != Success ==> Snapshot() == old(Snapshot())
      ensures !IsAdmin(users, caller) ==> status == Forbidden
      ensures IsAdmin(users, caller) && !ValidPriceUpdates(rooms, updates) ==> status == Unprocessable
      ensures IsAdmin(users, caller) && ValidPriceUpdates(old(rooms), updates) ==>
        status == Success && Snapshot() == old(Snapshot()).(rooms := ApplyPrices(old(rooms), updates))
    {
      if !IsAdmin(users, caller) {
        return Forbidden;
      }
      if !ValidPriceUpdates(rooms, updates) {
        return Unprocessable;
      }
      var i := 0;
      while i < |updates|
        invariant 0 <= i <= |updates|
        invariant rooms.Keys == old(rooms).Keys
        invariant ApplyPrices(rooms, updates[i..]) == ApplyPrices(old(rooms), updates)
        invariant RoomsWellFormed(rooms)
        invariant Snapshot() == old(Snapshot()).(rooms := rooms)
      {
        var u := updates[i];
        assert updates[i..][1..] == updates[i + 1..];
        rooms := rooms[u.roomId := rooms[u.roomId].(price := u.price)];
        i := i + 1;
      }
      assert updates[i..] == [];
      status := Success;
    }

    /** `UserProfileController@update`: 500 for an anonymous caller, 422 on invalid input, else the new profile fields. */
    method UpdateProfile(caller: Option<nat>, upd: ProfileUpdate) returns (status: int)
      requires Valid() && (caller.Some? ==> caller.value in users)
      modifies this
      ensures Valid()
      ensures status != Success ==> Snapshot() == old(Snapshot())
      ensures caller.None? ==> status == ServerError
      ensures caller.Some? && !ValidProfileUpdate(users, caller.value, upd) ==> status == Unprocessable
      ensures caller.Some? && ValidProfileUpdate(old(users), caller.value, upd) ==>
        status == Success &&
        Snapshot() == old(Snapshot()).(users := old(users)[caller.value := UpdatedProfile(old(users)[caller.value], upd)])
    {
      if caller.None? {
        return ServerError;
      }
      var self := caller.value;
      if !ValidProfileUpdate(users, self, upd) {
        return Unprocessable;
      }
      UpdateKeepsEmailsUnique(users, self, upd);
      users := users[self := UpdatedProfile(users[self], upd)];
      status := Success;
    }

    /**
     * `UserProfileController@changePassword`: 422 when the request fails
     * validation (a missing current password included), 500 for an anonymous
     * caller, 422 when the current password does not match, else the new hash
     * stored.
     */
    method ChangePassword(caller: Option<nat>, currentPassword: Option<string>, newPassword: string,
                          confirmation: string, currentMatches: bool, newHash: string) returns (status: int)
      requires Valid() && (caller.Some? ==> caller.value in users)
      modifies this
      ensures Valid()
      ensures status != Success ==> Snapshot() == old(Snapshot())
      ensures !ValidPasswordChange(currentPassword, newPassword, confirmation) ==> status == Unprocessable
      ensures ValidPasswordChange(currentPassword, newPassword, confirmation) && caller.None? ==> status == ServerError
      ensures caller.Some? && (!ValidPasswordChange(currentPassword, newPassword, confirmation) || !currentMatches) ==>
        status == Unprocessable && users == old(users)
      ensures caller.Some? && ValidPasswordChange(currentPassword, newPassword, confirmation) && currentMatches ==>
        status == Success &&
        Snapshot() == old(Snapshot()).(users := old(users)[caller.value := old(users)[caller.value].(password := newHash)])
    {
      if !ValidPasswordChange(currentPassword, newPassword, confirmation) {
        return Unprocessable;
      }
      if caller.None? {
        return ServerError;
      }
      var self := caller.value;
      match ChangedPassword(users[self], currentPassword, newPassword, confirmation, currentMatches, newHash)
      case Err(code) =>
        return code;
      case Ok(u) =>
        users := users[self := u];
        status := Success;
    }
  }
}
