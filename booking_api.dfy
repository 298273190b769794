/**
 * The booking endpoints of the JSON API: creating a booking from the booking
 * form, listing the caller's bookings, and looking one up by its reference.
 */
module BookingApi {
  import opened Tables
  import opened Availability

  /** The validated fields of the booking form. */
  datatype BookingRequest = BookingRequest(
    id: string,
    firstName: string,
    lastName: string,
    email: string,
    phone: string,
    roomType: string,
    checkin: Day,
    checkout: Day,
    guests: int,
    nights: int,
    rate: Cents,
    total: Cents,
    userEmail: Field<string>,
    userId: Field<int>)

  /** The validation rules of `store` (the e-mail format rule is not modelled). */
  predicate ValidBookingRequest(req: BookingRequest) {
    && |req.firstName| <= 255
    && |req.lastName| <= 255
    && |req.email| <= 255
    && |req.phone| <= 20
    && req.checkout > req.checkin
    && 1 <= req.guests <= 10
    && req.nights >= 1
    && req.rate >= 0
    && req.total >= 0
  }

  /** The keys of the users whose e-mail is `email`. */
  function UsersWithEmail(users: map<nat, User>, email: string): set<nat> {
    Where(users, (u: User) => u.email == email)
  }

  /**
   * The owner recorded on a new booking: the first user whose e-mail equals the
   * request's `userEmail`, or none.  The request's `userId` plays no part.
   */
  function OwnerFor(users: map<nat, User>, userEmail: Field<string>): (r: Option<nat>)
    requires userEmail != Absent
    ensures r.Some? <==> userEmail.Value? && exists k :: k in users && users[k].email == userEmail.value
    ensures r.Some? ==> r.value in users && users[r.value].email == userEmail.value
  {
    match userEmail
    case Null => None
    case Value(e) =>
      var first := Lowest(UsersWithEmail(users, e));
      assert first.None? ==> forall k :: k in users ==> k !in UsersWithEmail(users, e);
      first
  }

  /** The row `store` inserts. */
  function NewBooking(req: BookingRequest, owner: Option<nat>): (b: Booking)
    ensures b.status == Confirmed
    ensures b.roomId == None && !Occupying(b)
    ensures b.userId == owner
    ensures b.bookingId == req.id && b.checkIn == req.checkin && b.checkOut == req.checkout
    ensures b.total == req.total && b.rate == req.rate && b.guests == req.guests && b.nights == req.nights
    ensures b.firstName == req.firstName && b.lastName == req.lastName && b.email == req.email
    ensures b.phone == req.phone && b.roomType == req.roomType
    ensures !b.paid && b.paymentRef == "" && b.paidStatus == ""
  {
    Booking(owner, None, req.id, req.firstName, req.lastName, req.email, req.phone, req.roomType,
            req.checkin, req.checkout, req.guests, req.nights, req.rate, req.total,
            Confirmed, "", false, "")
  }

  /** A booking made through `store` never changes the availability of any room. */
  lemma NewBookingNeverBlocks(bookings: map<nat, Booking>, k: nat, req: BookingRequest, owner: Option<nat>,
                              roomId: nat, checkIn: Day, checkOut: Day)
    requires k !in bookings
    ensures IsAvailable(bookings[k := NewBooking(req, owner)], roomId, checkIn, checkOut) ==
            IsAvailable(bookings, roomId, checkIn, checkOut)
  {
    OtherRoomIgnored(bookings, k, NewBooking(req, owner), roomId, checkIn, checkOut);
    assert bookings - {k} == bookings;
  }

  /** `userBookings`: 401 for an anonymous caller, otherwise the caller's bookings newest first. */
  function UserBookings(bookings: map<nat, Booking>, caller: Option<nat>): (r: Result<seq<nat>>)
    ensures r.Err? <==> caller.None?
    ensures r.Err? ==> r.code == Unauthenticated
    ensures r.Ok? ==> forall k :: k in r.value <==> k in bookings && bookings[k].userId == caller
    ensures r.Ok? ==> forall i, j :: 0 <= i < j < |r.value| ==> r.value[i] > r.value[j]
  {
    match caller
    case None => Err(Unauthenticated)
    case Some(id) => Ok(NewestFirst(Where(bookings, (b: Booking) => b.userId == Some(id))))
  }

  /** `Booking::where('booking_id', ref)->first()`: the first booking carrying this reference. */
  function ByReference(bookings: map<nat, Booking>, bookingId: string): (r: Option<nat>)
    ensures r.None? <==> forall k :: k in bookings ==> bookings[k].bookingId != bookingId
    ensures r.Some? ==> r.value in bookings && bookings[r.value].bookingId == bookingId
    ensures r.Some? ==> forall k :: k in bookings && bookings[k].bookingId == bookingId ==> r.value <= k
  {
    var matching := Where(bookings, (b: Booking) => b.bookingId == bookingId);
    var first := Lowest(matching);
    assert first.None? ==> forall k :: k in bookings ==> k !in matching;
    first
  }

  /** `show`: the booking with this reference, or 404. */
  function Show(bookings: map<nat, Booking>, bookingId: string): (r: Result<nat>)
    ensures r.Err? <==> forall k :: k in bookings ==> bookings[k].bookingId != bookingId
    ensures r.Err? ==> r.code == NotFound
    ensures r.Ok? ==> r.value in bookings && bookings[r.value].bookingId == bookingId
  {
    match ByReference(bookings, bookingId)
    case None => Err(NotFound)
    case Some(k) => Ok(k)
  }
}
