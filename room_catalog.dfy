/**
 * The room endpoints of the JSON API: the filtered catalogue, the availability
 * check and the availability calendar.
 */
module RoomCatalog {
  import opened Tables
  import opened Availability

  const AvailableStatus := "available"

  /** The optional filters of the room listing. */
  datatype RoomQuery = RoomQuery(
    roomType: Option<string>,
    minPrice: Option<Cents>,
    maxPrice: Option<Cents>,
    capacity: Option<int>,
    amenities: Option<seq<string>>)

  /** One `whereJsonContains('amenities', a)` per requested amenity, applied in turn. */
  function WhereHasAmenities(rooms: map<nat, Room>, ids: set<nat>, wanted: seq<string>): (r: set<nat>)
    requires ids <= rooms.Keys
    ensures r <= ids
    ensures forall k :: k in r <==> k in ids && forall a :: a in wanted ==> a in rooms[k].amenities
    decreases |wanted|
  {
    if wanted == [] then ids
    else
      var narrowed := set k | k in ids && wanted[0] in rooms[k].amenities;
      WhereHasAmenities(rooms, narrowed, wanted[1..])
  }

  /**
   * The room listing: starts from the rooms whose status is "available" and narrows
   * the query once per filter that the request carries.  The price range is applied
   * only when both bounds are present.
   */
  function Index(rooms: map<nat, Room>, q: RoomQuery): (r: set<nat>)
    ensures forall k :: k in r <==>
      && k in rooms
      && rooms[k].status == AvailableStatus
      && (q.roomType.Some? ==> rooms[k].roomType == q.roomType.value)
      && (q.minPrice.Some? && q.maxPrice.Some? ==> q.minPrice.value <= rooms[k].price <= q.maxPrice.value)
      && (q.capacity.Some? ==> rooms[k].capacity >= q.capacity.value)
      && (q.amenities.Some? ==> forall a :: a in q.amenities.value ==> a in rooms[k].amenities)
  {
    var query := set k | k in rooms && rooms[k].status == AvailableStatus;
    var query := if q.roomType.Some? then set k | k in query && rooms[k].roomType == q.roomType.value else query;
    var query := if q.minPrice.Some? && q.maxPrice.Some?
                 then set k | k in query && q.minPrice.value <= rooms[k].price <= q.maxPrice.value
                 else query;
    var query := if q.capacity.Some? then set k | k in query && rooms[k].capacity >= q.capacity.value else query;
    if q.amenities.Some? then WhereHasAmenities(rooms, query, q.amenities.value) else query
  }

  /** A single price bound is ignored: the listing is the same as with neither bound. */
  lemma OneSidedPriceIgnored(rooms: map<nat, Room>, q: RoomQuery)
    requires q.minPrice.None? || q.maxPrice.None?
    ensures Index(rooms, q) == Index(rooms, q.(minPrice := None, maxPrice := None))
  {
    var a, b := Index(rooms, q), Index(rooms, q.(minPrice := None, maxPrice := None));
    assert forall k :: k in a <==> k in b;
  }

  /** Without filters the listing is exactly the rooms whose status is "available". */
  lemma UnfilteredListsAvailableRooms(rooms: map<nat, Room>)
    ensures Index(rooms, RoomQuery(None, None, None, None, None)) == set k | k in rooms && rooms[k].status == AvailableStatus
  {
    var a := Index(rooms, RoomQuery(None, None, None, None, None));
    assert forall k :: k in a <==> k in rooms && rooms[k].status == AvailableStatus;
  }

  /** `checkAvailability`: validate the request, then ask `Room::isAvailable`. */
  function CheckAvailability(rooms: map<nat, Room>, bookings: map<nat, Booking>, roomId: nat,
                             checkIn: Day, checkOut: Day, today: Day): (r: Result<bool>)
    ensures r.Err? <==> roomId !in rooms || checkIn < today || checkOut <= checkIn
    ensures r.Err? ==> r.code == Unprocessable
    ensures r.Ok? ==> r.value == IsAvailable(bookings, roomId, checkIn, checkOut)
    ensures r.Ok? && r.value ==>
      forall k :: k in bookings && bookings[k].roomId == Some(roomId) && Occupying(bookings[k]) ==>
        !ClosedOverlap(bookings[k], checkIn, checkOut)
    ensures r.Ok? && !r.value ==>
      exists k :: k in bookings && bookings[k].roomId == Some(roomId) && Occupying(bookings[k]) &&
        Conflicts(bookings[k], checkIn, checkOut)
  {
    if roomId !in rooms || checkIn < today || checkOut <= checkIn then Err(Unprocessable)
    else
      var available := IsAvailable(bookings, roomId, checkIn, checkOut);
      assert available ==> forall k :: k in bookings && bookings[k].roomId == Some(roomId) && Occupying(bookings[k]) ==>
        !ClosedOverlap(bookings[k], checkIn, checkOut) by {
        forall k | k in bookings && ClosedOverlap(bookings[k], checkIn, checkOut) ensures Conflicts(bookings[k], checkIn, checkOut) {
          ClosedOverlapConflicts(bookings[k], checkIn, checkOut);
        }
      }
      Ok(available)
  }

  /** Day `d` is taken in the calendar: an occupying booking of the room has checkIn <= d < checkOut. */
  predicate BookedDay(bookings: map<nat, Booking>, roomId: nat, d: Day) {
    exists k :: k in bookings && bookings[k].roomId == Some(roomId) && Occupying(bookings[k]) &&
                bookings[k].checkIn <= d < bookings[k].checkOut
  }

  /** The day-stepping loop of the calendar: the days of the half-open stay [checkIn, checkOut). */
  method StayDays(checkIn: Day, checkOut: Day) returns (dates: seq<Day>)
    ensures |dates| == if checkIn < checkOut then checkOut - checkIn else 0
    ensures forall i :: 0 <= i < |dates| ==> dates[i] == checkIn + i
    ensures forall d :: d in dates <==> checkIn <= d < checkOut
  {
    dates := [];
    var current := checkIn;
    while current < checkOut
      invariant checkIn <= current
      invariant checkIn < checkOut ==> current <= checkOut
      invariant checkOut <= checkIn ==> current == checkIn
      invariant |dates| == current - checkIn
      invariant forall i :: 0 <= i < |dates| ==> dates[i] == checkIn + i
    {
      dates := dates + [current];
      current := current + 1;
    }
    forall d | checkIn <= d < checkOut ensures d in dates {
      assert dates[d - checkIn] == d;
    }
  }

  /** No value occurs twice. */
  predicate Distinct(s: seq<Day>) {
    forall i, j :: 0 <= i < j < |s| ==> s[i] != s[j]
  }

  /** `flatten()->unique()` step: append the days of `more` that are not there yet, keeping first occurrences. */
  method AppendUnique(acc: seq<Day>, more: seq<Day>) returns (r: seq<Day>)
    requires Distinct(acc)
    ensures Distinct(r)
    ensures |acc| <= |r| && r[..|acc|] == acc
    ensures forall d :: d in r <==> d in acc || d in more
  {
    r := acc;
    var i := 0;
    while i < |more|
      invariant 0 <= i <= |more|
      invariant Distinct(r)
      invariant |acc| <= |r| && r[..|acc|] == acc
      invariant forall d :: d in r <==> d in acc || d in more[..i]
    {
      if more[i] !in r {
        r := r + [more[i]];
      }
      assert more[..i + 1] == more[..i] + [more[i]];
      i := i + 1;
    }
    assert more[..i] == more;
  }

  /**
   * `booked_dates`: the occupying bookings of the room, in no particular order, each
   * expanded to its days, flattened and de-duplicated.
   */
  method BookedDates(bookings: map<nat, Booking>, roomId: nat) returns (dates: seq<Day>)
    ensures Distinct(dates)
    ensures forall d :: d in dates <==> BookedDay(bookings, roomId, d)
  {
    var occupying := set k | k in bookings && bookings[k].roomId == Some(roomId) && Occupying(bookings[k]);
    var pending := occupying;
    dates := [];
    while pending != {}
      invariant pending <= occupying
      invariant Distinct(dates)
      invariant forall d :: d in dates <==>
        exists k :: k in occupying - pending && bookings[k].checkIn <= d < bookings[k].checkOut
      decreases pending
    {
      var k :| k in pending;
      var days := StayDays(bookings[k].checkIn, bookings[k].checkOut);
      dates := AppendUnique(dates, days);
      pending := pending - {k};
    }
  }

  datatype Calendar = Calendar(roomId: nat, month: int, year: int, bookedDates: seq<Day>)

  /**
   * `getAvailabilityCalendar`: month and year are validated and echoed back (the
   * current ones when absent) but do not restrict the booked dates.
   */
  method AvailabilityCalendar(rooms: map<nat, Room>, bookings: map<nat, Booking>, roomId: nat,
                              month: Option<int>, year: Option<int>, nowMonth: int, nowYear: int)
    returns (r: Result<Calendar>)
    ensures r.Err? <==> (month.Some? && !(1 <= month.value <= 12)) || (year.Some? && year.value < 2024) || roomId !in rooms
    ensures r.Err? ==> r.code == (if roomId in rooms || (month.Some? && !(1 <= month.value <= 12)) || (year.Some? && year.value < 2024)
                                  then Unprocessable else NotFound)
    ensures r.Ok? ==> r.value.roomId == roomId && r.value.month == month.GetOr(nowMonth) && r.value.year == year.GetOr(nowYear)
    ensures r.Ok? ==> Distinct(r.value.bookedDates)
    ensures r.Ok? ==> forall d :: d in r.value.bookedDates <==> BookedDay(bookings, roomId, d)
  {
    if (month.Some? && !(1 <= month.value <= 12)) || (year.Some? && year.value < 2024) {
      return Err(Unprocessable);
    }
    if roomId !in rooms {
      return Err(NotFound);
    }
    var dates := BookedDates(bookings, roomId);
    r := Ok(Calendar(roomId, month.GetOr(nowMonth), year.GetOr(nowYear), dates));
  }

  /** Any day the calendar shows as booked makes the room unavailable for the one-day range [d, d+1]. */
  lemma BookedDayUnavailable(bookings: map<nat, Booking>, roomId: nat, d: Day)
    requires BookedDay(bookings, roomId, d)
    ensures !IsAvailable(bookings, roomId, d, d + 1)
  {
    var k :| k in bookings && bookings[k].roomId == Some(roomId) && Occupying(bookings[k]) &&
             bookings[k].checkIn <= d < bookings[k].checkOut;
    assert Blocks(bookings[k], roomId, d, d + 1);
  }

  /**
   * The calendar and the availability check disagree on the check-out day: the
   * calendar leaves it free, yet a stay starting that day is refused.
   */
  lemma CheckoutDayFreeYetRefused(bookings: map<nat, Booking>, k: nat, roomId: nat)
    requires k in bookings && bookings[k].roomId == Some(roomId) && Occupying(bookings[k])
    requires forall j :: j in bookings && j != k ==> bookings[j].roomId != Some(roomId)
    requires bookings[k].checkIn < bookings[k].checkOut
    ensures !BookedDay(bookings, roomId, bookings[k].checkOut)
    ensures !IsAvailable(bookings, roomId, bookings[k].checkOut, bookings[k].checkOut + 1)
  {
    TouchingBlocks(bookings, k, roomId, bookings[k].checkOut, bookings[k].checkOut + 1);
  }
}
