/**
 * The admin back-office of the JSON API: the admin check, the dashboard figures,
 * the booking list, and the room records that create, update and bulk price
 * update produce.  The table updates themselves are `Hotel` methods.
 */
module AdminPanel {
  import opened Tables

  const RoomStatuses := {"available", "unavailable", "maintenance"}

  /** `checkAdmin`: a logged-in caller whose usertype is "admin". */
  predicate IsAdmin(users: map<nat, User>, caller: Option<nat>) {
    caller.Some? && caller.value in users && users[caller.value].usertype == Admin
  }

  datatype Dashboard = Dashboard(
    totalBookings: nat,
    totalRevenue: Cents,
    totalUsers: nat,
    totalRooms: nat,
    pendingPayments: nat,
    recentBookings: seq<nat>)

  function VerifiedPayments(payments: map<nat, Payment>): set<nat> {
    Where(payments, (p: Payment) => p.status == "verified")
  }

  function NonAdminUsers(users: map<nat, User>): set<nat> {
    Where(users, (u: User) => u.usertype != Admin)
  }

  function PendingPayments(payments: map<nat, Payment>): set<nat> {
    Where(payments, (p: Payment) => p.status == "pending_verification")
  }

  function Revenue(payments: map<nat, Payment>): Cents {
    SumOver(payments, VerifiedPayments(payments), (p: Payment) => p.amount)
  }

  /** `orderBy(created_at, desc)->limit(5)`: the five newest bookings (all of them when fewer), newest first. */
  function RecentBookings(bookings: map<nat, Booking>): (r: seq<nat>)
    ensures |r| == if |bookings| < 5 then |bookings| else 5
    ensures forall k :: k in r ==> k in bookings
    ensures forall k :: k in bookings && k !in r ==> forall j :: j in r ==> k < j
    ensures forall i, j :: 0 <= i < j < |r| ==> r[i] > r[j]
  {
    var newest := NewestFirst(bookings.Keys);
    var n := if |newest| < 5 then |newest| else 5;
    DescendingPrefixIsNewest(newest, n);
    newest[..n]
  }

  /** `dashboard`: 403 unless admin; otherwise the counts and sums over the tables. */
  function DashboardFigures(users: map<nat, User>, rooms: map<nat, Room>, bookings: map<nat, Booking>,
                            payments: map<nat, Payment>, caller: Option<nat>): (r: Result<Dashboard>)
    ensures r.Err? <==> !IsAdmin(users, caller)
    ensures r.Err? ==> r.code == Forbidden
    ensures r.Ok? ==> r.value.totalBookings == |bookings| && r.value.totalRooms == |rooms|
    ensures r.Ok? ==> r.value.totalUsers == |NonAdminUsers(users)|
    ensures r.Ok? ==> r.value.pendingPayments == |PendingPayments(payments)|
    ensures r.Ok? ==> r.value.totalRevenue == Revenue(payments)
    ensures r.Ok? ==> r.value.recentBookings == RecentBookings(bookings)
  {
    if !IsAdmin(users, caller) then Err(Forbidden)
    else
      Ok(Dashboard(|bookings|, Revenue(payments),
                   |NonAdminUsers(users)|, |rooms|, |PendingPayments(payments)|,
                   RecentBookings(bookings)))
  }

  /** The dashboard never counts more users, or more pending payments, than the tables hold. */
  lemma DashboardCountsBounded(users: map<nat, User>, rooms: map<nat, Room>, bookings: map<nat, Booking>,
                               payments: map<nat, Payment>, caller: Option<nat>)
    requires IsAdmin(users, caller)
    ensures DashboardFigures(users, rooms, bookings, payments, caller).value.totalUsers < |users|
    ensures DashboardFigures(users, rooms, bookings, payments, caller).value.pendingPayments <= |payments|
  {
    SubsetCount(NonAdminUsers(users), users.Keys - {caller.value});
    SubsetCount(PendingPayments(payments), payments.Keys);
  }

  /** With non-negative amounts, the revenue is non-negative. */
  lemma RevenueNonNegative(payments: map<nat, Payment>)
    requires forall k :: k in payments ==> payments[k].amount >= 0
    ensures Revenue(payments) >= 0
  {
    SumOverAtLeast(payments, VerifiedPayments(payments), (p: Payment) => p.amount, 0);
  }

  /** `listBookings`: 403 unless admin; the status and paid_status filters apply only when given; newest first. */
  function ListBookings(users: map<nat, User>, bookings: map<nat, Booking>, caller: Option<nat>,
                        status: Option<string>, paidStatus: Option<string>): (r: Result<seq<nat>>)
    ensures r.Err? <==> !IsAdmin(users, caller)
    ensures r.Err? ==> r.code == Forbidden
    ensures r.Ok? ==> forall k :: k in r.value <==>
      k in bookings && (status.Some? ==> bookings[k].status == status.value) &&
      (paidStatus.Some? ==> bookings[k].paidStatus == paidStatus.value)
    ensures r.Ok? ==> forall i, j :: 0 <= i < j < |r.value| ==> r.value[i] > r.value[j]
  {
    if !IsAdmin(users, caller) then Err(Forbidden)
    else
      var query := bookings.Keys;
      var query := if status.Some? then set k | k in query && bookings[k].status == status.value else query;
      var query := if paidStatus.Some? then set k | k in query && bookings[k].paidStatus == paidStatus.value else query;
      Ok(NewestFirst(query))
  }

  datatype PriceUpdate = PriceUpdate(roomId: nat, price: Cents)

  /** The validation of `updatePrices`: a non-empty list, existing rooms, non-negative prices. */
  predicate ValidPriceUpdates(rooms: map<nat, Room>, updates: seq<PriceUpdate>) {
    |updates| > 0 && forall i :: 0 <= i < |updates| ==> updates[i].roomId in rooms && updates[i].price >= 0
  }

  /** The room table after the `foreach` over `updates`, one price write per entry, in order. */
  function ApplyPrices(rooms: map<nat, Room>, updates: seq<PriceUpdate>): (r: map<nat, Room>)
    requires forall i :: 0 <= i < |updates| ==> updates[i].roomId in rooms
    ensures r.Keys == rooms.Keys
    decreases |updates|
  {
    if updates == [] then rooms
    else
      var u := updates[0];
      ApplyPrices(rooms[u.roomId := rooms[u.roomId].(price := u.price)], updates[1..])
  }

  /** A room no entry names keeps its row. */
  lemma {:induction false} UnlistedRoomUnchanged(rooms: map<nat, Room>, updates: seq<PriceUpdate>, k: nat)
    requires forall i :: 0 <= i < |updates| ==> updates[i].roomId in rooms
    requires forall i :: 0 <= i < |updates| ==> updates[i].roomId != k
    requires k in rooms
    ensures ApplyPrices(rooms, updates)[k] == rooms[k]
    decreases |updates|
  {
    if updates != [] {
      var u := updates[0];
      assert u.roomId != k;
      var tail := updates[1..];
      assert forall j :: 0 <= j < |tail| ==> tail[j] == updates[j + 1];
      UnlistedRoomUnchanged(rooms[u.roomId := rooms[u.roomId].(price := u.price)], tail, k);
    }
  }

  /** A listed room ends with the price of its last entry, and every other column as it was. */
  lemma {:induction false} LastEntryWins(rooms: map<nat, Room>, updates: seq<PriceUpdate>, k: nat, i: nat)
    requires forall j :: 0 <= j < |updates| ==> updates[j].roomId in rooms
    requires i < |updates| && updates[i].roomId == k
    requires forall j :: i < j < |updates| ==> updates[j].roomId != k
    ensures k in rooms
    ensures ApplyPrices(rooms, updates)[k] == rooms[k].(price := updates[i].price)
    decreases |updates|
  {
    var u := updates[0];
    var next := rooms[u.roomId := rooms[u.roomId].(price := u.price)];
    var tail := updates[1..];
    assert forall j :: 0 <= j < |tail| ==> tail[j] == updates[j + 1];
    if i == 0 {
      UnlistedRoomUnchanged(next, tail, k);
    } else {
      LastEntryWins(next, tail, k, i - 1);
    }
  }

  /** The validated fields of `createRoom`. */
  datatype RoomInput = RoomInput(
    title: string,
    roomType: string,
    description: string,
    price: Cents,
    capacity: int,
    amenities: Option<seq<string>>)

  predicate ValidRoomInput(input: RoomInput) {
    |input.title| <= 255 && |input.roomType| <= 100 && input.price >= 0 && input.capacity >= 1
  }

  /** The row `createRoom` inserts: the given fields, and the column default status "available". */
  function NewRoom(input: RoomInput): (r: Room)
    ensures r.status == "available" && r.price == input.price && r.capacity == input.capacity
    ensures r.title == input.title && r.roomType == input.roomType && r.description == input.description
    ensures r.amenities == input.amenities.GetOr([])
  {
    Room(input.title, input.roomType, input.description, input.price, input.capacity, input.amenities.GetOr([]), "available")
  }

  /** The fields an `updateRoom` request may carry; a missing field is left alone. */
  datatype RoomPatch = RoomPatch(
    title: Option<string>,
    roomType: Option<string>,
    description: Option<string>,
    price: Option<Cents>,
    capacity: Option<int>,
    amenities: Field<seq<string>>,
    status: Option<string>)

  predicate ValidRoomPatch(patch: RoomPatch) {
    && (patch.title.Some? ==> |patch.title.value| <= 255)
    && (patch.roomType.Some? ==> |patch.roomType.value| <= 100)
    && (patch.price.Some? ==> patch.price.value >= 0)
    && (patch.capacity.Some? ==> patch.capacity.value >= 1)
    && (patch.status.Some? ==> patch.status.value in RoomStatuses)
  }

  /** `$room->update($validated)`: the supplied fields replace the stored ones. */
  function Patched(room: Room, patch: RoomPatch): (r: Room)
    ensures r.price == patch.price.GetOr(room.price) && r.capacity == patch.capacity.GetOr(room.capacity)
    ensures r.status == patch.status.GetOr(room.status)
    ensures r.title == patch.title.GetOr(room.title) && r.roomType == patch.roomType.GetOr(room.roomType)
    ensures r.description == patch.description.GetOr(room.description)
    ensures r.amenities == match patch.amenities case Absent => room.amenities case Null => [] case Value(a) => a
  {
    Room(patch.title.GetOr(room.title), patch.roomType.GetOr(room.roomType), patch.description.GetOr(room.description),
         patch.price.GetOr(room.price), patch.capacity.GetOr(room.capacity),
         match patch.amenities case Absent => room.amenities case Null => [] case Value(a) => a,
         patch.status.GetOr(room.status))
  }

  /** A valid patch keeps a room's status among the three allowed ones, its price non-negative and capacity positive. */
  lemma PatchedKeepsRoomValid(room: Room, patch: RoomPatch)
    requires ValidRoomPatch(patch)
    requires room.status in RoomStatuses && room.price >= 0 && room.capacity >= 1
    ensures Patched(room, patch).status in RoomStatuses
    ensures Patched(room, patch).price >= 0 && Patched(room, patch).capacity >= 1
  {
  }

  /** Applying the same patch twice is the same as applying it once. */
  lemma PatchedIdempotent(room: Room, patch: RoomPatch)
    ensures Patched(Patched(room, patch), patch) == Patched(room, patch)
  {
  }
}
