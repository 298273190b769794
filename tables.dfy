/**
 * The database tables of the hotel application, as in-memory values.
 *
 * Every table is a map from its auto-increment primary key to a row.  Keys are
 * handed out in creation order, so "newest first" (orderBy created_at desc) is
 * "highest key first", and `first()` on an unordered query is the lowest key.
 * Dates are day ordinals; `decimal:2` money columns are integer cents.
 */
module Tables {

  datatype Option<T> = None | Some(value: T) {
    function GetOr(default: T): T {
      match this
      case Some(v) => v
      case None => default
    }
  }

  /** A request field: missing from the request, sent as null, or sent with a value. */
  datatype Field<T> = Absent | Null | Value(value: T)

  datatype Result<T> = Ok(value: T) | Err(code: int)

  type Day = int
  type Cents = int

  // HTTP status codes the controllers answer with
  const Unauthenticated := 401
  const Forbidden := 403
  const NotFound := 404
  const Unprocessable := 422
  const ServerError := 500

  // Booking.status values written by the code
  const Confirmed := "confirmed"
  const Cancelled := "cancelled"
  const Completed := "completed"
  const PaidStatusPaid := "paid"
  const Admin := "admin"

  datatype User = User(name: string, email: string, phone: Option<string>, usertype: string, password: string)

  datatype Room = Room(
    title: string,
    roomType: string,
    description: string,
    price: Cents,
    capacity: int,
    amenities: seq<string>,  // a null JSON column reads as []
    status: string)

  datatype Booking = Booking(
    userId: Option<nat>,
    roomId: Option<nat>,     // bookings made through the JSON API carry no room
    bookingId: string,       // the public booking reference
    firstName: string,
    lastName: string,
    email: string,
    phone: string,
    roomType: string,
    checkIn: Day,
    checkOut: Day,
    guests: int,
    nights: int,
    rate: Cents,
    total: Cents,
    status: string,
    paidStatus: string,      // "" stands for a column the code never wrote
    paid: bool,
    paymentRef: string)

  datatype Payment = Payment(
    bookingId: string,       // refers to Booking.bookingId, not to the booking's key
    paymentMethod: string,
    cardholderName: string,
    cardLastFour: string,
    amount: Cents,
    status: string,
    billingAddress: string,
    city: string,
    zipCode: string,
    country: string,
    userEmail: Option<string>,
    transactionId: string,
    proofFile: Option<string>,
    verifiedAt: Option<int>,
    verifiedComment: Option<string>)

  datatype Review = Review(
    userId: Option<nat>,
    roomId: nat,
    bookingId: nat,          // refers to the booking's key
    rating: int,
    comment: Option<string>,
    verifiedBooking: bool)

  /** Every key of `m` is below `next`: the table's auto-increment counter is ahead of its rows. */
  ghost predicate KeysBelow<T>(m: map<nat, T>, next: nat) {
    forall k :: k in m ==> k < next
  }

  lemma {:induction false} MinExists(ids: set<nat>)
    requires ids != {}
    ensures exists m :: m in ids && forall k :: k in ids ==> m <= k
    decreases ids
  {
    var x :| x in ids;
    if ids - {x} != {} {
      MinExists(ids - {x});
      var m :| m in ids - {x} && forall k :: k in ids - {x} ==> m <= k;
      var low := if x < m then x else m;
      forall k | k in ids ensures low <= k {
        if k != x { assert k in ids - {x}; }
      }
    } else {
      assert ids == {x};
    }
  }

  lemma {:induction false} MaxExists(ids: set<nat>)
    requires ids != {}
    ensures exists m :: m in ids && forall k :: k in ids ==> k <= m
    decreases ids
  {
    var x :| x in ids;
    if ids - {x} != {} {
      MaxExists(ids - {x});
      var m :| m in ids - {x} && forall k :: k in ids - {x} ==> k <= m;
      var high := if m < x then x else m;
      forall k | k in ids ensures k <= high {
        if k != x { assert k in ids - {x}; }
      }
    } else {
      assert ids == {x};
    }
  }

  /** The row `first()` returns from a query matching `ids`: the lowest key, if any. */
  function Lowest(ids: set<nat>): (r: Option<nat>)
    ensures r.None? <==> ids == {}
    ensures r.Some? ==> r.value in ids && forall k :: k in ids ==> r.value <= k
  {
    if ids == {} then None
    else
      MinExists(ids);
      var m :| m in ids && forall k :: k in ids ==> m <= k;
      Some(m)
  }

  function Highest(ids: set<nat>): (m: nat)
    requires ids != {}
    ensures m in ids && forall k :: k in ids ==> k <= m
  {
    MaxExists(ids);
    var m :| m in ids && forall k :: k in ids ==> k <= m;
    m
  }

  /** The keys of a query result ordered newest first: every key once, strictly descending. */
  function NewestFirst(ids: set<nat>): (r: seq<nat>)
    ensures |r| == |ids|
    ensures forall k :: k in ids <==> k in r
    ensures forall i, j :: 0 <= i < j < |r| ==> r[i] > r[j]
    decreases ids
  {
    if ids == {} then []
    else
      var m := Highest(ids);
      [m] + NewestFirst(ids - {m})
  }

  /** The first `n` keys of a strictly descending sequence are newer than every key after them. */
  lemma DescendingPrefixIsNewest(s: seq<nat>, n: nat)
    requires n <= |s|
    requires forall i, j :: 0 <= i < j < |s| ==> s[i] > s[j]
    ensures forall k :: k in s && k !in s[..n] ==> forall j :: j in s[..n] ==> k < j
  {
    forall k, j | k in s && k !in s[..n] && j in s[..n] ensures k < j {
      var a :| 0 <= a < |s| && s[a] == k;
      var b :| 0 <= b < n && s[..n][b] == j;
      assert a >= n;
    }
  }

  /** The keys of the rows of `rows` that satisfy `keep` (a `where` clause). */
  function Where<T>(rows: map<nat, T>, keep: T -> bool): (r: set<nat>)
    ensures forall k :: k in r <==> k in rows && keep(rows[k])
  {
    set k | k in rows && keep(rows[k])
  }

  /** `sum(column)` over the rows with keys in `ids`, visiting them lowest key first. */
  function SumOver<T>(rows: map<nat, T>, ids: set<nat>, column: T -> int): int
    requires ids <= rows.Keys
    decreases ids
  {
    match Lowest(ids)
    case None => 0
    case Some(m) => column(rows[m]) + SumOver(rows, ids - {m}, column)
  }

  /** A sum of a column that is at least `lo` on every row is at least |ids|*lo. */
  lemma {:induction false} SumOverAtLeast<T>(rows: map<nat, T>, ids: set<nat>, column: T -> int, lo: int)
    requires ids <= rows.Keys
    requires forall k :: k in ids ==> lo <= column(rows[k])
    ensures |ids| * lo <= SumOver(rows, ids, column)
    decreases ids
  {
    match Lowest(ids)
    case None =>
    case Some(m) =>
      SumOverAtLeast(rows, ids - {m}, column, lo);
      var n := |ids - {m}|;
      assert |ids| == n + 1;
      assert (n + 1) * lo == n * lo + lo;
  }

  /** A sum of a column that is at most `hi` on every row is at most |ids|*hi. */
  lemma {:induction false} SumOverAtMost<T>(rows: map<nat, T>, ids: set<nat>, column: T -> int, hi: int)
    requires ids <= rows.Keys
    requires forall k :: k in ids ==> column(rows[k]) <= hi
    ensures SumOver(rows, ids, column) <= |ids| * hi
    decreases ids
  {
    match Lowest(ids)
    case None =>
    case Some(m) =>
      SumOverAtMost(rows, ids - {m}, column, hi);
      var n := |ids - {m}|;
      assert |ids| == n + 1;
      assert (n + 1) * hi == n * hi + hi;
  }

  /** Counting the rows of a narrower query never gives more than a wider one. */
  lemma {:induction false} SubsetCount(a: set<nat>, b: set<nat>)
    requires a <= b
    ensures |a| <= |b|
    decreases b
  {
    if a != {} {
      var x :| x in a;
      SubsetCount(a - {x}, b - {x});
    }
  }
}
