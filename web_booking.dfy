/**
 * The server-rendered booking pages: the caller's booking list, the payment page
 * and the demo card payment.  The booking update itself is a `Hotel` method.
 */
module WebBooking {
  import opened Tables

  /** What a page request ends in. */
  datatype Page =
    | RedirectToLogin
    | RedirectBackUnauthorized
    | ValidationFailed
    | BookingList(ids: seq<nat>)
    | PaymentPage(id: nat)
    | RedirectToMyBookings(paymentRef: string)

  /**
   * The permission rule of `showPayment` and `processPayment`: a logged-in caller
   * must be an admin or own the booking's e-mail; an anonymous caller is let through.
   */
  predicate MayPay(users: map<nat, User>, caller: Option<nat>, b: Booking) {
    caller.Some? && caller.value in users ==>
      users[caller.value].usertype == Admin || users[caller.value].email == b.email
  }

  /** Access is denied only to a logged-in caller who is neither admin nor the booking's e-mail owner. */
  lemma DeniedOnlyStrangers(users: map<nat, User>, caller: Option<nat>, b: Booking)
    ensures caller.None? ==> MayPay(users, caller, b)
    ensures caller.Some? && caller.value in users && users[caller.value].usertype == Admin ==> MayPay(users, caller, b)
    ensures !MayPay(users, caller, b) ==>
      caller.Some? && users[caller.value].usertype != Admin && users[caller.value].email != b.email
  {
  }

  /** `showPayment`: 404 for an unknown booking, a redirect for a stranger, else the payment page. */
  function ShowPayment(users: map<nat, User>, bookings: map<nat, Booking>, caller: Option<nat>, id: nat): (r: Result<Page>)
    ensures r.Err? <==> id !in bookings
    ensures r.Err? ==> r.code == NotFound
    ensures r.Ok? ==> (r.value == PaymentPage(id) <==> MayPay(users, caller, bookings[id]))
    ensures r.Ok? ==> r.value == PaymentPage(id) || r.value == RedirectBackUnauthorized
  {
    if id !in bookings then Err(NotFound)
    else if !MayPay(users, caller, bookings[id]) then Ok(RedirectBackUnauthorized)
    else Ok(PaymentPage(id))
  }

  /** `index`: the bookings whose e-mail is the caller's, newest first; anonymous callers go to login. */
  function MyBookings(users: map<nat, User>, bookings: map<nat, Booking>, caller: Option<nat>): (p: Page)
    requires caller.Some? ==> caller.value in users
    ensures p.RedirectToLogin? <==> caller.None?
    ensures p.BookingList? ==> forall k :: k in p.ids <==> k in bookings && bookings[k].email == users[caller.value].email
    ensures p.BookingList? ==> forall i, j :: 0 <= i < j < |p.ids| ==> p.ids[i] > p.ids[j]
    ensures caller.Some? ==> p.BookingList?
  {
    match caller
    case None => RedirectToLogin
    case Some(u) =>
      var email := users[u].email;
      BookingList(NewestFirst(Where(bookings, (b: Booking) => b.email == email)))
  }

  type Byte = x: int | 0 <= x < 256

  function HexDigit(n: nat): (c: char)
    requires n < 16
  {
    if n < 10 then ('0' as int + n) as char else ('A' as int + n - 10) as char
  }

  predicate IsUpperHex(c: char) {
    '0' <= c <= '9' || 'A' <= c <= 'F'
  }

  function HexValue(c: char): (n: nat)
    requires IsUpperHex(c)
    ensures n < 16
  {
    if c <= '9' then c as int - '0' as int else c as int - 'A' as int + 10
  }

  lemma HexDigitRoundTrip(n: nat)
    requires n < 16
    ensures IsUpperHex(HexDigit(n)) && HexValue(HexDigit(n)) == n
  {
  }

  predicate AllUpperHex(s: string) {
    forall i :: 0 <= i < |s| ==> IsUpperHex(s[i])
  }

  /** One byte as two upper-case hex digits, high nibble first. */
  function ByteHex(b: Byte): (s: string)
    ensures |s| == 2 && AllUpperHex(s)
    ensures HexValue(s[0]) * 16 + HexValue(s[1]) == b
  {
    HexDigitRoundTrip(b / 16);
    HexDigitRoundTrip(b % 16);
    [HexDigit(b / 16), HexDigit(b % 16)]
  }

  /** `strtoupper(bin2hex(bytes))`. */
  function UpperHex(bytes: seq<Byte>): (s: string)
    ensures |s| == 2 * |bytes| && AllUpperHex(s)
  {
    if bytes == [] then "" else ByteHex(bytes[0]) + UpperHex(bytes[1..])
  }

  /** Reads pairs of upper-case hex digits back into bytes. */
  function ParseHex(s: string): seq<Byte>
    requires |s| % 2 == 0 && AllUpperHex(s)
  {
    if s == [] then [] else [HexValue(s[0]) * 16 + HexValue(s[1])] + ParseHex(s[2..])
  }

  /** Hex encoding loses nothing: parsing it back gives the bytes. */
  lemma {:induction false} UpperHexRoundTrip(bytes: seq<Byte>)
    ensures ParseHex(UpperHex(bytes)) == bytes
  {
    if bytes != [] {
      var s := UpperHex(bytes);
      assert s[2..] == UpperHex(bytes[1..]);
      UpperHexRoundTrip(bytes[1..]);
    }
  }

  /** `'PAY-' . strtoupper(bin2hex(random_bytes(4)))`: the reference shown after a demo payment. */
  function PaymentRef(bytes: seq<Byte>): (r: string)
    requires |bytes| == 4
    ensures |r| == 12 && r[..4] == "PAY-"
    ensures AllUpperHex(r[4..]) && ParseHex(r[4..]) == bytes
  {
    UpperHexRoundTrip(bytes);
    var r := "PAY-" + UpperHex(bytes);
    assert r[4..] == UpperHex(bytes);
    r
  }

  /** Distinct random bytes give distinct references. */
  lemma PaymentRefInjective(a: seq<Byte>, b: seq<Byte>)
    requires |a| == 4 && |b| == 4 && PaymentRef(a) == PaymentRef(b)
    ensures a == b
  {
  }
}
