/**
 * The payment endpoints of the JSON API: the records they write and the
 * booking update they make.  The table updates themselves are `Hotel` methods.
 */
module Payments {
  import opened Tables
  import opened BookingApi

  const BankTransfer := "bank_transfer"
  const PendingVerification := "pending_verification"
  const Verified := "verified"
  const Rejected := "rejected"

  function Pow10(width: nat): (p: nat)
    ensures p >= 1
  {
    if width == 0 then 1 else 10 * Pow10(width - 1)
  }

  predicate AllDigits(s: string) {
    forall i :: 0 <= i < |s| ==> '0' <= s[i] <= '9'
  }

  /** The number a string of decimal digits spells. */
  function DigitsValue(s: string): nat
    requires AllDigits(s)
  {
    if s == [] then 0 else 10 * DigitsValue(s[..|s| - 1]) + (s[|s| - 1] as int - '0' as int)
  }

  /** `n` in decimal, left-padded with zeros to `width` digits (a `date()` field such as `m` or `His`). */
  function PadDigits(n: nat, width: nat): (s: string)
    requires n < Pow10(width)
    ensures |s| == width && AllDigits(s)
  {
    if width == 0 then ""
    else
      assert n / 10 < Pow10(width - 1);
      PadDigits(n / 10, width - 1) + [('0' as int + n % 10) as char]
  }

  /** Reading back a padded number gives the number. */
  lemma {:induction false} PadDigitsRoundTrip(n: nat, width: nat)
    requires n < Pow10(width)
    ensures DigitsValue(PadDigits(n, width)) == n
  {
    if width > 0 {
      var s := PadDigits(n, width);
      assert s[..|s| - 1] == PadDigits(n / 10, width - 1);
      PadDigitsRoundTrip(n / 10, width - 1);
    }
  }

  /** The clock reading `date('YmdHis')` formats. */
  datatype Timestamp = Timestamp(year: nat, month: nat, day: nat, hour: nat, minute: nat, second: nat)

  predicate ValidTimestamp(t: Timestamp) {
    1000 <= t.year <= 9999 && 1 <= t.month <= 12 && 1 <= t.day <= 31 && t.hour < 24 && t.minute < 60 && t.second < 60
  }

  /** `'TXN' . date('YmdHis') . random_int(1000, 9999)`. */
  function TransactionId(t: Timestamp, suffix: nat): (id: string)
    requires ValidTimestamp(t) && 1000 <= suffix <= 9999
    ensures |id| == 21 && id[..3] == "TXN" && AllDigits(id[3..])
  {
    var id := "TXN" + PadDigits(t.year, 4) + PadDigits(t.month, 2) + PadDigits(t.day, 2) +
              PadDigits(t.hour, 2) + PadDigits(t.minute, 2) + PadDigits(t.second, 2) + PadDigits(suffix, 4);
    id
  }

  /** Where each field sits in a transaction id. */
  lemma TransactionIdLayout(y: string, mo: string, d: string, h: string, mi: string, s: string, x: string)
    requires |y| == 4 && |mo| == 2 && |d| == 2 && |h| == 2 && |mi| == 2 && |s| == 2 && |x| == 4
    ensures var id := "TXN" + y + mo + d + h + mi + s + x;
      && id[3..7] == y && id[7..9] == mo && id[9..11] == d
      && id[11..13] == h && id[13..15] == mi && id[15..17] == s && id[17..] == x
  {
  }

  /** Every field of the clock reading, and the random suffix, can be read back from the transaction id. */
  lemma TransactionIdDecodes(t: Timestamp, suffix: nat)
    requires ValidTimestamp(t) && 1000 <= suffix <= 9999
    ensures var id := TransactionId(t, suffix);
      && DigitsValue(id[3..7]) == t.year && DigitsValue(id[7..9]) == t.month && DigitsValue(id[9..11]) == t.day
      && DigitsValue(id[11..13]) == t.hour && DigitsValue(id[13..15]) == t.minute && DigitsValue(id[15..17]) == t.second
      && DigitsValue(id[17..]) == suffix
  {
    TransactionIdLayout(PadDigits(t.year, 4), PadDigits(t.month, 2), PadDigits(t.day, 2),
                        PadDigits(t.hour, 2), PadDigits(t.minute, 2), PadDigits(t.second, 2), PadDigits(suffix, 4));
    PadDigitsRoundTrip(t.year, 4);
    PadDigitsRoundTrip(t.month, 2);
    PadDigitsRoundTrip(t.day, 2);
    PadDigitsRoundTrip(t.hour, 2);
    PadDigitsRoundTrip(t.minute, 2);
    PadDigitsRoundTrip(t.second, 2);
    PadDigitsRoundTrip(suffix, 4);
  }

  /** The validated fields of a card payment. */
  datatype PaymentRequest = PaymentRequest(
    bookingId: string,
    paymentMethod: string,
    cardholderName: string,
    cardLastFour: string,
    amount: Cents,
    status: string,
    billingAddress: string,
    city: string,
    zipCode: string,
    country: string,
    userEmail: Field<string>)

  /** The validation rules of `store` (the e-mail format rule is not modelled). */
  predicate ValidPaymentRequest(req: PaymentRequest) {
    && req.amount >= 0
    && |req.cardholderName| <= 255
    && |req.billingAddress| <= 255
    && |req.city| <= 100
    && |req.zipCode| <= 20
    && |req.country| <= 100
  }

  /** The row `store` inserts: the request's fields, with whatever status the request carries. */
  function CardPayment(req: PaymentRequest, transactionId: string): (p: Payment)
    requires req.userEmail != Absent
    ensures p.status == req.status && p.amount == req.amount && p.bookingId == req.bookingId
    ensures p.transactionId == transactionId && p.proofFile.None? && p.verifiedAt.None? && p.verifiedComment.None?
    ensures p.paymentMethod == req.paymentMethod && p.cardholderName == req.cardholderName
    ensures p.cardLastFour == req.cardLastFour && p.billingAddress == req.billingAddress
    ensures p.city == req.city && p.zipCode == req.zipCode && p.country == req.country
    ensures p.userEmail == (if req.userEmail.Value? then Some(req.userEmail.value) else None)
  {
    Payment(req.bookingId, req.paymentMethod, req.cardholderName, req.cardLastFour, req.amount, req.status,
            req.billingAddress, req.city, req.zipCode, req.country,
            if req.userEmail.Value? then Some(req.userEmail.value) else None,
            transactionId, None, None, None)
  }

  /** The row `uploadProof` inserts: a bank transfer awaiting verification, for the booking's total. */
  function ProofPayment(b: Booking, userEmail: string, proofPath: string): (p: Payment)
    ensures p.status == PendingVerification && p.paymentMethod == BankTransfer
    ensures p.amount == b.total && p.bookingId == b.bookingId
    ensures p.proofFile == Some(proofPath) && p.userEmail == Some(userEmail)
  {
    Payment(b.bookingId, BankTransfer, "", "", b.total, PendingVerification, "", "", "", "",
            Some(userEmail), "", Some(proofPath), None, None)
  }

  /**
   * Set `paid_status = 'paid'` on the first booking carrying the reference; every
   * other booking, and every other field, is left as it was.
   */
  function MarkPaid(bookings: map<nat, Booking>, bookingId: string): (r: map<nat, Booking>)
    ensures r.Keys == bookings.Keys
    ensures ByReference(bookings, bookingId).None? ==> r == bookings
    ensures ByReference(bookings, bookingId).Some? ==>
      var k := ByReference(bookings, bookingId).value;
      r[k] == bookings[k].(paidStatus := PaidStatusPaid) && forall j :: j in bookings && j != k ==> r[j] == bookings[j]
  {
    match ByReference(bookings, bookingId)
    case None => bookings
    case Some(k) => bookings[k := bookings[k].(paidStatus := PaidStatusPaid)]
  }

  /** Marking a booking paid twice is the same as marking it once. */
  lemma MarkPaidIdempotent(bookings: map<nat, Booking>, bookingId: string)
    ensures MarkPaid(MarkPaid(bookings, bookingId), bookingId) == MarkPaid(bookings, bookingId)
  {
    var once := MarkPaid(bookings, bookingId);
    match ByReference(bookings, bookingId)
    case None =>
    case Some(k) =>
      var k' := ByReference(once, bookingId).value;
      assert k' <= k;
      assert once[k'].bookingId == bookingId;
      assert k <= k';
  }

  /** After `MarkPaid`, a booking carrying the reference is paid. */
  lemma MarkPaidPays(bookings: map<nat, Booking>, bookingId: string)
    requires exists k :: k in bookings && bookings[k].bookingId == bookingId
    ensures exists k :: k in MarkPaid(bookings, bookingId) &&
                        MarkPaid(bookings, bookingId)[k].bookingId == bookingId &&
                        MarkPaid(bookings, bookingId)[k].paidStatus == PaidStatusPaid
  {
    var k := ByReference(bookings, bookingId).value;
    assert MarkPaid(bookings, bookingId)[k].bookingId == bookingId;
  }

  /** The payment row after the admin's decision on a proof. */
  function Decide(p: Payment, verified: bool, comment: Option<string>, now: int): (q: Payment)
    ensures q.status == (if verified then Verified else Rejected)
    ensures q.verifiedComment == comment
    ensures q.verifiedAt == (if verified then Some(now) else p.verifiedAt)
    ensures q.(status := p.status, verifiedAt := p.verifiedAt, verifiedComment := p.verifiedComment) == p
  {
    if verified then p.(status := Verified, verifiedAt := Some(now), verifiedComment := comment)
    else p.(status := Rejected, verifiedComment := comment)
  }

  /** Repeating a decision leaves the same status and comment: the prior status is never consulted. */
  lemma DecideRepeatable(p: Payment, verified: bool, comment: Option<string>, t1: int, t2: int)
    ensures Decide(Decide(p, verified, comment, t1), verified, comment, t2).status == Decide(p, verified, comment, t1).status
    ensures Decide(Decide(p, verified, comment, t1), verified, comment, t2) == Decide(p, verified, comment, t2)
  {
  }

  /** `getByBooking`: the payments for a booking reference, or 404 when there are none. */
  function ByBooking(payments: map<nat, Payment>, bookingId: string): (r: Result<set<nat>>)
    ensures r.Err? <==> forall k :: k in payments ==> payments[k].bookingId != bookingId
    ensures r.Err? ==> r.code == NotFound
    ensures r.Ok? ==> forall k :: k in r.value <==> k in payments && payments[k].bookingId == bookingId
  {
    var found := Where(payments, (p: Payment) => p.bookingId == bookingId);
    if found == {} then
      assert forall k :: k in payments ==> k !in found;
      Err(NotFound)
    else Ok(found)
  }
}
