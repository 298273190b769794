/**
 * The profile endpoints of the JSON API: the per-user booking summary, the
 * profile update and the password change.  The user-table updates are `Hotel`
 * methods.
 */
module Profile {
  import opened Tables

  /** `$user->bookings()`: the bookings whose user_id is the caller. */
  function Mine(bookings: map<nat, Booking>, userId: nat): set<nat> {
    Where(bookings, (b: Booking) => b.userId == Some(userId))
  }

  /** A booking that has not started before `today` and is not cancelled. */
  predicate Upcoming(b: Booking, today: Day) {
    b.checkIn >= today && b.status != Cancelled
  }

  function CompletedIds(bookings: map<nat, Booking>, userId: nat): set<nat> {
    set k | k in Mine(bookings, userId) && bookings[k].status == Completed
  }

  function UpcomingIds(bookings: map<nat, Booking>, userId: nat, today: Day): set<nat> {
    set k | k in Mine(bookings, userId) && Upcoming(bookings[k], today)
  }

  datatype Summary = Summary(total: nat, completed: nat, upcoming: nat)

  /** `bookingsSummary`: three counts over the caller's bookings. */
  function BookingsSummary(bookings: map<nat, Booking>, userId: nat, today: Day): (r: Summary)
    ensures r.total == |Mine(bookings, userId)|
    ensures r.completed == |CompletedIds(bookings, userId)|
    ensures r.upcoming == |UpcomingIds(bookings, userId, today)|
  {
    Summary(|Mine(bookings, userId)|, |CompletedIds(bookings, userId)|, |UpcomingIds(bookings, userId, today)|)
  }

  /** Neither the completed nor the upcoming count exceeds the total. */
  lemma SummaryBounded(bookings: map<nat, Booking>, userId: nat, today: Day)
    ensures BookingsSummary(bookings, userId, today).completed <= BookingsSummary(bookings, userId, today).total
    ensures BookingsSummary(bookings, userId, today).upcoming <= BookingsSummary(bookings, userId, today).total
  {
    SubsetCount(CompletedIds(bookings, userId), Mine(bookings, userId));
    SubsetCount(UpcomingIds(bookings, userId, today), Mine(bookings, userId));
  }

  /**
   * Cancelling one of the caller's bookings, or letting its check-in day pass,
   * takes it out of the upcoming count and leaves the total as it was.
   */
  lemma {:induction false} NoLongerUpcoming(bookings: map<nat, Booking>, userId: nat, today: Day, k: nat, b: Booking)
    requires k in bookings && bookings[k].userId == Some(userId) && Upcoming(bookings[k], today)
    requires b.userId == Some(userId) && (b.status == Cancelled || b.checkIn < today)
    ensures BookingsSummary(bookings[k := b], userId, today).total == BookingsSummary(bookings, userId, today).total
    ensures BookingsSummary(bookings[k := b], userId, today).upcoming + 1 == BookingsSummary(bookings, userId, today).upcoming
  {
    var after := bookings[k := b];
    assert Mine(after, userId) == Mine(bookings, userId);
    assert UpcomingIds(after, userId, today) == UpcomingIds(bookings, userId, today) - {k};
  }

  /** The fields `update` takes from the request; a missing phone is left alone. */
  datatype ProfileUpdate = ProfileUpdate(name: string, email: string, phone: Field<string>)

  /** The validation of `update`: the name and phone lengths, and no other user with the e-mail. */
  predicate ValidProfileUpdate(users: map<nat, User>, self: nat, upd: ProfileUpdate) {
    && |upd.name| <= 255
    && (upd.phone.Value? ==> |upd.phone.value| <= 20)
    && forall k :: k in users && k != self ==> users[k].email != upd.email
  }

  /** `$user->update($request->only('name', 'email', 'phone'))`. */
  function UpdatedProfile(u: User, upd: ProfileUpdate): (r: User)
    ensures r.name == upd.name && r.email == upd.email
    ensures r.phone == match upd.phone case Absent => u.phone case Null => None case Value(p) => Some(p)
    ensures r.password == u.password && r.usertype == u.usertype
  {
    u.(name := upd.name, email := upd.email,
       phone := match upd.phone case Absent => u.phone case Null => None case Value(p) => Some(p))
  }

  /** No two users share an e-mail. */
  ghost predicate UniqueEmails(users: map<nat, User>) {
    forall i, j :: i in users && j in users && users[i].email == users[j].email ==> i == j
  }

  /** A validated profile update keeps e-mails unique. */
  lemma UpdateKeepsEmailsUnique(users: map<nat, User>, self: nat, upd: ProfileUpdate)
    requires UniqueEmails(users) && self in users && ValidProfileUpdate(users, self, upd)
    ensures UniqueEmails(users[self := UpdatedProfile(users[self], upd)])
  {
  }

  /**
   * The validation of `changePassword`: a current password that is present and
   * not empty, and a new one of at least 6 characters, confirmed.
   */
  predicate ValidPasswordChange(currentPassword: Option<string>, newPassword: string, confirmation: string) {
    currentPassword.Some? && currentPassword.value != "" && |newPassword| >= 6 && newPassword == confirmation
  }

  /**
   * `changePassword`: 422 when the request fails validation or `Hash::check` of the
   * current one fails (`currentMatches`), else the user with the new hash.
   */
  function ChangedPassword(u: User, currentPassword: Option<string>, newPassword: string, confirmation: string,
                           currentMatches: bool, newHash: string): (r: Result<User>)
    ensures r.Err? <==> !ValidPasswordChange(currentPassword, newPassword, confirmation) || !currentMatches
    ensures r.Err? ==> r.code == Unprocessable
    ensures r.Ok? ==> r.value.password == newHash && r.value.(password := u.password) == u
  {
    if !ValidPasswordChange(currentPassword, newPassword, confirmation) || !currentMatches then Err(Unprocessable)
    else Ok(u.(password := newHash))
  }
}
