# Hotel booking back end: a Dafny model

This project models the core of a Laravel hotel booking application. It covers:

- the room availability check of the `Room` model;
- the room listing and availability calendar of the JSON room endpoints;
- the booking, payment, proof-upload and proof-verification endpoints;
- the legacy web payment page;
- reviews, the admin back office, and the user profile endpoints.

The database is held in memory. Every table is a map from its auto-increment key to a row. Keys are handed out in creation order, so "newest first" (`orderBy('created_at', 'desc')`) is modelled as "highest key first". An unordered `first()` returns the lowest key. Dates are whole days. `decimal:2` money columns are integer cents.

The modules are:

- `Tables` — the row types, the query helpers (`where`, `first`, `sum`, newest-first ordering) and the HTTP status codes.
- `Availability` — `Room::isAvailable` and `Room::averageRating`.
- `RoomCatalog` — the room listing filters, `checkAvailability`, and the calendar's day-stepping loop with its de-duplication.
- `BookingApi`, `Payments`, `WebBooking`, `Reviews`, `AdminPanel`, `Profile` — what each controller computes, as pure functions over the tables, with the properties proved about them.
- `HotelState` — class `Hotel`. It holds the tables as fields and has one method per endpoint that writes to them. Each method answers with the controller's HTTP status. Each states the whole new table state through the functions above and keeps the invariant `Valid()`:
  - keys stay below the counters;
  - each booking has at most one review;
  - every rating is in 1..5;
  - no two users share an e-mail;
  - every room has an allowed status, a non-negative price and a capacity of at least 1.

The availability query treats two stays that touch on a day as conflicting. It is built from SQL `BETWEEN`, which is inclusive at both ends, so a stay ending on the day another starts conflicts with it (`Availability.TouchingBlocks`). The calendar, in contrast, expands each stay to the half-open day set [check-in, check-out). `RoomCatalog.CheckoutDayFreeYetRefused` shows the two disagree on the check-out day.

## Model

| member | source | states |
|---|---|---|
| Tables.NewestFirst | app/Http/Controllers/Api/BookingController.php:95-97 | the ordered result holds each selected key exactly once, strictly newest first |
| Tables.Lowest | app/Http/Controllers/Api/BookingController.php:110 | `first()` finds a row iff the query matches one, and returns the lowest matching key |
| Availability.ThreeWayIsClosedOverlap | app/Models/Room.php:45-52 | when both ranges are well formed, the three OR'd tests hold iff the stay and the range overlap as closed intervals |
| Availability.ClosedOverlapConflicts | app/Models/Room.php:45-52 | closed overlap always satisfies the three-way test, even for ill-formed ranges |
| Availability.ConflictsIsHalfOpenOrTouching | app/Models/Room.php:46-51 | for non-empty ranges the test is half-open overlap plus touching at either end |
| Availability.AvailableIffNoClosedOverlap | app/Models/Room.php:40-56 | when the requested range and every stored stay have check-in <= check-out, a room is available iff no paid, non-cancelled booking of that room overlaps the closed range |
| Availability.NoBookingsAvailable | app/Models/Room.php:53-55 | a room with no bookings is available for every range |
| Availability.CancelledIgnored | app/Models/Room.php:43 | a cancelled booking does not affect availability, whatever its dates |
| Availability.UnpaidIgnored | app/Models/Room.php:44 | a booking whose paid_status is not "paid" does not affect availability |
| Availability.OtherRoomIgnored | app/Models/Room.php:42 | a booking of another room, or of no room, does not affect availability |
| Availability.RemovalKeepsAvailable | app/Models/Room.php:42-55 | deleting bookings never turns an available room unavailable |
| Availability.CancellingKeepsAvailable | app/Models/Room.php:43 | cancelling a booking never turns an available room unavailable |
| Availability.TouchingBlocks | app/Models/Room.php:46-47 | an occupying stay that ends on the requested check-in day blocks the room |
| Availability.NestedBlocks | app/Models/Room.php:48-51 | for an occupying stay with check-in <= check-out, a range inside it, or one that encloses it, is refused |
| Availability.AverageRating | app/Models/Room.php:58-61 | the average rating is 0 when the room has no reviews |
| Availability.AverageRatingInRange | app/Models/Room.php:60 | when all ratings are in 1..5, a reviewed room's average is in 1..5 |
| RoomCatalog.WhereHasAmenities | app/Http/Controllers/Api/RoomController.php:37-45 | one JSON-contains filter per amenity keeps exactly the rooms having every requested amenity |
| RoomCatalog.Index | app/Http/Controllers/Api/RoomController.php:16-45 | a room is listed iff it is "available" and passes each supplied filter: type, inclusive price range (only when both bounds are given), minimum capacity, amenities |
| RoomCatalog.OneSidedPriceIgnored | app/Http/Controllers/Api/RoomController.php:24-29 | a single price bound has no effect on the listing |
| RoomCatalog.UnfilteredListsAvailableRooms | app/Http/Controllers/Api/RoomController.php:16 | with no filters the listing is exactly the rooms whose status is "available" |
| RoomCatalog.CheckAvailability | app/Http/Controllers/Api/RoomController.php:114-134 | 422 iff the room is unknown, check-in is before today, or check-out is not after check-in; otherwise the answer is `Availability.IsAvailable` of the range: "available" means no occupying booking of the room overlaps the closed range, and "unavailable" means one conflicts |
| RoomCatalog.StayDays | app/Http/Controllers/Api/RoomController.php:155-161 | the loop yields the days d with check_in <= d < check_out in order; it yields none when check_in >= check_out |
| RoomCatalog.AppendUnique | app/Http/Controllers/Api/RoomController.php:164-166 | de-duplicating the flattened days keeps first occurrences, adds each new day once and loses none |
| RoomCatalog.BookedDates | app/Http/Controllers/Api/RoomController.php:150-166 | the booked dates have no duplicates, and a day is booked iff a paid, non-cancelled booking of the room covers it half-open |
| RoomCatalog.AvailabilityCalendar | app/Http/Controllers/Api/RoomController.php:139-175 | 422 for a month outside 1..12 or a year before 2024, then 404 for an unknown room; month and year are echoed (the current ones when absent) and do not restrict the booked dates |
| RoomCatalog.BookedDayUnavailable | app/Http/Controllers/Api/RoomController.php:156-161 | a day shown as booked makes the room unavailable for the range [d, d+1] |
| RoomCatalog.CheckoutDayFreeYetRefused | app/Http/Controllers/Api/RoomController.php:158 | the check-out day of a room's only occupying stay shows as free, yet a stay starting that day is refused |
| BookingApi.OwnerFor | app/Http/Controllers/Api/BookingController.php:39-46 | the new booking's owner is a user whose e-mail equals userEmail when one exists, and none otherwise; userId is not consulted |
| BookingApi.NewBooking | app/Http/Controllers/Api/BookingController.php:45-60 | the new row is "confirmed", unpaid, with no payment reference and no room, and copies the reference, names, e-mail, phone, room type, dates, guests, nights, rate and total from the request |
| BookingApi.NewBookingNeverBlocks | app/Http/Controllers/Api/BookingController.php:45-60 | creating a booking never changes any room's availability |
| BookingApi.UserBookings | app/Http/Controllers/Api/BookingController.php:84-103 | 401 iff anonymous; otherwise exactly the caller's bookings, newest first |
| BookingApi.ByReference | app/Http/Controllers/Api/BookingController.php:110 | finds a booking iff one carries the reference, and returns the first such booking |
| BookingApi.Show | app/Http/Controllers/Api/BookingController.php:108-123 | 404 iff no booking carries the reference |
| Payments.TransactionId | app/Http/Controllers/Api/PaymentController.php:35 | the id is 21 characters: "TXN" followed by digits only |
| Payments.TransactionIdDecodes | app/Http/Controllers/Api/PaymentController.php:35 | the year, month, day, hour, minute, second and the random suffix can each be read back from the id |
| Payments.CardPayment | app/Http/Controllers/Api/PaymentController.php:38-51 | the card payment row copies every request field (status, amount, booking reference, method, cardholder, last four digits, billing address, city, zip code, country, and the user e-mail or none), carries the generated transaction id, and has no proof, verification time or comment |
| Payments.ProofPayment | app/Http/Controllers/Api/PaymentController.php:173-180 | the proof payment is a "bank_transfer" in "pending_verification" for the booking's total |
| Payments.MarkPaid | app/Http/Controllers/Api/PaymentController.php:54-57 | only the first booking with the reference changes, and only its paid_status, which becomes "paid"; with no such booking nothing changes |
| Payments.MarkPaidIdempotent | app/Http/Controllers/Api/PaymentController.php:56-57 | marking paid twice equals marking paid once |
| Payments.MarkPaidPays | app/Http/Controllers/Api/PaymentController.php:54-57 | when some booking carries the reference, after marking one such booking has paid_status "paid" |
| Payments.Decide | app/Http/Controllers/Api/PaymentController.php:224-243 | verifying sets "verified" and the time; rejecting sets "rejected" and keeps the time; both store the comment and touch no other field |
| Payments.DecideRepeatable | app/Http/Controllers/Api/PaymentController.php:221-243 | repeating a decision gives the same row as deciding once at the later time |
| Payments.ByBooking | app/Http/Controllers/Api/PaymentController.php:86-101 | 404 iff no payment carries the reference; otherwise exactly the payments that do |
| WebBooking.DeniedOnlyStrangers | app/Http/Controllers/BookingController.php:30-34 | anonymous callers and admins pass; only a logged-in non-admin whose e-mail differs from the booking's is refused |
| WebBooking.ShowPayment | app/Http/Controllers/BookingController.php:25-37 | 404 for an unknown booking; the payment page iff the permission rule lets the caller through, else a redirect back |
| WebBooking.MyBookings | app/Http/Controllers/BookingController.php:12-22 | a redirect to login iff anonymous; otherwise exactly the bookings with the caller's e-mail, newest first |
| WebBooking.UpperHexRoundTrip | app/Http/Controllers/BookingController.php:57 | reading the upper-case hex back gives the random bytes |
| WebBooking.PaymentRef | app/Http/Controllers/BookingController.php:57 | the reference is "PAY-" followed by 8 upper-case hex digits that encode the 4 random bytes |
| WebBooking.PaymentRefInjective | app/Http/Controllers/BookingController.php:57 | different random bytes give different references |
| Reviews.NewReview | app/Http/Controllers/Api/ReviewController.php:72-79 | the new review belongs to the caller, is a verified booking, and carries the given room, booking, rating and comment |
| Reviews.AddKeepsOnePerBooking | app/Http/Controllers/Api/ReviewController.php:63-79 | adding a review for a booking without one keeps at most one review per booking |
| Reviews.AddDuplicateBreaksOnePerBooking | app/Http/Controllers/Api/ReviewController.php:63-70 | adding a second review for a booking breaks the rule, which is why store refuses it |
| Reviews.RoomReviews | app/Http/Controllers/Api/ReviewController.php:15-20 | exactly the reviews of the room, newest first |
| AdminPanel.DashboardFigures | app/Http/Controllers/Api/AdminController.php:31-65 | 403 iff not admin; otherwise the booking and room counts, the non-admin user count, the pending-verification count, the verified revenue, and the 5 newest bookings, newest first |
| AdminPanel.DashboardCountsBounded | app/Http/Controllers/Api/AdminController.php:39-42 | the non-admin user count is below the user count (the caller is an admin), and the pending count is at most the payment count |
| AdminPanel.RevenueNonNegative | app/Http/Controllers/Api/AdminController.php:38 | with non-negative amounts, the verified revenue is non-negative |
| AdminPanel.ListBookings | app/Http/Controllers/Api/AdminController.php:231-270 | 403 iff not admin; otherwise the bookings passing the status and paid_status filters, each applied only when supplied, newest first |
| AdminPanel.ApplyPrices | app/Http/Controllers/Api/AdminController.php:398-400 | the bulk update keeps the set of rooms |
| AdminPanel.UnlistedRoomUnchanged | app/Http/Controllers/Api/AdminController.php:398-400 | a room that no entry names is unchanged |
| AdminPanel.LastEntryWins | app/Http/Controllers/Api/AdminController.php:398-400 | a listed room ends with the price of its last entry, and all its other columns unchanged |
| AdminPanel.NewRoom | app/Http/Controllers/Api/AdminController.php:102-136 | a created room is "available" and carries the given title, type, description, price, capacity and amenities ([] when none) |
| AdminPanel.Patched | app/Http/Controllers/Api/AdminController.php:157-182 | each supplied field replaces the stored one; a missing field keeps it; null amenities become [] |
| AdminPanel.PatchedKeepsRoomValid | app/Http/Controllers/Api/AdminController.php:157-170 | a validated patch keeps the status in {available, unavailable, maintenance}, the price >= 0 and the capacity >= 1 |
| AdminPanel.PatchedIdempotent | app/Http/Controllers/Api/AdminController.php:182 | applying the same patch twice equals applying it once |
| Profile.BookingsSummary | app/Http/Controllers/Api/UserProfileController.php:105-124 | total, completed and upcoming count the caller's bookings, the completed ones, and the non-cancelled ones from today on |
| Profile.SummaryBounded | app/Http/Controllers/Api/UserProfileController.php:109-114 | completed <= total and upcoming <= total |
| Profile.NoLongerUpcoming | app/Http/Controllers/Api/UserProfileController.php:111-114 | cancelling an upcoming booking, or moving its check-in before today, lowers the upcoming count by one and keeps the total |
| Profile.UpdatedProfile | app/Http/Controllers/Api/UserProfileController.php:52 | the update sets name and e-mail, sets the phone only when sent (null clears it), and keeps password and usertype |
| Profile.UpdateKeepsEmailsUnique | app/Http/Controllers/Api/UserProfileController.php:39-52 | a validated profile update keeps e-mails unique across users |
| Profile.ChangedPassword | app/Http/Controllers/Api/UserProfileController.php:69-100 | 422 iff the current password is missing or empty, the new password is shorter than 6 or unconfirmed, or the current-password check fails; otherwise only the password hash changes |
| HotelState.Hotel.StoreBooking | app/Http/Controllers/Api/BookingController.php:17-79 | 422 on invalid input and 500 without userEmail, both changing nothing; otherwise exactly one new booking at the next key |
| HotelState.Hotel.StorePayment | app/Http/Controllers/Api/PaymentController.php:17-81 | 422 or 500 change nothing; otherwise one new card payment, and the bookings marked paid as by `MarkPaid` |
| HotelState.Hotel.UploadProof | app/Http/Controllers/Api/PaymentController.php:150-201 | 422 for an unknown reference, 500 when anonymous, 403 iff the caller does not own the booking, and 201 for its owner; only 201 inserts, and it inserts only the proof payment |
| HotelState.Hotel.VerifyProof | app/Http/Controllers/Api/PaymentController.php:206-256 | 403 for non-admins and 422 for an unknown payment, both changing nothing; otherwise the decision is recorded, and the booking is marked paid only when verified |
| HotelState.Hotel.ProcessPayment | app/Http/Controllers/BookingController.php:40-62 | 404, the redirect for a stranger, and a missing card number change nothing; otherwise paid = true, status = "paid" and a fresh reference, with paid_status untouched |
| HotelState.Hotel.StoreReview | app/Http/Controllers/Api/ReviewController.php:45-90 | a review is created iff the input is valid, the booking and room exist, the caller owns the booking, and the booking has no review; an owner's second review is refused with 422; every refusal changes nothing |
| HotelState.Hotel.UpdateReview | app/Http/Controllers/Api/ReviewController.php:95-121 | 422, 404, 403 in that order change nothing; otherwise only that review's rating and comment change |
| HotelState.Hotel.DestroyReview | app/Http/Controllers/Api/ReviewController.php:126-143 | 404 and 403 change nothing; otherwise exactly that review is removed |
| HotelState.Hotel.CreateRoom | app/Http/Controllers/Api/AdminController.php:102-144 | 403 for non-admins and 422 for invalid input change nothing; otherwise one new room at the next key |
| HotelState.Hotel.UpdateRoom | app/Http/Controllers/Api/AdminController.php:149-196 | 403, then 404, then 422, each changing nothing; otherwise only that room changes, by the patch |
| HotelState.Hotel.DeleteRoom | app/Http/Controllers/Api/AdminController.php:201-226 | 403 and 404 change nothing; otherwise exactly that room is removed |
| HotelState.Hotel.UpdatePrices | app/Http/Controllers/Api/AdminController.php:385-413 | 403 for non-admins; 422 unless the list is non-empty and every entry names an existing room with a price >= 0, changing nothing; otherwise the loop leaves the rooms equal to `ApplyPrices` of the old rooms |
| HotelState.Hotel.UpdateProfile | app/Http/Controllers/Api/UserProfileController.php:35-64 | 500 when anonymous and 422 on invalid input change nothing; otherwise only the caller's name, e-mail and phone change |
| HotelState.Hotel.ChangePassword | app/Http/Controllers/Api/UserProfileController.php:69-100 | 422 when the current password is missing or empty or the new password is invalid (before the anonymous 500), 422 on a failed current-password check, and 500 for an anonymous caller with a valid request, change nothing; otherwise only the caller's password hash changes |
| Availability.Occupying | app/Models/Room.php:43-44 | a booking counts against a room iff it is not cancelled and its paid_status is "paid" |
| Availability.Conflicts | app/Models/Room.php:45-52 | the three OR'd range tests of the availability query, with inclusive `BETWEEN` |
| Availability.IsAvailable | app/Models/Room.php:40-56 | no booking of the room is occupying and conflicting |
| RoomCatalog.BookedDay | app/Http/Controllers/Api/RoomController.php:150-161 | a day lies in [check-in, check-out) of an occupying booking of the room |
| WebBooking.MayPay | app/Http/Controllers/BookingController.php:30-34 | a guest, an admin, or the user whose e-mail is the booking's may open the payment page |
| AdminPanel.IsAdmin | app/Http/Controllers/Api/AdminController.php:19-26 | a logged-in caller whose usertype is "admin" |
| BookingApi.ValidBookingRequest | app/Http/Controllers/Api/BookingController.php:20-35 | the length, range and ordering rules of the booking validation |
| Payments.ValidPaymentRequest | app/Http/Controllers/Api/PaymentController.php:19-31 | the amount and length rules of the payment validation |
| Reviews.ValidReviewInput | app/Http/Controllers/Api/ReviewController.php:47-52 | a rating in 1..5 and a comment of at most 1000 characters |
| AdminPanel.ValidRoomInput | app/Http/Controllers/Api/AdminController.php:108-120 | the title and type lengths, the non-negative price and the capacity of at least 1 of the room creation validation |
| AdminPanel.ValidRoomPatch | app/Http/Controllers/Api/AdminController.php:157-170 | the title and type lengths, the non-negative price, the capacity of at least 1 and the allowed status of the room update validation, on the fields that are sent |
| AdminPanel.ValidPriceUpdates | app/Http/Controllers/Api/AdminController.php:391-395 | a non-empty list of existing rooms with non-negative prices |
| Profile.ValidProfileUpdate | app/Http/Controllers/Api/UserProfileController.php:39-43 | the name and phone lengths, and no other user with the e-mail |
| Profile.ValidPasswordChange | app/Http/Controllers/Api/UserProfileController.php:71-74 | a present, non-empty current password and a confirmed new password of at least 6 characters |
| AdminPanel.RecentBookings | app/Http/Controllers/Api/AdminController.php:43 | the five newest bookings (all when fewer), strictly newest first, and every booking left out is older than every one kept |

## Left out

- Notifications (`NotificationService`, `Notification`): each is an insert wrapped in try/catch and logging, with no effect on the modelled tables.
- Authentication and registration (`AuthController`): the user table is given to the `Hotel` constructor. Password hashing (`Hash::check`, `Hash::make`) is passed in as a boolean and a hash string.
- The clock and randomness are parameters:
  - today's date;
  - the current month and year;
  - the `date('YmdHis')` reading;
  - the `random_int(1000, 9999)` suffix;
  - the `random_bytes(4)` bytes.
- Admin `reports`, `listRooms`, `listUsers` and `pendingPayments`: read-only aggregate and listing queries whose substance is pagination and JSON shaping.
- Pagination, JSON response shaping, room `show`, the payment `show` and `userPayments` lookups, and float casts and rounding of prices and ratings.
- File storage: the proof image and room images. The stored proof path is a parameter, and the image validation rules are not modelled.
- Room display columns (`image`, `wifi`, `air_conditioning`, `tv`, `bathroom_type`): they are not read by any modelled rule.
- AdminPanel.ValidRoomInput and AdminPanel.ValidRoomPatch: the `bathroom_type` rule (at most 50 characters) and the `wifi`, `air_conditioning` and `tv` boolean rules are not modelled. A request that breaks them gets 422 from the code, and the model accepts it.
- Database constraint failures are not modelled. These are a duplicate `booking_id`, foreign keys, and NOT NULL columns that an insert leaves empty, each surfacing as a 500.
- Column width and range are not modelled. Examples are the `decimal(10,2)` money columns `rate`, `total` and `amount`, and the 255-character `booking_id`, `room_type`, `payment_method` and `card_last_four` columns, which the validation does not bound. Money is unbounded cents and strings are unbounded. HotelState.Hotel.StoreBooking and HotelState.Hotel.StorePayment therefore answer 201 for an out-of-range or over-long value, where a strict-mode database fails the insert and the code answers 500.
- `app/Models/Booking.php` ends with a stray closing brace, which is a PHP parse error. The model takes the class as intended. As written, every endpoint that loads the `Booking` model would end in an uncaught error (a 500), because `catch (\Exception $e)` does not catch a parse error. These include the availability check, the calendar, the booking, payment, proof and review endpoints, the web booking pages and the profile summary.
- HotelState.Hotel.UploadProof: the proof payment insert is modelled as succeeding. With the payments table as its migrations create it, `transaction_id`, `cardholder_name`, `card_last_four`, `billing_address`, `city`, `zip_code` and `country` are NOT NULL without a default, so every such insert fails and the upload answers 500.
- The e-mail format rule and the date-format rules of validation are not modelled.
- `required` rejecting an empty value is modelled only for `card_number` of the web payment, `current_password` of the password change and the `updates` list of the bulk price update. Elsewhere the model accepts an empty string that the code refuses with 422.
- SQL collation: MySQL compares strings case-insensitively and ignores trailing spaces, in `where` and in `unique`. The model compares e-mails, booking references and statuses exactly.
- A room listing filter sent as null still passes `has()`. The code then filters `room_type` on IS NULL and reads a null price or capacity as 0. The model takes every sent filter to carry a value.
- A JSON string sent as `amenities` to the room listing is treated as already decoded.
- `booked_dates` are day numbers rather than `Y-m-d` strings, and their order is not specified.
- Refunds: no code computes `refund_amount` or `cancelled_at`, so no refund rule is modelled.
- PHP strict comparison of a database integer with a string id (`!==` in the ownership checks) is taken as comparison of the ids.
- Browser scripts and the HTTP test scripts are not part of this model.
- Profile.BookingsSummary: an anonymous call (a 500 in the code) is not modelled; the function takes the caller's id.
- Tables.NewestFirst: ordering by creation time is modelled as ordering by key, which assumes keys follow creation order.
