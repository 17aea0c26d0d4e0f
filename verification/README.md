# Hotel booking core in Dafny

A model of the booking logic of the Irving travel-booking Django app, with
the database replaced by a value holding a sequence of rooms and a sequence
of reservations.

- **Availability engine** (`Room.is_available`): a room is free for the
  stay `check_in .. check_out` when its manual `available` flag is set and
  no pending or confirmed reservation of that room overlaps the stay under
  the half-open test `existing.check_out > check_in && existing.check_in < check_out`.
- **Derived reservation fields** (`Reservation.save`, `number_of_nights`):
  the 8-character confirmation code over `A-Z0-9` is filled in only when
  empty, and the total price is recomputed only when it is unset (zero) and
  the stay has a positive night count.
- **Request handlers** (`available_rooms`, `make_reservation`, `home`): the
  room search as an AND-composition of optional filters; the booking form
  as a transition from one database state to the next; the featured rooms
  as the three best-rated rooms with the flag set.

Modelling choices:

- Dates are integer day numbers and money is integer cents, so the day
  difference and the price product are exact.
- Ratings are `real`.
- Parsing a `YYYY-MM-DD` string is a function parameter `string -> Option<Day>`.
  The integer conversion the insert applies to the posted guest count is a
  second parameter `string -> Option<int>`; both sit in `Booking.Parsers`.
- The booking form is taken raw: a field the client did not send is `None`.
  A missing date ends the request with `MissingDate` (an unhandled type error).
  A guest count that does not convert is reported as `InvalidDates`, the
  same message as a malformed date.
- The insert enforces the reservation table's column rules
  (`Models.FitsColumns`): name up to 200 characters, email up to 254, phone
  up to 20, a guest count from 0 to 2^31 - 1, and a total of ten digits with
  two decimals. A missing name or email violates a not-null column. The
  model folds these database errors into one `RowRejected`.
- The random confirmation code is a parameter of type `Code`: 8 characters
  over `A-Z0-9`.
- The unique constraint on the code is `Database.Insert`, which fails on a
  taken code.

Files: `collections.dfy` (Option, order-preserving `Filter` and its fusion
lemmas), `models.dfy` (entities, codes, nights, `save`), `availability.dfy`,
`database.dfy` (store, integrity rules, room lookup, unique insert),
`search.dfy`, `booking.dfy`, `home.dfy`.

Two behaviours of the code are kept as written:

- A colliding confirmation code is not regenerated. The insert fails with
  an integrity error and nothing is stored (`Rejected(DuplicateCode)`).
- The booking handler never checks that check-out is after check-in. It
  always passes `price_per_night * nights` as the total, so a stay with zero
  or negative nights is stored with a zero or negative price
  (`Booking.InvertedStayAccepted`). An inverted stay occupies no night, yet
  it still blocks the range around it (`Availability.InvertedStayStillBlocks`).

## Model

| member | source | states |
|---|---|---|
| Models.NumberOfNights | reservations/models.py:109-113 | with both dates set, check-in plus the result is check-out; with either date missing the result is 0 |
| Models.NightsCountOccupiedNights | reservations/models.py:110-112 | for a stay that is not inverted, the night count equals the number of nights the guest occupies the room |
| Models.AssignCode | reservations/models.py:96-99 | after saving the code is never empty; an existing code is kept; an empty one becomes a well-formed 8-character A-Z0-9 code |
| Models.DerivedPrice | reservations/models.py:101-105 | the total becomes price per night times nights exactly when it was zero and the night count is positive; otherwise it is unchanged |
| Models.Save | reservations/models.py:95-107 | saving changes only the code and the total; an existing code is never replaced; an empty one takes the generated code; the total is derived only when unset with positive nights |
| Models.SaveIdempotent | reservations/models.py:95-105 | saving an already saved reservation changes nothing: the code is generated once and the price derived once |
| Models.SaveKeepsConsistentPrice | reservations/models.py:101-105 | a total already equal to price per night times nights (including zero or negative) survives saving |
| Models.PriceExample | reservations/models.py:102-105 | 120.00 a night from 2024-03-01 to 2024-03-04 is 3 nights and 360.00 |
| Availability.IsAvailable | reservations/models.py:57-65 | available iff the flag is set and no pending or confirmed reservation of the same room overlaps the half-open request |
| Availability.OverlapIsSharedNight | reservations/models.py:61-62 | the overlap test holds whenever the two stays share a night, and for proper stays only then |
| Availability.InvertedStayStillBlocks | reservations/models.py:61-63 | an active stay with check-out before check-in occupies no night but still blocks the range around it |
| Availability.NonConflictingIrrelevant | reservations/models.py:59-65 | adding a reservation that does not conflict, anywhere in the store, never changes availability |
| Availability.BackToBackNeverBlocks | reservations/models.py:61-62 | a stay ending on the requested check-in or starting on the requested check-out never blocks |
| Availability.InactiveNeverBlocks | reservations/models.py:63 | cancelled and completed reservations never block, whatever their dates |
| Availability.OtherRoomNeverBlocks | reservations/models.py:60 | reservations of other rooms never block |
| Availability.FlagOverridesCalendar | reservations/models.py:65 | with the flag cleared the room is unavailable for every range, even with no reservations |
| Database.FindRoom | reservations/views.py:67 | returns a room of the store with the key, and nothing exactly when no room has it |
| Database.FindRoomUnique | reservations/views.py:67 | with unique keys the lookup returns the one room that has the key |
| Database.FlaggedRooms | reservations/views.py:12 | exactly the rooms of the store with the flag set, a sub-multiset of the store |
| Database.Insert | reservations/models.py:76-87 | the insert fails with a column violation iff the row exceeds a column's width or range; otherwise with a unique violation iff some stored reservation has the code; otherwise it appends exactly this reservation and keeps rooms and earlier reservations |
| Database.InsertKeepsValid | reservations/models.py:76-87 | a successful insert keeps codes unique, every row within its columns and every reservation pointing at an existing room |
| Search.DateRange | reservations/views.py:23-35 | the date filter is on iff both dates are present, non-empty and parse, and then uses the parsed dates |
| Search.AvailableRooms | reservations/views.py:10-47 | every listed room has the flag set and comes from the store; the result is no longer than the store |
| Search.SearchIsOnePass | reservations/views.py:22-47 | the staged filters give the same rooms in the same order as one pass with the conjunction of all active filters |
| Search.SearchListsExactlyMatches | reservations/views.py:12-47 | a room is listed iff it is in the store, has the flag set and passes every active filter (dates, type equality, inclusive min and max price, capacity at least guests) |
| Search.DatesIgnoredUnlessBothParse | reservations/views.py:23-35 | if a date is missing, empty or malformed, the result is the one without dates, with the other filters still applied |
| Search.DateFilterIsAvailability | reservations/views.py:29-33 | with both dates parsed, a flagged room passing the other filters is listed iff it is available for those dates |
| Search.FiltersCombineExample | reservations/views.py:40-47 | rooms at 80, 120, 200 with capacities 6, 2, 4, filtered by min price 100 and 4 guests, leave only the room at 200 |
| Booking.ReadDates | reservations/views.py:80-82 | both dates are read iff both were sent and parse; otherwise the first failing read, check-in first, decides between a missing field and a malformed one |
| Booking.Reserve | reservations/views.py:84-105 | for a found room and read dates: unavailable iff the room is not free; invalid iff free but the guest count does not convert; row rejected iff the row breaks a column rule; duplicate iff only the code clashes; otherwise the confirmed reservation with the form's fields, default guest count 1, the generated code and price per night times nights is appended |
| Booking.MakeReservation | reservations/views.py:65-111 | each outcome arises exactly in its case: unknown room; a missing date; a malformed date or guest count (both "invalid dates"); unavailable room; a row the database refuses (missing name or email, text too long, negative or oversized guest count, total beyond the decimal column); taken code; booked. Every rejection leaves the store unchanged; a booking appends exactly one confirmed reservation with the form's guest fields, the parsed dates, the converted guest count, the generated code and price per night times nights |
| Booking.BookingSucceedsWhenFree | reservations/views.py:80-105 | room found, dates parsed, room free, guest count converted, row within the columns and code unused imply the booking goes through |
| Booking.BadGuestCountReportedAsDates | reservations/views.py:94-111 | a guest count that does not convert is reported as invalid dates, even with well-formed dates, and stores nothing |
| Booking.BookingKeepsValid | reservations/views.py:94-105 | every request keeps unique codes, unique room keys, rows within their columns and existing rooms for all reservations |
| Booking.BookingBlocksSharedNights | reservations/views.py:85-105 | after a booking the room is unavailable for every request sharing a night with the booked stay |
| Booking.RepeatBookingRejected | reservations/views.py:84-87 | posting the same proper stay again is rejected as unavailable and stores nothing |
| Booking.BookingKeepsOtherRooms | reservations/views.py:94-105 | a booking never changes the availability of another room |
| Booking.BookingKeepsBackToBack | reservations/views.py:94-105 | a booking never changes availability for a request starting on its check-out or ending on its check-in |
| Booking.InvertedStayAccepted | reservations/views.py:80-105 | a free room is booked even when check-out is not after check-in, at a zero or negative total |
| Home.InsertByRating | reservations/views.py:131 | inserting into a best-rated-first list keeps it ordered and adds exactly that room |
| Home.SortByRating | reservations/views.py:131 | the result is ordered best rated first and is a permutation of the input |
| Home.FeaturedRooms | reservations/views.py:131 | at most three rooms, as many as there are flagged rooms up to three, all flagged and from the store, best rated first |
| Home.FeaturedAreTopRated | reservations/views.py:131 | no flagged room left off the home page has a higher rating than a featured one |

## Left out

- Rendering, `messages`, `redirect` and the GET branch of the booking page are left out. The default dates there come from the clock.
- `reservation_success` is left out: it is a lookup and a render.
- The admin console and the sample-data command are left out. Both are declarative or fixed-data I/O.
- Settings are left out, apart from the choice of PostgreSQL, which enforces the column widths and the non-negative guest count that `Models.FitsColumns` states.
- The check-then-insert race between concurrent requests is left out. The model runs one request at a time.
- Random code generation is a parameter; its distribution is not modelled.
- Exact `strptime` semantics are not modelled; parsing is an abstract parameter.
- The source converts the numeric search parameters (`room_type`, `min_price`, `max_price`, `guests`) while building the query. A malformed value raises an uncaught error there. The model takes them already converted, with `None` for an absent or empty parameter.
- A present value such as `"0"` is truthy in the source, so it applies its filter; the model does the same with `Some(0)`.
- The database errors of a refused row (not-null, width, check constraint, numeric overflow) are one `RowRejected`; which of them the database names first is not modelled.
- The exact integer conversion of the guest count (signs, surrounding spaces) is not modelled; it is an abstract parameter.
- A total price of `None` before saving is folded into 0, which the price derivation treats the same way.
- Float rating arithmetic is left out, and so are the rating validators. Ratings are reals. The [0, 5] bound is a store invariant (`Database.Valid`) because the field validators enforce it on admin forms.
- The query ordering of equally rated rooms is unspecified, and so is the default `-created_at` ordering. Search keeps the store's order.
- Timestamps, images, amenities, the feature-flag booleans, `RoomType` and `Amenity` records, and `__str__` are left out; rooms carry a room-type key only.
- Cascading deletes are left out: no modelled operation deletes.
- `status` choices are not enforced by the database. The model uses the four-valued `Status`.
