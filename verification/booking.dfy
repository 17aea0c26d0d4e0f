/**
  The booking form handler: look the room up, read the two dates, re-check
  availability, convert the guest count, price the stay and insert a
  confirmed reservation under the database's column and uniqueness rules,
  as one sequential step from one database state to the next.
 */
module Booking {
  import opened Collections
  import opened Models
  import opened Availability
  import opened Database

  /**
    The posted form, field by field as the handler reads it: `None` is a
    field the client did not send. An absent phone number or special
    request reads as the empty string.
   */
  datatype BookingForm = BookingForm(
    guestName: Option<string>,
    guestEmail: Option<string>,
    guestPhone: string,
    checkIn: Option<string>,
    checkOut: Option<string>,
    guests: Option<string>,
    specialRequests: string)

  /**
    The conversions the request applies to raw strings: reading a
    `YYYY-MM-DD` date, and the integer conversion the insert applies to the
    guest count. Each yields `None` where it raises a value error.
   */
  datatype Parsers = Parsers(date: string -> Option<Day>, count: string -> Option<int>)

  datatype BookingError =
    | RoomNotFound     // no room has the requested key
    | MissingDate      // a date field was not sent; reading it raises an unhandled type error
    | InvalidDates     // a date or the guest count does not parse; both are reported as invalid dates
    | RoomUnavailable  // the room is taken or off sale for those dates
    | RowRejected      // the database refuses the row: a missing name or email, or a value beyond its column
    | DuplicateCode    // the generated code is already in use

  datatype BookingOutcome = Booked(reservation: Reservation) | Rejected(error: BookingError)

  /** The database after the request, and how the request ends. */
  datatype Step = Step(store: Store, outcome: BookingOutcome)

  /** Both date fields were sent and both parse. */
  predicate DatesParse(form: BookingForm, parsers: Parsers) {
    && form.checkIn.Some? && parsers.date(form.checkIn.value).Some?
    && form.checkOut.Some? && parsers.date(form.checkOut.value).Some?
  }

  /** The requested stay, as check-in and check-out days. */
  function Stay(form: BookingForm, parsers: Parsers): (Day, Day)
    requires DatesParse(form, parsers)
  {
    (parsers.date(form.checkIn.value).value, parsers.date(form.checkOut.value).value)
  }

  /**
    Reading the dates in order (check-in first) stops at a field that was
    not sent.
   */
  predicate DateMissing(form: BookingForm, parsers: Parsers) {
    form.checkIn.None? || (parsers.date(form.checkIn.value).Some? && form.checkOut.None?)
  }

  /**
    Reading the dates in order (check-in first) stops at a field that was
    sent but does not parse.
   */
  predicate DateMalformed(form: BookingForm, parsers: Parsers) {
    form.checkIn.Some?
    && (parsers.date(form.checkIn.value).None?
        || (form.checkOut.Some? && parsers.date(form.checkOut.value).None?))
  }

  /** The two dates as read, or the error the first failing read raises. */
  datatype DateReading = Read(checkIn: Day, checkOut: Day) | Unread(error: BookingError)

  /**
    Reads the check-in date, then the check-out date. The first field that
    was not sent gives `MissingDate`, the first that does not parse gives
    `InvalidDates`.
   */
  function ReadDates(form: BookingForm, parsers: Parsers): (d: DateReading)
    ensures d.Read? <==> DatesParse(form, parsers)
    ensures d.Read? ==> (d.checkIn, d.checkOut) == Stay(form, parsers)
    ensures d == Unread(MissingDate) <==> DateMissing(form, parsers)
    ensures d == Unread(InvalidDates) <==> DateMalformed(form, parsers)
    ensures d.Unread? ==> d.error == MissingDate || d.error == InvalidDates
  {
    match form.checkIn
    case None => Unread(MissingDate)
    case Some(rawIn) =>
      match parsers.date(rawIn)
      case None => Unread(InvalidDates)
      case Some(checkIn) =>
        match form.checkOut
        case None => Unread(MissingDate)
        case Some(rawOut) =>
          match parsers.date(rawOut)
          case None => Unread(InvalidDates)
          case Some(checkOut) => Read(checkIn, checkOut)
  }

  /** The guest count the insert stores: 1 when the field was not sent, else the converted field. */
  function GuestCount(form: BookingForm, parsers: Parsers): Option<int> {
    match form.guests
    case None => Some(1)
    case Some(raw) => parsers.count(raw)
  }

  /** The room was found, both dates parse, and the room is free for them. */
  predicate Free(s: Store, roomId: RoomId, form: BookingForm, parsers: Parsers) {
    && HasRoom(s.rooms, roomId)
    && DatesParse(form, parsers)
    && IsAvailable(FindRoom(s.rooms, roomId).value, s.reservations, Stay(form, parsers).0, Stay(form, parsers).1)
  }

  /**
    The row for a stay of `nights` nights in `room` with `guests` guests is
    one the database stores: name and email were sent, every text fits its
    column, the guest count is a non-negative integer of the column's range,
    and the total fits its decimal column.
   */
  predicate RowFits(room: Room, form: BookingForm, guests: int, nights: int) {
    && form.guestName.Some? && |form.guestName.value| <= NameMaxLength
    && form.guestEmail.Some? && |form.guestEmail.value| <= EmailMaxLength
    && |form.guestPhone| <= PhoneMaxLength
    && 0 <= guests <= IntegerMax
    && -PriceBound < room.pricePerNight * nights < PriceBound
  }

  /** Every check up to the insert passes and the row fits: only the unique code is left to decide. */
  predicate Storable(s: Store, roomId: RoomId, form: BookingForm, parsers: Parsers) {
    && Free(s, roomId, form, parsers)
    && GuestCount(form, parsers).Some?
    && RowFits(FindRoom(s.rooms, roomId).value, form, GuestCount(form, parsers).value,
               Stay(form, parsers).1 - Stay(form, parsers).0)
  }

  /**
    For the room the lookup finds and the stay the dates give, `Free` and
    `Storable` are the checks the handler makes on them.
   */
  lemma FoundRoomChecks(s: Store, roomId: RoomId, form: BookingForm, parsers: Parsers, room: Room,
                        checkIn: Day, checkOut: Day)
    requires FindRoom(s.rooms, roomId) == Some(room)
    requires DatesParse(form, parsers) && Stay(form, parsers) == (checkIn, checkOut)
    ensures Free(s, roomId, form, parsers) <==> IsAvailable(room, s.reservations, checkIn, checkOut)
    ensures Storable(s, roomId, form, parsers) <==>
              && IsAvailable(room, s.reservations, checkIn, checkOut)
              && GuestCount(form, parsers).Some?
              && RowFits(room, form, GuestCount(form, parsers).value, checkOut - checkIn)
  {
  }

  /** The reservation the form describes, before saving derives its code. */
  function Draft(room: Room, form: BookingForm, name: string, email: string, guests: int,
                 checkIn: Day, checkOut: Day): Reservation
  {
    Reservation(room.id, name, email, form.guestPhone, checkIn, checkOut,
                guests, room.pricePerNight * (checkOut - checkIn), form.specialRequests, Confirmed, "")
  }

  /**
    The handler once the room is found and both dates are read: re-check
    availability, convert the guest count, price the stay and insert a
    confirmed reservation.
   */
  function Reserve(s: Store, room: Room, form: BookingForm, parsers: Parsers, checkIn: Day, checkOut: Day,
                   generated: Code): (st: Step)
    ensures st.outcome.Rejected? ==> st.store == s
    ensures st.outcome == Rejected(RoomUnavailable) <==> !IsAvailable(room, s.reservations, checkIn, checkOut)
    ensures st.outcome == Rejected(InvalidDates) <==>
              IsAvailable(room, s.reservations, checkIn, checkOut) && GuestCount(form, parsers).None?
    ensures st.outcome == Rejected(RowRejected) <==>
              && IsAvailable(room, s.reservations, checkIn, checkOut) && GuestCount(form, parsers).Some?
              && !RowFits(room, form, GuestCount(form, parsers).value, checkOut - checkIn)
    ensures st.outcome == Rejected(DuplicateCode) <==>
              && IsAvailable(room, s.reservations, checkIn, checkOut) && GuestCount(form, parsers).Some?
              && RowFits(room, form, GuestCount(form, parsers).value, checkOut - checkIn)
              && CodeTaken(s.reservations, generated)
    ensures st.outcome != Rejected(RoomNotFound) && st.outcome != Rejected(MissingDate)
    ensures st.outcome.Booked? ==>
              var r := st.outcome.reservation;
              && st.store == Store(s.rooms, s.reservations + [r])
              && form.guestName.Some? && form.guestEmail.Some?
              && r == Reservation(room.id, form.guestName.value, form.guestEmail.value, form.guestPhone,
                                  checkIn, checkOut, GuestCount(form, parsers).value,
                                  room.pricePerNight * (checkOut - checkIn), form.specialRequests,
                                  Confirmed, generated)
  {
    if !IsAvailable(room, s.reservations, checkIn, checkOut) then
      Step(s, Rejected(RoomUnavailable))
    else
      match GuestCount(form, parsers)
      case None => Step(s, Rejected(InvalidDates))
      case Some(guests) =>
        if form.guestName.None? || form.guestEmail.None? then
          Step(s, Rejected(RowRejected))
        else
          var draft := Draft(room, form, form.guestName.value, form.guestEmail.value, guests, checkIn, checkOut);
          SaveKeepsConsistentPrice(draft, room.pricePerNight, generated);
          var saved := Save(draft, room.pricePerNight, generated);
          match Insert(s, saved)
          case ColumnViolation => Step(s, Rejected(RowRejected))
          case UniqueViolation => Step(s, Rejected(DuplicateCode))
          case Inserted(s') => Step(s', Booked(saved))
  }

  /**
    Handles one posted booking form for room `roomId`. `generated` is the
    code the random generator draws. Nothing checks that the check-out comes
    after the check-in.
   */
  function MakeReservation(s: Store, roomId: RoomId, form: BookingForm, parsers: Parsers, generated: Code): (st: Step)
    ensures st.outcome.Rejected? ==> st.store == s
    ensures st.outcome == Rejected(RoomNotFound) <==> !HasRoom(s.rooms, roomId)
    ensures st.outcome == Rejected(MissingDate) <==> HasRoom(s.rooms, roomId) && DateMissing(form, parsers)
    ensures st.outcome == Rejected(InvalidDates) <==>
              || (HasRoom(s.rooms, roomId) && DateMalformed(form, parsers))
              || (Free(s, roomId, form, parsers) && GuestCount(form, parsers).None?)
    ensures st.outcome == Rejected(RoomUnavailable) <==>
              && HasRoom(s.rooms, roomId)
              && DatesParse(form, parsers)
              && !IsAvailable(FindRoom(s.rooms, roomId).value, s.reservations,
                              Stay(form, parsers).0, Stay(form, parsers).1)
    ensures st.outcome == Rejected(RowRejected) <==>
              && Free(s, roomId, form, parsers)
              && GuestCount(form, parsers).Some?
              && !Storable(s, roomId, form, parsers)
    ensures st.outcome == Rejected(DuplicateCode) <==>
              Storable(s, roomId, form, parsers) && CodeTaken(s.reservations, generated)
    ensures st.outcome.Booked? <==> Storable(s, roomId, form, parsers) && !CodeTaken(s.reservations, generated)
    ensures st.outcome.Booked? ==>
              var r := st.outcome.reservation;
              && st.store == Store(s.rooms, s.reservations + [r])
              && r.room == roomId
              && (r.checkIn, r.checkOut) == Stay(form, parsers)
              && Some(r.guestName) == form.guestName && Some(r.guestEmail) == form.guestEmail
              && r.guestPhone == form.guestPhone
              && Some(r.guests) == GuestCount(form, parsers)
              && r.specialRequests == form.specialRequests
              && r.status == Confirmed
              && r.code == generated
              && r.totalPrice == FindRoom(s.rooms, roomId).value.pricePerNight * (r.checkOut - r.checkIn)
  {
    match FindRoom(s.rooms, roomId)
    case None => Step(s, Rejected(RoomNotFound))
    case Some(room) =>
      match ReadDates(form, parsers)
      case Unread(error) => Step(s, Rejected(error))
      case Read(checkIn, checkOut) =>
        FoundRoomChecks(s, roomId, form, parsers, room, checkIn, checkOut);
        Reserve(s, room, form, parsers, checkIn, checkOut, generated)
  }

  /**
    With the room free for the parsed dates, the guest count converted and
    the row within the columns, an unused code means the booking goes
    through.
   */
  lemma BookingSucceedsWhenFree(s: Store, roomId: RoomId, form: BookingForm, parsers: Parsers, generated: Code)
    requires Free(s, roomId, form, parsers)
    requires GuestCount(form, parsers).Some?
    requires RowFits(FindRoom(s.rooms, roomId).value, form, GuestCount(form, parsers).value,
                     Stay(form, parsers).1 - Stay(form, parsers).0)
    requires !CodeTaken(s.reservations, generated)
    ensures MakeReservation(s, roomId, form, parsers, generated).outcome.Booked?
  {
    assert Storable(s, roomId, form, parsers);
  }

  /**
    A guest count that does not convert is reported as invalid dates even
    when both dates are well formed, and nothing is stored.
   */
  lemma BadGuestCountReportedAsDates(s: Store, roomId: RoomId, form: BookingForm, parsers: Parsers, generated: Code)
    requires Free(s, roomId, form, parsers)
    requires form.guests.Some? && parsers.count(form.guests.value).None?
    ensures MakeReservation(s, roomId, form, parsers, generated) == Step(s, Rejected(InvalidDates))
  {
  }

  /** Every request leaves a valid database valid. */
  lemma BookingKeepsValid(s: Store, roomId: RoomId, form: BookingForm, parsers: Parsers, generated: Code)
    requires Valid(s)
    ensures Valid(MakeReservation(s, roomId, form, parsers, generated).store)
  {
    var st := MakeReservation(s, roomId, form, parsers, generated);
    if st.outcome.Booked? {
      var r := st.outcome.reservation;
      assert Insert(s, r) == Inserted(st.store);
      InsertKeepsValid(s, r);
    }
  }

  /**
    After a booking (a storable form and an unused code), the booked room is
    unavailable for every request that shares a night with the booked stay.
   */
  lemma BookingBlocksSharedNights(s: Store, roomId: RoomId, form: BookingForm, parsers: Parsers,
                                  generated: Code, checkIn: Day, checkOut: Day, night: Day)
    requires Storable(s, roomId, form, parsers) && !CodeTaken(s.reservations, generated)
    requires Occupies(Stay(form, parsers).0, Stay(form, parsers).1, night)
    requires Occupies(checkIn, checkOut, night)
    ensures !IsAvailable(FindRoom(s.rooms, roomId).value,
                         MakeReservation(s, roomId, form, parsers, generated).store.reservations, checkIn, checkOut)
  {
    var st := MakeReservation(s, roomId, form, parsers, generated);
    var r := st.outcome.reservation;
    assert r in st.store.reservations;
    assert Conflicts(r, roomId, checkIn, checkOut);
  }

  /**
    Posting the same form again after it was booked (a storable form and an
    unused code) is turned away as unavailable and stores nothing, whatever
    code is drawn the second time.
   */
  lemma RepeatBookingRejected(s: Store, roomId: RoomId, form: BookingForm, parsers: Parsers,
                              first: Code, second: Code)
    requires Storable(s, roomId, form, parsers) && !CodeTaken(s.reservations, first)
    requires Stay(form, parsers).0 < Stay(form, parsers).1
    ensures var s' := MakeReservation(s, roomId, form, parsers, first).store;
            && MakeReservation(s', roomId, form, parsers, second).outcome == Rejected(RoomUnavailable)
            && MakeReservation(s', roomId, form, parsers, second).store == s'
  {
    var checkIn := Stay(form, parsers).0;
    BookingBlocksSharedNights(s, roomId, form, parsers, first, checkIn, Stay(form, parsers).1, checkIn);
  }

  /** A booking leaves the availability of every other room unchanged. */
  lemma BookingKeepsOtherRooms(s: Store, roomId: RoomId, form: BookingForm, parsers: Parsers,
                               generated: Code, other: Room, checkIn: Day, checkOut: Day)
    requires other.id != roomId
    ensures IsAvailable(other, MakeReservation(s, roomId, form, parsers, generated).store.reservations, checkIn, checkOut)
         == IsAvailable(other, s.reservations, checkIn, checkOut)
  {
    var st := MakeReservation(s, roomId, form, parsers, generated);
    if st.outcome.Booked? {
      var r := st.outcome.reservation;
      OtherRoomNeverBlocks(other, s.reservations, r, [], checkIn, checkOut);
      assert s.reservations + [r] + [] == st.store.reservations;
      assert s.reservations + [] == s.reservations;
    }
  }

  /**
    A booking leaves the booked room's availability unchanged for a request
    that starts on the booked check-out day or ends on the booked check-in day.
   */
  lemma BookingKeepsBackToBack(s: Store, roomId: RoomId, form: BookingForm, parsers: Parsers,
                               generated: Code, room: Room, checkIn: Day, checkOut: Day)
    requires MakeReservation(s, roomId, form, parsers, generated).outcome.Booked?
    requires checkIn == Stay(form, parsers).1 || checkOut == Stay(form, parsers).0
    ensures IsAvailable(room, MakeReservation(s, roomId, form, parsers, generated).store.reservations, checkIn, checkOut)
         == IsAvailable(room, s.reservations, checkIn, checkOut)
  {
    var st := MakeReservation(s, roomId, form, parsers, generated);
    var r := st.outcome.reservation;
    BackToBackNeverBlocks(room, s.reservations, r, [], checkIn, checkOut);
    assert s.reservations + [r] + [] == st.store.reservations;
    assert s.reservations + [] == s.reservations;
  }

  /**
    A form whose check-out is not after its check-in is still booked when
    the room is free, at price per night times a zero or negative night
    count.
   */
  lemma InvertedStayAccepted(s: Store, roomId: RoomId, form: BookingForm, parsers: Parsers, generated: Code)
    requires Free(s, roomId, form, parsers)
    requires Stay(form, parsers).1 <= Stay(form, parsers).0
    requires GuestCount(form, parsers).Some?
    requires RowFits(FindRoom(s.rooms, roomId).value, form, GuestCount(form, parsers).value,
                     Stay(form, parsers).1 - Stay(form, parsers).0)
    requires !CodeTaken(s.reservations, generated)
    requires FindRoom(s.rooms, roomId).value.pricePerNight >= 0
    ensures MakeReservation(s, roomId, form, parsers, generated).outcome.Booked?
    ensures MakeReservation(s, roomId, form, parsers, generated).outcome.reservation.totalPrice <= 0
  {
    var room := FindRoom(s.rooms, roomId).value;
    var nights := Stay(form, parsers).1 - Stay(form, parsers).0;
    assert room.pricePerNight * nights <= 0;
  }
}
