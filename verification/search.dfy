/**
  The room search page: the rooms whose flag is set, narrowed by the optional
  filters of the query string, each applied only when its parameter is given.
 */
module Search {
  import opened Collections
  import opened Models
  import opened Availability
  import opened Database

  /**
    The query string. Dates are the raw strings the client sent; the other
    parameters arrive already converted, `None` standing for a parameter
    that is absent or empty.
   */
  datatype SearchQuery = SearchQuery(
    checkIn: Option<string>,
    checkOut: Option<string>,
    roomType: Option<RoomTypeId>,
    minPrice: Option<Cents>,
    maxPrice: Option<Cents>,
    guests: Option<int>)

  /** A parameter that is given and not empty. */
  predicate Present(p: Option<string>) {
    p.Some? && p.value != ""
  }

  /**
    The stay the date filter uses: only when both dates are given and both
    parse; a missing or malformed date switches the filter off.
   */
  function DateRange(q: SearchQuery, parse: string -> Option<Day>): (range: Option<(Day, Day)>)
    ensures range.Some? <==>
              Present(q.checkIn) && Present(q.checkOut)
              && parse(q.checkIn.value).Some? && parse(q.checkOut.value).Some?
    ensures range.Some? ==> range.value == (parse(q.checkIn.value).value, parse(q.checkOut.value).value)
  {
    if Present(q.checkIn) && Present(q.checkOut) then
      match (parse(q.checkIn.value), parse(q.checkOut.value))
      case (Some(checkIn), Some(checkOut)) => Some((checkIn, checkOut))
      case _ => None
    else
      None
  }

  /** What a room must satisfy to be listed: the flag and every filter that is switched on. */
  predicate Matches(store: Store, q: SearchQuery, parse: string -> Option<Day>, room: Room) {
    var range := DateRange(q, parse);
    && room.available
    && (range.Some? ==> IsAvailable(room, store.reservations, range.value.0, range.value.1))
    && (q.roomType.Some? ==> room.roomType == q.roomType.value)
    && (q.minPrice.Some? ==> room.pricePerNight >= q.minPrice.value)
    && (q.maxPrice.Some? ==> room.pricePerNight <= q.maxPrice.value)
    && (q.guests.Some? ==> room.capacity >= q.guests.value)
  }

  /** The stages of the staged search, one per optional filter. */
  predicate DateStage(rs: seq<Reservation>, checkIn: Day, checkOut: Day, room: Room) {
    IsAvailable(room, rs, checkIn, checkOut)
  }

  predicate TypeStage(t: RoomTypeId, room: Room) {
    room.roomType == t
  }

  predicate MinPriceStage(m: Cents, room: Room) {
    room.pricePerNight >= m
  }

  predicate MaxPriceStage(m: Cents, room: Room) {
    room.pricePerNight <= m
  }

  predicate GuestsStage(g: int, room: Room) {
    room.capacity >= g
  }

  /**
    The search, one stage after the other as the handler narrows its query.
    Every listed room comes from the store and has its flag set.
   */
  function AvailableRooms(store: Store, q: SearchQuery, parse: string -> Option<Day>): (r: seq<Room>)
    ensures forall room :: room in r ==> room.available
    ensures |r| <= |store.rooms|
    ensures multiset(r) <= multiset(store.rooms)
  {
    var range := DateRange(q, parse);
    var flagged := FlaggedRooms(store.rooms);
    var byDates :=
      if range.Some? then Filter(flagged, (room: Room) => DateStage(store.reservations, range.value.0, range.value.1, room))
      else flagged;
    var byType :=
      if q.roomType.Some? then Filter(byDates, (room: Room) => TypeStage(q.roomType.value, room))
      else byDates;
    var byMin :=
      if q.minPrice.Some? then Filter(byType, (room: Room) => MinPriceStage(q.minPrice.value, room))
      else byType;
    var byMax :=
      if q.maxPrice.Some? then Filter(byMin, (room: Room) => MaxPriceStage(q.maxPrice.value, room))
      else byMin;
    if q.guests.Some? then Filter(byMax, (room: Room) => GuestsStage(q.guests.value, room))
    else byMax
  }

  /**
    The staged search lists the same rooms, in the same order, as one pass
    over the store with the conjunction of all active filters.
   */
  lemma SearchIsOnePass(store: Store, q: SearchQuery, parse: string -> Option<Day>)
    ensures AvailableRooms(store, q, parse) == Filter(store.rooms, (room: Room) => Matches(store, q, parse, room))
  {
    var range := DateRange(q, parse);
    var rooms := store.rooms;
    var c0 := Flagged;
    var c1 := (room: Room) => c0(room)
              && (range.Some? ==> IsAvailable(room, store.reservations, range.value.0, range.value.1));
    var c2 := (room: Room) => c1(room) && (q.roomType.Some? ==> room.roomType == q.roomType.value);
    var c3 := (room: Room) => c2(room) && (q.minPrice.Some? ==> room.pricePerNight >= q.minPrice.value);
    var c4 := (room: Room) => c3(room) && (q.maxPrice.Some? ==> room.pricePerNight <= q.maxPrice.value);
    var c5 := (room: Room) => c4(room) && (q.guests.Some? ==> room.capacity >= q.guests.value);

    var flagged := FlaggedRooms(rooms);
    var byDates :=
      if range.Some? then Filter(flagged, (room: Room) => DateStage(store.reservations, range.value.0, range.value.1, room))
      else flagged;
    if range.Some? {
      FilterFuse(rooms, c0, (room: Room) => DateStage(store.reservations, range.value.0, range.value.1, room),
                 c1);
    } else {
      FilterCongruent(rooms, c0, c1);
    }
    assert byDates == Filter(rooms, c1);

    var byType :=
      if q.roomType.Some? then Filter(byDates, (room: Room) => TypeStage(q.roomType.value, room))
      else byDates;
    if q.roomType.Some? {
      FilterFuse(rooms, c1, (room: Room) => TypeStage(q.roomType.value, room), c2);
    } else {
      FilterCongruent(rooms, c1, c2);
    }
    assert byType == Filter(rooms, c2);

    var byMin :=
      if q.minPrice.Some? then Filter(byType, (room: Room) => MinPriceStage(q.minPrice.value, room))
      else byType;
    if q.minPrice.Some? {
      FilterFuse(rooms, c2, (room: Room) => MinPriceStage(q.minPrice.value, room), c3);
    } else {
      FilterCongruent(rooms, c2, c3);
    }
    assert byMin == Filter(rooms, c3);

    var byMax :=
      if q.maxPrice.Some? then Filter(byMin, (room: Room) => MaxPriceStage(q.maxPrice.value, room))
      else byMin;
    if q.maxPrice.Some? {
      FilterFuse(rooms, c3, (room: Room) => MaxPriceStage(q.maxPrice.value, room), c4);
    } else {
      FilterCongruent(rooms, c3, c4);
    }
    assert byMax == Filter(rooms, c4);

    if q.guests.Some? {
      FilterFuse(rooms, c4, (room: Room) => GuestsStage(q.guests.value, room), c5);
    } else {
      FilterCongruent(rooms, c4, c5);
    }
    FilterCongruent(rooms, c5, (room: Room) => Matches(store, q, parse, room));
  }

  /** A room is listed exactly when it is in the store and matches every filter that is switched on. */
  lemma SearchListsExactlyMatches(store: Store, q: SearchQuery, parse: string -> Option<Day>)
    ensures forall room :: room in AvailableRooms(store, q, parse) <==> room in store.rooms && Matches(store, q, parse, room)
  {
    SearchIsOnePass(store, q, parse);
  }

  /**
    Unless both dates are given and both parse, the dates play no part: the
    search answers as if they had not been sent, with every other filter in
    force.
   */
  lemma DatesIgnoredUnlessBothParse(store: Store, q: SearchQuery, parse: string -> Option<Day>)
    requires !Present(q.checkIn) || !Present(q.checkOut)
             || parse(q.checkIn.value).None? || parse(q.checkOut.value).None?
    ensures AvailableRooms(store, q, parse) == AvailableRooms(store, q.(checkIn := None, checkOut := None), parse)
  {
  }

  /**
    With both dates parsed, a room with the flag set that passes the other
    filters is listed exactly when it is available for those dates.
   */
  lemma DateFilterIsAvailability(store: Store, q: SearchQuery, parse: string -> Option<Day>, room: Room,
                                 checkIn: Day, checkOut: Day)
    requires Present(q.checkIn) && Present(q.checkOut)
    requires parse(q.checkIn.value) == Some(checkIn) && parse(q.checkOut.value) == Some(checkOut)
    requires room in store.rooms && room.available
    requires Matches(store, q.(checkIn := None, checkOut := None), parse, room)
    ensures room in AvailableRooms(store, q, parse) <==> IsAvailable(room, store.reservations, checkIn, checkOut)
  {
    SearchListsExactlyMatches(store, q, parse);
  }

  /**
    The filters combine with AND: of rooms priced 80, 120 and 200 a night
    with capacities 6, 2 and 4, a minimum price of 100 and 4 guests leave
    only the room priced 200.
   */
  lemma FiltersCombineExample(a: Room, b: Room, c: Room, parse: string -> Option<Day>)
    requires a.available && a.pricePerNight == 8000 && a.capacity == 6
    requires b.available && b.pricePerNight == 12000 && b.capacity == 2
    requires c.available && c.pricePerNight == 20000 && c.capacity == 4
    ensures AvailableRooms(Store([a, b, c], []), SearchQuery(None, None, None, Some(10000), None, Some(4)), parse) == [c]
  {
    var store := Store([a, b, c], []);
    var q := SearchQuery(None, None, None, Some(10000), None, Some(4));
    SearchIsOnePass(store, q, parse);
    var p := (room: Room) => Matches(store, q, parse, room);
    assert [a, b, c][1..] == [b, c];
    assert [b, c][1..] == [c];
    assert Filter([c], p) == [c];
    assert Filter([b, c], p) == [c];
  }
}
