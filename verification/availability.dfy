/**
  The availability engine: whether a room can be booked for the requested
  stay `checkIn .. checkOut`, given every reservation in the store.
 */
module Availability {
  import opened Collections
  import opened Models

  /**
    The half-open overlap test of the query: the existing stay ends after the
    requested check-in and starts before the requested check-out.
   */
  predicate Overlaps(r: Reservation, checkIn: Day, checkOut: Day) {
    r.checkOut > checkIn && r.checkIn < checkOut
  }

  /** An active reservation of the same room whose stay overlaps the request. */
  predicate Conflicts(r: Reservation, roomId: RoomId, checkIn: Day, checkOut: Day) {
    r.room == roomId && Blocks(r.status) && Overlaps(r, checkIn, checkOut)
  }

  /**
    The room is free for the request exactly when no reservation conflicts
    with it and the room's manual flag is set.
   */
  function IsAvailable(room: Room, rs: seq<Reservation>, checkIn: Day, checkOut: Day): (b: bool)
    ensures b <==> room.available && forall r :: r in rs ==> !Conflicts(r, room.id, checkIn, checkOut)
  {
    var overlapping := Filter(rs, (r: Reservation) => Conflicts(r, room.id, checkIn, checkOut));
    assert |overlapping| > 0 ==> overlapping[0] in overlapping;
    |overlapping| == 0 && room.available
  }

  /**
    The overlap test agrees with sharing a night: a shared night always means
    overlap, and for two stays that are not empty or inverted overlap means a
    shared night.
   */
  lemma OverlapIsSharedNight(r: Reservation, checkIn: Day, checkOut: Day)
    ensures (exists d :: Occupies(r.checkIn, r.checkOut, d) && Occupies(checkIn, checkOut, d))
            ==> Overlaps(r, checkIn, checkOut)
    ensures (r.checkIn < r.checkOut && checkIn < checkOut && Overlaps(r, checkIn, checkOut))
            ==> exists d :: Occupies(r.checkIn, r.checkOut, d) && Occupies(checkIn, checkOut, d)
  {
    if r.checkIn < r.checkOut && checkIn < checkOut && Overlaps(r, checkIn, checkOut) {
      var d := if r.checkIn < checkIn then checkIn else r.checkIn;
      assert Occupies(r.checkIn, r.checkOut, d) && Occupies(checkIn, checkOut, d);
    }
  }

  /**
    An active stay whose check-out precedes its check-in occupies no night at
    all, yet it still blocks the range around it.
   */
  lemma InvertedStayStillBlocks(room: Room, r: Reservation)
    requires r.room == room.id && Blocks(r.status) && r.checkOut < r.checkIn
    ensures forall d :: !Occupies(r.checkIn, r.checkOut, d)
    ensures !IsAvailable(room, [r], r.checkOut - 1, r.checkIn + 1)
  {
    assert Conflicts(r, room.id, r.checkOut - 1, r.checkIn + 1);
  }

  /**
    A reservation that does not conflict with the request can be added
    anywhere in the store without changing the answer.
   */
  lemma NonConflictingIrrelevant(room: Room, before: seq<Reservation>, r: Reservation, after: seq<Reservation>,
                                 checkIn: Day, checkOut: Day)
    requires !Conflicts(r, room.id, checkIn, checkOut)
    ensures IsAvailable(room, before + [r] + after, checkIn, checkOut)
         == IsAvailable(room, before + after, checkIn, checkOut)
  {
  }

  /** A stay ending on the requested check-in, or starting on the requested check-out, never blocks. */
  lemma BackToBackNeverBlocks(room: Room, before: seq<Reservation>, r: Reservation, after: seq<Reservation>,
                              checkIn: Day, checkOut: Day)
    requires r.checkOut == checkIn || r.checkIn == checkOut
    ensures IsAvailable(room, before + [r] + after, checkIn, checkOut)
         == IsAvailable(room, before + after, checkIn, checkOut)
  {
    NonConflictingIrrelevant(room, before, r, after, checkIn, checkOut);
  }

  /** Cancelled and completed reservations never block, whatever their dates. */
  lemma InactiveNeverBlocks(room: Room, before: seq<Reservation>, r: Reservation, after: seq<Reservation>,
                            checkIn: Day, checkOut: Day)
    requires r.status == Cancelled || r.status == Completed
    ensures IsAvailable(room, before + [r] + after, checkIn, checkOut)
         == IsAvailable(room, before + after, checkIn, checkOut)
  {
    NonConflictingIrrelevant(room, before, r, after, checkIn, checkOut);
  }

  /** Reservations of other rooms never block. */
  lemma OtherRoomNeverBlocks(room: Room, before: seq<Reservation>, r: Reservation, after: seq<Reservation>,
                             checkIn: Day, checkOut: Day)
    requires r.room != room.id
    ensures IsAvailable(room, before + [r] + after, checkIn, checkOut)
         == IsAvailable(room, before + after, checkIn, checkOut)
  {
    NonConflictingIrrelevant(room, before, r, after, checkIn, checkOut);
  }

  /** A room whose flag is cleared is unavailable for every range, even with no reservations. */
  lemma FlagOverridesCalendar(room: Room, rs: seq<Reservation>, checkIn: Day, checkOut: Day)
    requires !room.available
    ensures !IsAvailable(room, rs, checkIn, checkOut)
    ensures !IsAvailable(room, [], checkIn, checkOut)
  {
  }
}
