/**
  The database as a value: the rooms and the reservations, with the
  integrity rules the schema enforces (primary keys, the foreign key from a
  reservation to its room, the column widths and ranges, the unique
  confirmation code) and the two room lookups the request handlers make.
 */
module Database {
  import opened Collections
  import opened Models

  datatype Store = Store(rooms: seq<Room>, reservations: seq<Reservation>)

  predicate RoomIdsUnique(rooms: seq<Room>) {
    forall i, j :: 0 <= i < j < |rooms| ==> rooms[i].id != rooms[j].id
  }

  predicate CodesUnique(rs: seq<Reservation>) {
    forall i, j :: 0 <= i < j < |rs| ==> rs[i].code != rs[j].code
  }

  predicate HasRoom(rooms: seq<Room>, id: RoomId) {
    exists i :: 0 <= i < |rooms| && rooms[i].id == id
  }

  predicate CodeTaken(rs: seq<Reservation>, code: string) {
    exists i :: 0 <= i < |rs| && rs[i].code == code
  }

  /** The integrity rules every state of the database satisfies. */
  predicate Valid(s: Store) {
    && RoomIdsUnique(s.rooms)
    && (forall i :: 0 <= i < |s.rooms| ==> RatingInRange(s.rooms[i]))
    && (forall i :: 0 <= i < |s.reservations| ==> HasRoom(s.rooms, s.reservations[i].room))
    && (forall i :: 0 <= i < |s.reservations| ==> FitsColumns(s.reservations[i]))
    && CodesUnique(s.reservations)
  }

  /** The room with the given primary key, if there is one. */
  function FindRoom(rooms: seq<Room>, id: RoomId): (r: Option<Room>)
    ensures r.Some? ==> r.value in rooms && r.value.id == id
    ensures r.None? <==> !HasRoom(rooms, id)
  {
    if |rooms| == 0 then None
    else if rooms[0].id == id then Some(rooms[0])
    else
      var r := FindRoom(rooms[1..], id);
      assert HasRoom(rooms, id) ==> HasRoom(rooms[1..], id) by {
        if HasRoom(rooms, id) {
          var i :| 0 <= i < |rooms| && rooms[i].id == id;
          assert rooms[1..][i - 1].id == id;
        }
      }
      r
  }

  /** With unique keys the lookup returns the one room that has the key. */
  lemma FindRoomUnique(rooms: seq<Room>, room: Room)
    requires RoomIdsUnique(rooms) && room in rooms
    ensures FindRoom(rooms, room.id) == Some(room)
  {
    var found := FindRoom(rooms, room.id).value;
    var i :| 0 <= i < |rooms| && rooms[i] == room;
    var j :| 0 <= j < |rooms| && rooms[j] == found;
    assert i == j;
  }

  /** The condition of the `available=True` query. */
  predicate Flagged(room: Room) {
    room.available
  }

  /** The rooms whose manual flag is set, in store order. */
  function FlaggedRooms(rooms: seq<Room>): (r: seq<Room>)
    ensures forall room :: room in r <==> room in rooms && room.available
    ensures multiset(r) <= multiset(rooms)
  {
    Filter(rooms, Flagged)
  }

  /** What the database answers to an insert. */
  datatype InsertResult =
    | Inserted(store: Store)  // the row is stored
    | ColumnViolation         // a value exceeds its column's width or range
    | UniqueViolation         // the confirmation code is already in use

  /**
    Inserting a reservation row. The column checks come first, then the
    unique constraint on the confirmation code; a row that passes both is
    appended and nothing else changes.
   */
  function Insert(s: Store, r: Reservation): (res: InsertResult)
    ensures res == ColumnViolation <==> !FitsColumns(r)
    ensures res == UniqueViolation <==> FitsColumns(r) && exists e :: e in s.reservations && e.code == r.code
    ensures res.Inserted? ==> res.store.rooms == s.rooms
    ensures res.Inserted? ==> |res.store.reservations| == |s.reservations| + 1
    ensures res.Inserted? ==> res.store.reservations[..|s.reservations|] == s.reservations
    ensures res.Inserted? ==> res.store.reservations[|s.reservations|] == r
  {
    if !FitsColumns(r) then ColumnViolation
    else if CodeTaken(s.reservations, r.code) then UniqueViolation
    else Inserted(s.(reservations := s.reservations + [r]))
  }

  /** A successful insert of a reservation for an existing room keeps the store valid. */
  lemma InsertKeepsValid(s: Store, r: Reservation)
    requires Valid(s) && HasRoom(s.rooms, r.room) && Insert(s, r).Inserted?
    ensures Valid(Insert(s, r).store)
  {
    var t := Insert(s, r).store;
    var n := |s.reservations|;
    forall i, j | 0 <= i < j < |t.reservations|
      ensures t.reservations[i].code != t.reservations[j].code
    {
      if j == n {
        assert t.reservations[i] == s.reservations[i];
        assert !CodeTaken(s.reservations, r.code);
      } else {
        assert t.reservations[i] == s.reservations[i] && t.reservations[j] == s.reservations[j];
      }
    }
    forall i | 0 <= i < |t.reservations|
      ensures HasRoom(t.rooms, t.reservations[i].room) && FitsColumns(t.reservations[i])
    {
      if i < n {
        assert t.reservations[i] == s.reservations[i];
      }
    }
  }
}
