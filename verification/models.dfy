/**
  The persisted entities of the booking app (rooms and reservations) and the
  derived fields a reservation computes for itself when it is saved: the
  confirmation code, the total price and the number of nights.

  Calendar dates are day numbers (the proleptic ordinal of the date), so the
  `.days` of a date difference is plain subtraction; money is whole cents.
 */
module Models {
  import opened Collections

  type Day = int
  type Cents = int
  type RoomId = nat
  type RoomTypeId = nat

  /** The four reservation states. */
  datatype Status = Pending | Confirmed | Cancelled | Completed

  /** Only pending and confirmed reservations hold a room. */
  predicate Blocks(s: Status) {
    s == Pending || s == Confirmed
  }

  /**
    A bookable unit. `available` is the manual flag an administrator can clear
    to take the room off sale whatever its calendar says.
   */
  datatype Room = Room(
    id: RoomId,
    name: string,
    roomType: RoomTypeId,
    pricePerNight: Cents,
    capacity: nat,
    available: bool,
    rating: real)

  /** The bound the rating validators impose. */
  predicate RatingInRange(room: Room) {
    0.0 <= room.rating <= 5.0
  }

  /** A booking of one room for the nights `checkIn .. checkOut - 1`. */
  datatype Reservation = Reservation(
    room: RoomId,
    guestName: string,
    guestEmail: string,
    guestPhone: string,
    checkIn: Day,
    checkOut: Day,
    guests: int,
    totalPrice: Cents,
    specialRequests: string,
    status: Status,
    code: string)
  {
    /** The number of nights of the stay. */
    function Nights(): (n: int)
      ensures checkIn + n == checkOut
    {
      NumberOfNights(Some(checkIn), Some(checkOut))
    }
  }

  /** A guest staying over `checkIn .. checkOut` sleeps in the room on night `d`. */
  predicate Occupies(checkIn: Day, checkOut: Day, d: Day) {
    checkIn <= d < checkOut
  }

  /**
    Every night a stay over `checkIn .. checkOut` occupies. The explicit range
    repeats `Occupies` so that Dafny sees the set is finite; the `Occupies`
    term is what the verifier instantiates the comprehension on.
   */
  ghost function OccupiedNights(checkIn: Day, checkOut: Day): set<Day> {
    set d | checkIn <= d < checkOut && Occupies(checkIn, checkOut, d)
  }

  /**
    The nights between two possibly missing dates: their difference in days
    when both are set, and 0 otherwise.
   */
  function NumberOfNights(checkIn: Option<Day>, checkOut: Option<Day>): (n: int)
    ensures checkIn.Some? && checkOut.Some? ==> checkIn.value + n == checkOut.value
    ensures checkIn.None? || checkOut.None? ==> n == 0
  {
    if checkIn.Some? && checkOut.Some? then checkOut.value - checkIn.value else 0
  }

  /** For a stay that is not inverted, the night count is the number of nights occupied. */
  lemma {:induction false} NightsCountOccupiedNights(checkIn: Day, checkOut: Day)
    requires checkIn <= checkOut
    ensures NumberOfNights(Some(checkIn), Some(checkOut)) == |OccupiedNights(checkIn, checkOut)|
    decreases checkOut - checkIn
  {
    if checkIn == checkOut {
      assert OccupiedNights(checkIn, checkOut) == {};
    } else {
      NightsCountOccupiedNights(checkIn, checkOut - 1);
      assert OccupiedNights(checkIn, checkOut) == OccupiedNights(checkIn, checkOut - 1) + {checkOut - 1};
    }
  }

  /** The 36 characters a generated confirmation code is drawn from. */
  const CodeAlphabet: string := "ABCDEFGHIJKLMNOPQRSTUVWXYZ0123456789"

  /** The length of a generated confirmation code. */
  const CodeLength: nat := 8

  predicate IsCode(s: string) {
    |s| == CodeLength && forall i :: 0 <= i < |s| ==> s[i] in CodeAlphabet
  }

  /** A code the generator can produce: 8 characters over A-Z and 0-9. */
  type Code = s: string | IsCode(s) witness "AAAAAAAA"

  /** The widths of the text columns of a reservation row. */
  const NameMaxLength: nat := 200
  const EmailMaxLength: nat := 254  // the default width of an email column
  const PhoneMaxLength: nat := 20
  const CodeMaxLength: nat := 10

  /** The largest value a 32-bit integer column holds. */
  const IntegerMax: nat := 2147483647

  /**
    A decimal of 10 digits, 2 of them after the point, holds totals strictly
    between -10^8 and 10^8, that is strictly between these bounds in cents.
   */
  const PriceBound: int := 10_000_000_000

  /**
    A row the database stores: every text within its column's width, the
    guest count non-negative and within an integer column, and the total
    within its decimal column.
   */
  predicate FitsColumns(r: Reservation) {
    && |r.guestName| <= NameMaxLength
    && |r.guestEmail| <= EmailMaxLength
    && |r.guestPhone| <= PhoneMaxLength
    && 0 <= r.guests <= IntegerMax
    && -PriceBound < r.totalPrice < PriceBound
    && |r.code| <= CodeMaxLength
  }

  /**
    The confirmation code after saving: an empty code is replaced by the
    generated one, and an existing code is never replaced.
   */
  function AssignCode(current: string, generated: Code): (c: string)
    ensures c != ""
    ensures current != "" ==> c == current
    ensures current == "" ==> IsCode(c)
  {
    if current == "" then generated else current
  }

  /**
    The total price after saving: recomputed as price per night times nights
    only when no total was set (zero) and the stay has a positive number of
    nights; otherwise the given total stays.
   */
  function DerivedPrice(totalPrice: Cents, pricePerNight: Cents, checkIn: Option<Day>, checkOut: Option<Day>): (t: Cents)
    ensures totalPrice == 0 && NumberOfNights(checkIn, checkOut) > 0 ==>
              t == pricePerNight * NumberOfNights(checkIn, checkOut)
    ensures totalPrice != 0 || NumberOfNights(checkIn, checkOut) <= 0 ==> t == totalPrice
  {
    if totalPrice == 0 && checkIn.Some? && checkOut.Some? then
      var nights := checkOut.value - checkIn.value;
      if nights > 0 then pricePerNight * nights else totalPrice
    else
      totalPrice
  }

  /**
    Saving a reservation of a room priced `pricePerNight`: fills in the code
    and the total price, and changes nothing else.
   */
  function Save(r: Reservation, pricePerNight: Cents, generated: Code): (s: Reservation)
    ensures s.(code := r.code, totalPrice := r.totalPrice) == r
    ensures r.code != "" ==> s.code == r.code
    ensures r.code == "" ==> s.code == generated
    ensures r.totalPrice == 0 && r.Nights() > 0 ==> s.totalPrice == pricePerNight * r.Nights()
    ensures r.totalPrice != 0 || r.Nights() <= 0 ==> s.totalPrice == r.totalPrice
  {
    r.(code := AssignCode(r.code, generated),
       totalPrice := DerivedPrice(r.totalPrice, pricePerNight, Some(r.checkIn), Some(r.checkOut)))
  }

  /** Saving twice is saving once: the code is generated exactly once and the price derived once. */
  lemma SaveIdempotent(r: Reservation, pricePerNight: Cents, first: Code, second: Code)
    ensures Save(Save(r, pricePerNight, first), pricePerNight, second) == Save(r, pricePerNight, first)
  {
  }

  /**
    A total already equal to price per night times nights (zero, positive or
    negative) survives saving unchanged.
   */
  lemma SaveKeepsConsistentPrice(r: Reservation, pricePerNight: Cents, generated: Code)
    requires r.totalPrice == pricePerNight * r.Nights()
    ensures Save(r, pricePerNight, generated).totalPrice == pricePerNight * r.Nights()
  {
  }

  /** The worked example: 120.00 a night from 2024-03-01 to 2024-03-04 costs 360.00. */
  lemma PriceExample(r: Reservation, generated: Code)
    requires r.checkIn == 738946 && r.checkOut == 738949 && r.totalPrice == 0
    ensures r.Nights() == 3
    ensures Save(r, 12000, generated).totalPrice == 36000
  {
  }
}
