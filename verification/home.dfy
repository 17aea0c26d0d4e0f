/**
  The home page's featured rooms: the rooms with the flag set, best rated
  first, at most three of them.
 */
module Home {
  import opened Models
  import opened Database

  /** How many rooms the home page features. */
  const FeaturedLimit: nat := 3

  predicate SortedByRating(s: seq<Room>) {
    forall i, j :: 0 <= i < j < |s| ==> s[i].rating >= s[j].rating
  }

  /** Places `x` into a sequence sorted best rated first, ahead of the rooms rated no higher. */
  function InsertByRating(x: Room, s: seq<Room>): (r: seq<Room>)
    requires SortedByRating(s)
    ensures SortedByRating(r)
    ensures multiset(r) == multiset(s) + multiset{x}
    ensures |r| == |s| + 1
  {
    if |s| == 0 || x.rating >= s[0].rating then
      [x] + s
    else
      var rest := InsertByRating(x, s[1..]);
      assert s == [s[0]] + s[1..];
      assert forall k :: 0 <= k < |rest| ==> rest[k] in multiset(s[1..]) + multiset{x};
      [s[0]] + rest
  }

  /** The rooms best rated first (the order of equally rated rooms is unspecified by the query). */
  function SortByRating(s: seq<Room>): (r: seq<Room>)
    ensures SortedByRating(r)
    ensures multiset(r) == multiset(s)
    ensures |r| == |s|
  {
    if |s| == 0 then []
    else
      assert s == [s[0]] + s[1..];
      InsertByRating(s[0], SortByRating(s[1..]))
  }

  /**
    The featured rooms: at most three, all with the flag set, best rated
    first, and as many as there are flagged rooms up to three.
   */
  function FeaturedRooms(rooms: seq<Room>): (r: seq<Room>)
    ensures |r| <= FeaturedLimit
    ensures |r| == if |FlaggedRooms(rooms)| < FeaturedLimit then |FlaggedRooms(rooms)| else FeaturedLimit
    ensures forall room :: room in r ==> room.available && room in rooms
    ensures SortedByRating(r)
    ensures multiset(r) <= multiset(rooms)
  {
    var sorted := SortByRating(FlaggedRooms(rooms));
    var n := if |sorted| < FeaturedLimit then |sorted| else FeaturedLimit;
    PrefixOfRanking(rooms, sorted, n);
    sorted[..n]
  }

  /** A prefix of the ranked flagged rooms is itself ranked and drawn from the flagged rooms. */
  lemma PrefixOfRanking(rooms: seq<Room>, sorted: seq<Room>, n: nat)
    requires multiset(sorted) == multiset(FlaggedRooms(rooms)) && SortedByRating(sorted) && n <= |sorted|
    ensures forall room :: room in sorted[..n] ==> room.available && room in rooms
    ensures SortedByRating(sorted[..n])
    ensures multiset(sorted[..n]) <= multiset(rooms)
  {
    assert sorted == sorted[..n] + sorted[n..];
    assert multiset(sorted[..n]) <= multiset(sorted);
    forall room | room in sorted[..n]
      ensures room.available && room in rooms
    {
      assert room in multiset(FlaggedRooms(rooms));
    }
  }

  /** No flagged room left off the home page is rated above one that is on it. */
  lemma FeaturedAreTopRated(rooms: seq<Room>, left: Room, shown: Room)
    requires left in rooms && left.available && left !in FeaturedRooms(rooms)
    requires shown in FeaturedRooms(rooms)
    ensures left.rating <= shown.rating
  {
    var sorted := SortByRating(FlaggedRooms(rooms));
    assert left in multiset(sorted);
    var k :| 0 <= k < |sorted| && sorted[k] == left;
    var j :| 0 <= j < |FeaturedRooms(rooms)| && FeaturedRooms(rooms)[j] == shown;
    assert sorted[j] == shown;
    assert j < k;
  }
}
