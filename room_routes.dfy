/** The room handlers over an in-memory room collection: the request
    validator, create and update with the duplicate-number reply, the status
    patch, delete, the list filter and the available-rooms selection. */
module RoomRoutes {
  import opened Common
  import opened Text
  import opened Rooms
  import opened Reservations
  import opened ReservationRoutes

  /** The body of a create or update request. Absent optional fields are
      None. */
  datatype RoomInput = RoomInput(
    roomNumber: string,
    roomType: string,
    capacity: int,
    pricePerNight: int,
    floor: int,
    amenities: Option<seq<string>>,
    status: Option<string>,
    isActive: Option<bool>)

  /** What `validateRoom` accepts: a non-empty room number, a listed type,
      capacity 1..10, a non-negative price and a floor of at least 1. */
  predicate RoomInputAccepted(input: RoomInput) {
    && input.roomNumber != ""
    && input.roomType in ROOM_TYPES
    && 1 <= input.capacity <= 10
    && input.pricePerNight >= 0
    && input.floor >= 1
  }

  /** `validateRoom`'s error list: the failing fields, in declaration order. */
  function RoomInputErrors(input: RoomInput): (errors: seq<string>)
    ensures errors == [] <==> RoomInputAccepted(input)
    ensures |errors| <= 5
  {
    (if input.roomNumber == "" then ["roomNumber"] else [])
    + (if input.roomType !in ROOM_TYPES then ["roomType"] else [])
    + (if !(1 <= input.capacity <= 10) then ["capacity"] else [])
    + (if input.pricePerNight < 0 then ["pricePerNight"] else [])
    + (if input.floor < 1 then ["floor"] else [])
  }

  /** `new Room(req.body)`: the room number trimmed, and the defaults: no
      amenities, status Available, active. */
  function NewRoom(id: Id, input: RoomInput): (r: Room)
    ensures r.id == id && r.roomNumber == Trim(input.roomNumber) && Trimmed(r.roomNumber)
    ensures r.status == input.status.GetOr(DEFAULT_ROOM_STATUS)
    ensures r.isActive == input.isActive.GetOr(true)
    ensures r.amenities == input.amenities.GetOr([])
  {
    TrimmedIff(input.roomNumber);
    Room(id, Trim(input.roomNumber), input.roomType, input.capacity, input.pricePerNight,
         input.amenities.GetOr([]), input.status.GetOr(DEFAULT_ROOM_STATUS), input.floor,
         input.isActive.GetOr(true))
  }

  /** The schema checks the validator chain leaves to the save: the room
      number must not trim to empty, and sent amenities and status must be
      listed. */
  predicate SchemaExtrasHold(input: RoomInput) {
    && Trim(input.roomNumber) != ""
    && (input.amenities.Some? ==> forall i :: 0 <= i < |input.amenities.value| ==> input.amenities.value[i] in AMENITIES)
    && (input.status.Some? ==> input.status.value in ROOM_STATUSES)
  }

  /** An accepted body builds a valid room exactly when the remaining schema
      checks hold; in particular the defaults are valid. */
  lemma NewRoomValidIff(id: Id, input: RoomInput)
    requires RoomInputAccepted(input)
    ensures ValidRoom(NewRoom(id, input)) <==> SchemaExtrasHold(input)
  {
  }

  /** The body written over a stored room by `findByIdAndUpdate`. */
  function ApplyRoomUpdate(r: Room, input: RoomInput): (u: Room)
    ensures u.id == r.id && u.roomNumber == Trim(input.roomNumber)
    ensures u.amenities == input.amenities.GetOr(r.amenities)
    ensures u.status == input.status.GetOr(r.status) && u.isActive == input.isActive.GetOr(r.isActive)
  {
    r.(roomNumber := Trim(input.roomNumber), roomType := input.roomType, capacity := input.capacity,
       pricePerNight := input.pricePerNight, floor := input.floor,
       amenities := input.amenities.GetOr(r.amenities), status := input.status.GetOr(r.status),
       isActive := input.isActive.GetOr(r.isActive))
  }

  /** Checking the updated paths is enough: a valid room stays valid. */
  lemma ApplyRoomUpdateValid(r: Room, input: RoomInput)
    requires ValidRoom(r) && RoomInputAccepted(input) && SchemaExtrasHold(input)
    ensures ValidRoom(ApplyRoomUpdate(r, input))
  {
    TrimmedIff(input.roomNumber);
  }

  /** Rooms are keyed by id and valid, with unique numbers. */
  predicate RoomStoreInvariant(rooms: map<Id, Room>) {
    KeyedValidRooms(rooms) && UniqueRoomNumbers(rooms)
  }

  predicate KeyedValidRooms(rooms: map<Id, Room>) {
    forall k :: k in rooms ==> rooms[k].id == k && ValidRoom(rooms[k])
  }

  /** The reply of `POST /api/rooms`. */
  function RoomCreateOutcome(rooms: map<Id, Room>, input: RoomInput, freshId: Id): Reply<Room> {
    if RoomInputErrors(input) != [] then Invalid(RoomInputErrors(input))
    else if !SchemaExtrasHold(input) then ServerError("Error creating room")
    else if RoomNumberTaken(rooms, Trim(input.roomNumber), Some(freshId)) then BadRequest("Room number already exists")
    else Created(NewRoom(freshId, input))
  }

  /** The reply of `PUT /api/rooms/:id`. */
  function RoomUpdateOutcome(rooms: map<Id, Room>, id: Id, input: RoomInput): Reply<Room> {
    if RoomInputErrors(input) != [] then Invalid(RoomInputErrors(input))
    else if !SchemaExtrasHold(input) then ServerError("Error updating room")
    else if id !in rooms then NotFound("Room not found")
    else if RoomNumberTaken(rooms, Trim(input.roomNumber), Some(id)) then BadRequest("Room number already exists")
    else Ok(ApplyRoomUpdate(rooms[id], input))
  }

  /** A duplicate room number gives 400 "Room number already exists" on
      create and on update (of an existing room), once the body passes the
      validators. */
  lemma DuplicateNumberRejected(rooms: map<Id, Room>, id: Id, input: RoomInput)
    requires RoomInputAccepted(input) && SchemaExtrasHold(input)
    requires RoomNumberTaken(rooms, Trim(input.roomNumber), Some(id))
    ensures id !in rooms ==> RoomCreateOutcome(rooms, input, id) == BadRequest("Room number already exists")
    ensures id in rooms ==> RoomUpdateOutcome(rooms, id, input) == BadRequest("Room number already exists")
  {
  }

  /** A created or updated room is valid and keeps room numbers unique. */
  lemma RoomWritePreserves(rooms: map<Id, Room>, id: Id, input: RoomInput, create: bool)
    requires RoomStoreInvariant(rooms)
    requires create ==> id !in rooms && RoomCreateOutcome(rooms, input, id).Created?
    requires !create ==> RoomUpdateOutcome(rooms, id, input).Ok?
    ensures var r := if create then NewRoom(id, input) else ApplyRoomUpdate(rooms[id], input);
            r.id == id && ValidRoom(r) && RoomStoreInvariant(rooms[id := r])
  {
    var r := if create then NewRoom(id, input) else ApplyRoomUpdate(rooms[id], input);
    if create {
      NewRoomValidIff(id, input);
    } else {
      ApplyRoomUpdateValid(rooms[id], input);
    }
    InsertKeepsRoomNumbersUnique(rooms, id, r);
    var m := rooms[id := r];
    forall k | k in m ensures m[k].id == k && ValidRoom(m[k]) {
      if k != id {
        assert m[k] == rooms[k];
      }
    }
  }

  /** Replacing one room's status by a listed one keeps the invariant. */
  lemma RoomStatusPreserves(rooms: map<Id, Room>, id: Id, status: string)
    requires RoomStoreInvariant(rooms) && id in rooms && status in ROOM_STATUSES
    ensures RoomStoreInvariant(rooms[id := rooms[id].(status := status)])
  {
    var m := rooms[id := rooms[id].(status := status)];
    forall k | k in m ensures m[k].id == k && ValidRoom(m[k]) {
      if k != id {
        assert m[k] == rooms[k];
      }
    }
    forall a, b | a in m && b in m && a != b
      ensures m[a].roomNumber != m[b].roomNumber
    {
      assert m[a].roomNumber == rooms[a].roomNumber && m[b].roomNumber == rooms[b].roomNumber;
    }
  }

  /** Removing a room keeps the invariant. */
  lemma RoomDeletePreserves(rooms: map<Id, Room>, id: Id)
    requires RoomStoreInvariant(rooms)
    ensures RoomStoreInvariant(map k | k in rooms && k != id :: rooms[k])
  {
    var m := map k | k in rooms && k != id :: rooms[k];
    forall k | k in m ensures m[k].id == k && ValidRoom(m[k]) {
      assert m[k] == rooms[k];
    }
    forall a, b | a in m && b in m && a != b
      ensures m[a].roomNumber != m[b].roomNumber
    {
      assert m[a] == rooms[a] && m[b] == rooms[b];
    }
  }

  /** The list query; None for an absent (or empty) parameter, numbers
      already parsed. Sort keys are not part of it. */
  datatype RoomQuery = RoomQuery(
    page: int,
    limit: nat,
    roomType: Option<string>,
    status: Option<string>,
    floor: Option<int>,
    minPrice: Option<int>,
    maxPrice: Option<int>,
    amenities: Option<string>)

  /** The list filter: each given parameter adds one condition; the
      comma-separated amenities match a room that has any of them. */
  predicate RoomMatches(r: Room, q: RoomQuery) {
    && (q.roomType.Some? ==> r.roomType == q.roomType.value)
    && (q.status.Some? ==> r.status == q.status.value)
    && (q.floor.Some? ==> r.floor == q.floor.value)
    && (q.minPrice.Some? ==> r.pricePerNight >= q.minPrice.value)
    && (q.maxPrice.Some? ==> r.pricePerNight <= q.maxPrice.value)
    && (q.amenities.Some? ==> exists a :: a in Split(q.amenities.value, ',') && a in r.amenities)
  }

  /** The list filter as a test on one room. */
  function RoomFilter(q: RoomQuery): Room -> bool {
    (x: Room) => RoomMatches(x, q)
  }

  /** The documents the list query selects, in sort order. */
  function MatchingRooms(sorted: seq<Room>, q: RoomQuery): seq<Room> {
    Filter(sorted, RoomFilter(q))
  }

  /** `GET /api/rooms` over the rooms in sort order. */
  function ListRooms(sorted: seq<Room>, q: RoomQuery): (r: Option<Page<Room>>)
    ensures r.None? <==> (q.page - 1) * q.limit < 0
    ensures r.Some? ==> forall i :: 0 <= i < |r.value.items| ==>
              r.value.items[i] in sorted && RoomMatches(r.value.items[i], q)
    ensures r.Some? ==> r.value.total == |MatchingRooms(sorted, q)| && r.value.currentPage == q.page
    ensures r.Some? ==> r.value.totalPages == TotalPages(|MatchingRooms(sorted, q)|, q.limit)
    ensures r.Some? ==> forall i :: 0 <= i < |r.value.items| ==>
              (q.page - 1) * q.limit + i < |MatchingRooms(sorted, q)|
              && r.value.items[i] == MatchingRooms(sorted, q)[(q.page - 1) * q.limit + i]
    ensures r.Some? && q.limit > 0 ==> |r.value.items| <= q.limit
    ensures r.Some? ==>
              |r.value.items| == if (q.page - 1) * q.limit >= |MatchingRooms(sorted, q)| then 0
                                 else if q.limit == 0 then |MatchingRooms(sorted, q)| - (q.page - 1) * q.limit
                                 else Min(q.limit, |MatchingRooms(sorted, q)| - (q.page - 1) * q.limit)
  {
    PageOf(MatchingRooms(sorted, q), q.page, q.limit)
  }

  /** Every room the query selects is listed on some page within the
      page count. */
  lemma ListRoomsCovers(sorted: seq<Room>, q: RoomQuery, k: nat)
    requires q.limit > 0 && k < |sorted| && RoomMatches(sorted[k], q)
    ensures exists p :: p >= 1 && ListRooms(sorted, q.(page := p)).Some?
                        && ListRooms(sorted, q.(page := p)).value.totalPages.Some?
                        && p <= ListRooms(sorted, q.(page := p)).value.totalPages.value
                        && sorted[k] in ListRooms(sorted, q.(page := p)).value.items
  {
    var m := MatchingRooms(sorted, q);
    assert RoomFilter(q)(sorted[k]);
    assert sorted[k] in m;
    var j :| 0 <= j < |m| && m[j] == sorted[k];
    var p := j / q.limit + 1;
    PageOfCovers(m, q.limit, j);
    FilterSameTest(sorted, RoomFilter(q.(page := p)), RoomFilter(q));
    assert MatchingRooms(sorted, q.(page := p)) == m;
    assert ListRooms(sorted, q.(page := p)) == PageOf(m, p, q.limit);
  }

  /** The price range: each bound applies only when given. */
  lemma PriceRange(r: Room, q: RoomQuery)
    requires q.roomType.None? && q.status.None? && q.floor.None? && q.amenities.None?
    ensures RoomMatches(r, q) <==>
              (q.minPrice.None? || q.minPrice.value <= r.pricePerNight)
              && (q.maxPrice.None? || r.pricePerNight <= q.maxPrice.value)
  {
  }

  /** "Any of": a query listing comma-free amenities keeps a room exactly
      when it has at least one of them. */
  lemma AmenitiesAnyOf(r: Room, q: RoomQuery, wanted: seq<string>)
    requires |wanted| >= 1 && forall i :: 0 <= i < |wanted| ==> ',' !in wanted[i]
    requires q == RoomQuery(q.page, q.limit, None, None, None, None, None, Some(Join(wanted, ',')))
    ensures RoomMatches(r, q) <==> exists a :: a in wanted && a in r.amenities
  {
    SplitJoin(wanted, ',');
  }

  /** Room numbers in code-point order. */
  predicate SortedByNumber(s: seq<Room>) {
    forall i, j :: 0 <= i < j < |s| ==> StrLe(s[i].roomNumber, s[j].roomNumber)
  }

  /** Inserts `r` into a list sorted by room number, keeping it sorted. */
  function InsertByNumber(s: seq<Room>, r: Room): (t: seq<Room>)
    requires SortedByNumber(s)
    ensures SortedByNumber(t)
    ensures multiset(t) == multiset(s) + multiset{r}
    decreases |s|
  {
    if s == [] then [r]
    else if StrLe(r.roomNumber, s[0].roomNumber) then
      assert forall j :: 0 <= j < |s| ==> StrLe(r.roomNumber, s[j].roomNumber) by {
        forall j | 0 <= j < |s| ensures StrLe(r.roomNumber, s[j].roomNumber) {
          if j > 0 {
            StrLeTransitive(r.roomNumber, s[0].roomNumber, s[j].roomNumber);
          }
        }
      }
      [r] + s
    else
      var rest := InsertByNumber(s[1..], r);
      StrLeTotal(r.roomNumber, s[0].roomNumber);
      assert s == [s[0]] + s[1..];
      assert forall j :: 0 <= j < |rest| ==> StrLe(s[0].roomNumber, rest[j].roomNumber) by {
        forall j | 0 <= j < |rest| ensures StrLe(s[0].roomNumber, rest[j].roomNumber) {
          assert rest[j] in multiset(rest);
          if rest[j] != r {
            assert rest[j] in multiset(s[1..]);
            var i :| 0 <= i < |s[1..]| && s[1..][i] == rest[j];
            assert s[i + 1] == rest[j];
          }
        }
      }
      [s[0]] + rest
  }

  /** Insertion adds `r` and keeps every element already there. */
  lemma InsertByNumberMembers(s: seq<Room>, r: Room)
    requires SortedByNumber(s)
    ensures forall x :: x in InsertByNumber(s, r) <==> x in s || x == r
  {
    var t := InsertByNumber(s, r);
    forall x ensures x in t <==> x in s || x == r {
      assert x in t <==> x in multiset(t);
      assert x in s <==> x in multiset(s);
    }
  }

  /** The rooms held by an active reservation overlapping [checkIn,
      checkOut]: the `Reservation.find(...).distinct('room')` query. */
  method BookedRooms(reservations: map<Id, Reservation>, checkIn: int, checkOut: int) returns (booked: set<Id>)
    ensures forall id :: id in booked <==> HasConflict(reservations, id, checkIn, checkOut, None)
  {
    booked := {};
    var pending := reservations.Keys;
    while pending != {}
      invariant pending <= reservations.Keys
      invariant forall k :: k in reservations && k !in pending && Conflicts(reservations[k], reservations[k].room, checkIn, checkOut)
                  ==> reservations[k].room in booked
      invariant forall id :: id in booked ==> HasConflict(reservations, id, checkIn, checkOut, None)
      decreases |pending|
    {
      var k :| k in pending;
      if IsActive(reservations[k].status) && Overlaps(reservations[k].checkIn, reservations[k].checkOut, checkIn, checkOut) {
        booked := booked + {reservations[k].room};
      }
      pending := pending - {k};
    }
  }

  /** What `/available` offers: an Available, active room of the requested
      type and capacity that no active reservation overlapping the dates
      holds. */
  predicate Offered(r: Room, reservations: map<Id, Reservation>, checkIn: int, checkOut: int,
                    roomType: Option<string>, capacity: Option<int>)
  {
    && r.status == "Available" && r.isActive
    && (roomType.Some? ==> r.roomType == roomType.value)
    && (capacity.Some? ==> r.capacity >= capacity.value)
    && !HasConflict(reservations, r.id, checkIn, checkOut, None)
  }

  /** The room collection. */
  class RoomStore {
    var rooms: map<Id, Room>

    ghost predicate Valid()
      reads this
    {
      RoomStoreInvariant(rooms)
    }

    constructor ()
      ensures rooms == map[] && Valid()
    {
      rooms := map[];
    }

    /** `POST /api/rooms`. */
    method Create(input: RoomInput, freshId: Id) returns (reply: Reply<Room>)
      requires Valid() && freshId !in rooms
      modifies this
      ensures Valid()
      ensures reply == RoomCreateOutcome(old(rooms), input, freshId)
      ensures rooms == if reply.Created? then old(rooms)[freshId := reply.value] else old(rooms)
    {
      var errors := RoomInputErrors(input);
      if errors != [] {
        return Invalid(errors);
      }
      var room := NewRoom(freshId, input);
      if !SchemaExtrasHold(input) {
        return ServerError("Error creating room");
      }
      if RoomNumberTaken(rooms, room.roomNumber, Some(freshId)) {
        return BadRequest("Room number already exists");
      }
      RoomWritePreserves(rooms, freshId, input, true);
      rooms := rooms[freshId := room];
      reply := Created(room);
    }

    /** `PUT /api/rooms/:id`. */
    method Update(id: Id, input: RoomInput) returns (reply: Reply<Room>)
      requires Valid()
      modifies this
      ensures Valid()
      ensures reply == RoomUpdateOutcome(old(rooms), id, input)
      ensures rooms == if reply.Ok? then old(rooms)[id := reply.value] else old(rooms)
    {
      var errors := RoomInputErrors(input);
      if errors != [] {
        return Invalid(errors);
      }
      if !SchemaExtrasHold(input) {
        return ServerError("Error updating room");
      }
      if id !in rooms {
        return NotFound("Room not found");
      }
      var updated := ApplyRoomUpdate(rooms[id], input);
      if RoomNumberTaken(rooms, updated.roomNumber, Some(id)) {
        return BadRequest("Room number already exists");
      }
      RoomWritePreserves(rooms, id, input, false);
      rooms := rooms[id := updated];
      reply := Ok(updated);
    }

    /** `PATCH /api/rooms/:id/status`: only a listed status is written, and
        only to `status`. */
    method PatchStatus(id: Id, status: string) returns (reply: Reply<Room>)
      requires Valid()
      modifies this
      ensures Valid()
      ensures status !in ROOM_STATUSES ==> reply == BadRequest("Invalid status") && rooms == old(rooms)
      ensures status in ROOM_STATUSES && id !in old(rooms) ==>
                reply == NotFound("Room not found") && rooms == old(rooms)
      ensures status in ROOM_STATUSES && id in old(rooms) ==>
                reply == Ok(old(rooms)[id].(status := status))
                && rooms == old(rooms)[id := old(rooms)[id].(status := status)]
    {
      if status !in ROOM_STATUSES {
        return BadRequest("Invalid status");
      }
      if id !in rooms {
        return NotFound("Room not found");
      }
      RoomStatusPreserves(rooms, id, status);
      var updated := rooms[id].(status := status);
      rooms := rooms[id := updated];
      reply := Ok(updated);
    }

    /** `DELETE /api/rooms/:id`. */
    method Delete(id: Id) returns (reply: Reply<string>)
      requires Valid()
      modifies this
      ensures Valid()
      ensures id in old(rooms) ==> reply == Ok("Room deleted successfully")
                                   && rooms == map k | k in old(rooms) && k != id :: old(rooms)[k]
      ensures id !in old(rooms) ==> reply == NotFound("Room not found") && rooms == old(rooms)
    {
      if id !in rooms {
        return NotFound("Room not found");
      }
      RoomDeletePreserves(rooms, id);
      rooms := map k | k in rooms && k != id :: rooms[k];
      reply := Ok("Room deleted successfully");
    }

    /** `GET /api/rooms/available`: the rooms held by an active overlapping
        reservation are collected first, then the offered rooms are listed
        in ascending room-number order. */
    method AvailableRooms(reservations: map<Id, Reservation>, checkIn: Option<int>, checkOut: Option<int>,
                          roomType: Option<string>, capacity: Option<int>) returns (reply: Reply<seq<Room>>)
      requires Valid()
      ensures reply.BadRequest? <==> checkIn.None? || checkOut.None?
      ensures reply.BadRequest? || reply.Ok?
      ensures reply.Ok? ==> forall x :: x in reply.value ==>
                x in rooms.Values && Offered(x, reservations, checkIn.value, checkOut.value, roomType, capacity)
      ensures reply.Ok? ==>
                forall k :: k in rooms && Offered(rooms[k], reservations, checkIn.value, checkOut.value, roomType, capacity)
                  ==> rooms[k] in reply.value
      ensures reply.Ok? ==> SortedByNumber(reply.value)
      ensures reply.Ok? ==> forall x :: multiset(reply.value)[x] <= 1
    {
      if checkIn.None? || checkOut.None? {
        return BadRequest("Check-in and check-out dates are required");
      }
      var ci, co := checkIn.value, checkOut.value;
      var booked := BookedRooms(reservations, ci, co);
      var result: seq<Room> := [];
      var left := rooms.Keys;
      while left != {}
        invariant left <= rooms.Keys
        invariant SortedByNumber(result)
        invariant forall x :: x in result ==>
                    x in rooms.Values && Offered(x, reservations, ci, co, roomType, capacity)
        invariant forall k :: k in rooms && k !in left && Offered(rooms[k], reservations, ci, co, roomType, capacity)
                    ==> rooms[k] in result
        invariant forall x :: x in result ==> x.id in rooms && x.id !in left
        invariant forall x :: multiset(result)[x] <= 1
        decreases |left|
      {
        var k :| k in left;
        var r := rooms[k];
        if r.status == "Available" && r.isActive
           && (roomType.None? || r.roomType == roomType.value)
           && (capacity.None? || r.capacity >= capacity.value)
           && r.id !in booked
        {
          assert r in rooms.Values && Offered(r, reservations, ci, co, roomType, capacity);
          assert r !in result;
          InsertByNumberMembers(result, r);
          result := InsertByNumber(result, r);
        }
        left := left - {k};
      }
      reply := Ok(result);
    }
  }
}
