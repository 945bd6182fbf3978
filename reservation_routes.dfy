/** The reservation handlers over an in-memory reservation collection: the
    request validator, the overlap query, create, update, the status patch,
    delete, the availability check and the filtered, paginated list. */
module ReservationRoutes {
  import opened Common
  import opened Text
  import opened Rooms
  import opened Reservations

  /** The statuses that hold a room: Confirmed and Checked In. */
  predicate IsActive(status: string) {
    status == "Confirmed" || status == "Checked In"
  }

  /** The closed-interval overlap the conflict query uses: both ends count,
      so a stay that starts on the day another ends overlaps it. */
  predicate Overlaps(checkIn: int, checkOut: int, otherIn: int, otherOut: int) {
    checkIn <= otherOut && checkOut >= otherIn
  }

  /** Whether stored reservation `r` blocks a request for `room` over
      [checkIn, checkOut]. */
  predicate Conflicts(r: Reservation, room: Id, checkIn: int, checkOut: int) {
    r.room == room && IsActive(r.status) && Overlaps(r.checkIn, r.checkOut, checkIn, checkOut)
  }

  /** Whether the conflict query finds a document other than `exclude`. */
  predicate HasConflict(items: map<Id, Reservation>, room: Id, checkIn: int, checkOut: int, exclude: Option<Id>) {
    exists k :: k in items && Some(k) != exclude && Conflicts(items[k], room, checkIn, checkOut)
  }

  /** No two active reservations of one room overlap. */
  predicate NoDoubleBooking(items: map<Id, Reservation>) {
    forall a, b :: a in items && b in items && a != b && IsActive(items[a].status) ==>
      !Conflicts(items[b], items[a].room, items[a].checkIn, items[a].checkOut)
  }

  /** Whether a document other than `except` already has `number`. */
  predicate ReservationNumberTaken(items: map<Id, Reservation>, number: string, except: Option<Id>) {
    exists k :: k in items && Some(k) != except && items[k].reservationNumber == number
  }

  /** What the store keeps true: documents are keyed by their id, each passes
      the schema, and reservation numbers are unique. */
  predicate StoreInvariant(items: map<Id, Reservation>) {
    KeyedAndValid(items) && UniqueReservationNumbers(items)
  }

  predicate KeyedAndValid(items: map<Id, Reservation>) {
    forall k :: k in items ==> items[k].id == k && ValidReservation(items[k])
  }

  /** If `b` blocks active `a`'s stay, then `a` blocks `b`'s: overlap is
      symmetric. */
  lemma ConflictSwaps(a: Reservation, b: Reservation)
    requires IsActive(a.status)
    ensures Conflicts(b, a.room, a.checkIn, a.checkOut) ==> Conflicts(a, b.room, b.checkIn, b.checkOut)
  {
  }

  /** Pending, Checked Out, Cancelled and No Show reservations never block a
      request, whatever their room and dates. */
  lemma InactiveNeverBlocks(items: map<Id, Reservation>, room: Id, checkIn: int, checkOut: int, exclude: Option<Id>)
    ensures HasConflict(items, room, checkIn, checkOut, exclude) <==>
            HasConflict(map k | k in items && IsActive(items[k].status) :: items[k], room, checkIn, checkOut, exclude)
  {
    var active := map k | k in items && IsActive(items[k].status) :: items[k];
    if HasConflict(items, room, checkIn, checkOut, exclude) {
      var k :| k in items && Some(k) != exclude && Conflicts(items[k], room, checkIn, checkOut);
      assert k in active;
    }
  }

  /** A same-day turnover is a conflict: a request that starts on the day an
      active reservation of the room ends is refused. */
  lemma SameDayTurnoverConflicts(r: Reservation, checkOut: int)
    requires IsActive(r.status) && r.checkIn <= r.checkOut <= checkOut
    ensures Conflicts(r, r.room, r.checkOut, checkOut)
  {
  }

  /** What the validator chain of the create and update routes accepts:
      non-empty names and phone, an email address, a Mongo id for the room,
      both dates, and 1 to 10 guests. */
  predicate InputAccepted(input: ReservationInput) {
    && input.guest.firstName != "" && input.guest.lastName != ""
    && IsEmail(input.guest.email) && input.guest.phone != ""
    && IsObjectId(input.room) && input.checkIn.Some? && input.checkOut.Some?
    && 1 <= input.numberOfGuests <= 10
  }

  /** The validator chain's error list: the failing fields, in declaration
      order. */
  function ReservationInputErrors(input: ReservationInput): (errors: seq<string>)
    ensures errors == [] <==> InputAccepted(input)
    ensures |errors| <= 8
  {
    (if input.guest.firstName == "" then ["guest.firstName"] else [])
    + (if input.guest.lastName == "" then ["guest.lastName"] else [])
    + (if !IsEmail(input.guest.email) then ["guest.email"] else [])
    + (if input.guest.phone == "" then ["guest.phone"] else [])
    + (if !IsObjectId(input.room) then ["room"] else [])
    + (if input.checkIn.None? then ["checkIn"] else [])
    + (if input.checkOut.None? then ["checkOut"] else [])
    + (if !(1 <= input.numberOfGuests <= 10) then ["numberOfGuests"] else [])
  }

  /** The reply of `POST /api/reservations` on a store holding `items`, with
      `rooms` the room collection and `freshId` the new document's id. */
  function CreateOutcome(items: map<Id, Reservation>, rooms: map<Id, Room>, input: ReservationInput, freshId: Id): (reply: Reply<Reservation>)
    ensures reply.Invalid? <==> ReservationInputErrors(input) != []
    ensures !reply.Invalid? ==> input.checkIn.Some? && input.checkOut.Some?
    ensures reply.Created? ==>
              && reply.value.id == freshId && ValidReservation(reply.value)
              && reply.value.room in rooms && rooms[reply.value.room].status == "Available"
              && reply.value.room == input.room
              && reply.value.checkIn == input.checkIn.value && reply.value.checkOut == input.checkOut.value
              && !HasConflict(items, reply.value.room, reply.value.checkIn, reply.value.checkOut, None)
              && !ReservationNumberTaken(items, reply.value.reservationNumber, Some(freshId))
  {
    if ReservationInputErrors(input) != [] then Invalid(ReservationInputErrors(input))
    else if HasConflict(items, input.room, input.checkIn.value, input.checkOut.value, None) then
      BadRequest("Room is not available for the selected dates")
    else if input.room !in rooms then NotFound("Room not found")
    else if rooms[input.room].status != "Available" then BadRequest("Room is not available")
    else match Prepared(freshId, input, |items|, rooms)
      case None => ServerError("Error creating reservation")
      case Some(r) =>
        if ReservationNumberTaken(items, r.reservationNumber, Some(freshId)) then ServerError("Error creating reservation")
        else Created(r)
  }

  /** Create rejects in a fixed order: a validator failure, then a conflict
      (before the room is looked up), then a missing room, then a room that
      is not Available. */
  lemma CreateRejectionOrder(items: map<Id, Reservation>, rooms: map<Id, Room>, input: ReservationInput, freshId: Id)
    requires ReservationInputErrors(input) == []
    ensures HasConflict(items, input.room, input.checkIn.value, input.checkOut.value, None) ==>
              CreateOutcome(items, rooms, input, freshId) == BadRequest("Room is not available for the selected dates")
    ensures !HasConflict(items, input.room, input.checkIn.value, input.checkOut.value, None) && input.room !in rooms ==>
              CreateOutcome(items, rooms, input, freshId) == NotFound("Room not found")
    ensures !HasConflict(items, input.room, input.checkIn.value, input.checkOut.value, None) && input.room in rooms
            && rooms[input.room].status != "Available" ==>
              CreateOutcome(items, rooms, input, freshId) == BadRequest("Room is not available")
  {
  }

  /** A created reservation has the derived nights, the room's price times
      those nights, a stay that moves forward in time, and, when no number
      was sent, the number made from the document count. */
  lemma CreatedDerivedFields(items: map<Id, Reservation>, rooms: map<Id, Room>, input: ReservationInput, freshId: Id)
    requires CreateOutcome(items, rooms, input, freshId).Created?
    ensures var r := CreateOutcome(items, rooms, input, freshId).value;
            && r.numberOfNights == NightsBetween(r.checkIn, r.checkOut)
            && r.totalAmount == rooms[r.room].pricePerNight * r.numberOfNights
            && r.checkOut > r.checkIn
            && (input.reservationNumber == "" ==> r.reservationNumber == ReservationNumberFor(|items|))
  {
    PreparedDerivedFields(freshId, input, |items|, rooms);
  }

  /** Creating keeps the store invariant, and adds no double booking to a
      store that had none. */
  lemma CreatePreserves(items: map<Id, Reservation>, rooms: map<Id, Room>, input: ReservationInput, freshId: Id)
    requires StoreInvariant(items) && freshId !in items
    requires CreateOutcome(items, rooms, input, freshId).Created?
    ensures var m := items[freshId := CreateOutcome(items, rooms, input, freshId).value];
            StoreInvariant(m) && (NoDoubleBooking(items) ==> NoDoubleBooking(m))
  {
    var r := CreateOutcome(items, rooms, input, freshId).value;
    InsertPreserves(items, freshId, r, None);
  }

  /** Putting `r` at `id` keeps both invariants when `r` is valid, keyed by
      `id`, uniquely numbered and free of conflicts with the other
      documents. */
  lemma InsertPreserves(items: map<Id, Reservation>, id: Id, r: Reservation, exclude: Option<Id>)
    requires StoreInvariant(items)
    requires r.id == id && ValidReservation(r)
    requires exclude == None || exclude == Some(id)
    requires !ReservationNumberTaken(items, r.reservationNumber, Some(id))
    requires !HasConflict(items, r.room, r.checkIn, r.checkOut, exclude)
    ensures StoreInvariant(items[id := r])
    ensures NoDoubleBooking(items) ==> NoDoubleBooking(items[id := r])
  {
    InsertKeepsValid(items, id, r);
    InsertKeepsNumbersUnique(items, id, r);
    if NoDoubleBooking(items) {
      InsertKeepsNoDoubleBooking(items, id, r, exclude);
    }
  }

  lemma InsertKeepsValid(items: map<Id, Reservation>, id: Id, r: Reservation)
    requires KeyedAndValid(items)
    requires r.id == id && ValidReservation(r)
    ensures KeyedAndValid(items[id := r])
  {
    var m := items[id := r];
    forall k | k in m ensures m[k].id == k && ValidReservation(m[k]) {
      if k != id {
        assert m[k] == items[k];
      }
    }
  }

  lemma InsertKeepsNumbersUnique(items: map<Id, Reservation>, id: Id, r: Reservation)
    requires UniqueReservationNumbers(items)
    requires !ReservationNumberTaken(items, r.reservationNumber, Some(id))
    ensures UniqueReservationNumbers(items[id := r])
  {
    var m := items[id := r];
    forall a, b | a in m && b in m && a != b
      ensures m[a].reservationNumber != m[b].reservationNumber
    {
      if a == id {
        assert !(b in items && Some(b) != Some(id) && items[b].reservationNumber == r.reservationNumber);
      } else if b == id {
        assert !(a in items && Some(a) != Some(id) && items[a].reservationNumber == r.reservationNumber);
      }
    }
  }

  lemma InsertKeepsNoDoubleBooking(items: map<Id, Reservation>, id: Id, r: Reservation, exclude: Option<Id>)
    requires NoDoubleBooking(items)
    requires exclude == None || exclude == Some(id)
    requires !HasConflict(items, r.room, r.checkIn, r.checkOut, exclude)
    ensures NoDoubleBooking(items[id := r])
  {
    var m := items[id := r];
    forall a, b | a in m && b in m && a != b && IsActive(m[a].status)
      ensures !Conflicts(m[b], m[a].room, m[a].checkIn, m[a].checkOut)
    {
      if a == id {
        assert !(b in items && Some(b) != exclude && Conflicts(items[b], r.room, r.checkIn, r.checkOut));
      } else if b == id {
        assert !(a in items && Some(a) != exclude && Conflicts(items[a], r.room, r.checkIn, r.checkOut));
        ConflictSwaps(m[a], r);
      } else {
        assert m[a] == items[a] && m[b] == items[b];
      }
    }
  }

  /** A reservation number can be reused: once an earlier document is
      deleted, the count-based number of the next document is that of the
      newest one still stored, and the unique index refuses the save. */
  lemma NumberReusedAfterDelete(items: map<Id, Reservation>, rooms: map<Id, Room>, input: ReservationInput, freshId: Id)
    requires input.reservationNumber == ""
    requires ReservationNumberTaken(items, ReservationNumberFor(|items|), Some(freshId))
    ensures !CreateOutcome(items, rooms, input, freshId).Created?
  {
    if CreateOutcome(items, rooms, input, freshId).Created? {
      PreparedDerivedFields(freshId, input, |items|, rooms);
    }
  }

  /** Such a store arises by deleting the first of two reservations that
      were numbered from the count: the one left over holds the number the
      count now produces. */
  lemma DeleteLeavesNumberInUse(first: Reservation, second: Reservation, freshId: Id)
    requires first.id != second.id && freshId != second.id
    requires first.reservationNumber == ReservationNumberFor(0)
    requires second.reservationNumber == ReservationNumberFor(1)
    ensures var before := map[first.id := first, second.id := second];
            var after := map k | k in before && k != first.id :: before[k];
            UniqueReservationNumbers(before) && |after| == 1
            && ReservationNumberTaken(after, ReservationNumberFor(|after|), Some(freshId))
  {
    var before := map[first.id := first, second.id := second];
    var after := map k | k in before && k != first.id :: before[k];
    assert after == map[second.id := second];
  }

  /** The body of `PUT /api/reservations/:id` applied by
      `findByIdAndUpdate`: the validated fields are set (with the guest's
      setters applied), the optional ones only when sent. Nights and total
      are not recomputed, since no save hook runs on this path. */
  function ApplyUpdate(r: Reservation, body: ReservationInput): (u: Reservation)
    requires body.checkIn.Some? && body.checkOut.Some?
    ensures u.id == r.id && u.room == body.room
    ensures u.checkIn == body.checkIn.value && u.checkOut == body.checkOut.value
    ensures u.numberOfNights == body.numberOfNights.GetOr(r.numberOfNights)
    ensures u.totalAmount == body.totalAmount.GetOr(r.totalAmount)
    ensures u.status == body.status.GetOr(r.status)
    ensures u.reservationNumber == if body.reservationNumber != "" then body.reservationNumber else r.reservationNumber
  {
    r.(guest := CastGuest(body.guest), room := body.room,
       checkIn := body.checkIn.value, checkOut := body.checkOut.value,
       numberOfGuests := body.numberOfGuests,
       reservationNumber := if body.reservationNumber != "" then body.reservationNumber else r.reservationNumber,
       numberOfNights := body.numberOfNights.GetOr(r.numberOfNights),
       totalAmount := body.totalAmount.GetOr(r.totalAmount),
       status := body.status.GetOr(r.status),
       paymentStatus := body.paymentStatus.GetOr(r.paymentStatus),
       paymentMethod := if body.paymentMethod.Some? then body.paymentMethod else r.paymentMethod)
  }

  /** The update validators (`runValidators`): the schema's checks on the
      paths the body sets. */
  predicate UpdateFieldsValid(body: ReservationInput) {
    && ValidGuest(CastGuest(body.guest))
    && body.room != ""
    && 1 <= body.numberOfGuests <= 10
    && (body.numberOfNights.Some? ==> body.numberOfNights.value >= 1)
    && (body.totalAmount.Some? ==> body.totalAmount.value >= 0)
    && (body.status.Some? ==> body.status.value in RESERVATION_STATUSES)
    && (body.paymentStatus.Some? ==> body.paymentStatus.value in PAYMENT_STATUSES)
    && (body.paymentMethod.Some? ==> body.paymentMethod.value in PAYMENT_METHODS)
  }

  /** Checking only the updated paths is enough: a valid document stays
      valid. */
  lemma ApplyUpdateValid(r: Reservation, body: ReservationInput)
    requires body.checkIn.Some? && body.checkOut.Some?
    requires ValidReservation(r) && UpdateFieldsValid(body)
    ensures ValidReservation(ApplyUpdate(r, body))
  {
  }

  /** The reply of `PUT /api/reservations/:id`. */
  function UpdateOutcome(items: map<Id, Reservation>, id: Id, body: ReservationInput): Reply<Reservation> {
    if ReservationInputErrors(body) != [] then Invalid(ReservationInputErrors(body))
    else if HasConflict(items, body.room, body.checkIn.value, body.checkOut.value, Some(id)) then
      BadRequest("Room is not available for the selected dates")
    else if !UpdateFieldsValid(body) then ServerError("Error updating reservation")
    else if id !in items then NotFound("Reservation not found")
    else
      var u := ApplyUpdate(items[id], body);
      if ReservationNumberTaken(items, u.reservationNumber, Some(id)) then ServerError("Error updating reservation")
      else Ok(u)
  }

  /** An update is refused with 400 exactly when the validator chain fails
      or another active reservation of the room overlaps; an accepted update
      writes the body over an existing document, passed the update
      validators and keeps the reservation number unique. */
  lemma UpdateOutcomeFacts(items: map<Id, Reservation>, id: Id, body: ReservationInput)
    ensures var reply := UpdateOutcome(items, id, body);
            && (reply.Invalid? <==> ReservationInputErrors(body) != [])
            && (reply.BadRequest? <==>
                  (ReservationInputErrors(body) == []
                   && HasConflict(items, body.room, body.checkIn.value, body.checkOut.value, Some(id))))
            && (reply.NotFound? ==> id !in items)
            && (reply.Ok? ==>
                  && id in items && reply.value == ApplyUpdate(items[id], body)
                  && !HasConflict(items, body.room, body.checkIn.value, body.checkOut.value, Some(id))
                  && UpdateFieldsValid(body)
                  && !ReservationNumberTaken(items, reply.value.reservationNumber, Some(id)))
  {
  }

  /** Updating keeps the store invariant, and adds no double booking to a
      store that had none. */
  lemma UpdatePreserves(items: map<Id, Reservation>, id: Id, body: ReservationInput)
    requires StoreInvariant(items)
    requires UpdateOutcome(items, id, body).Ok?
    ensures var m := items[id := UpdateOutcome(items, id, body).value];
            StoreInvariant(m) && (NoDoubleBooking(items) ==> NoDoubleBooking(m))
  {
    var u := UpdateOutcome(items, id, body).value;
    ApplyUpdateValid(items[id], body);
    InsertPreserves(items, id, u, Some(id));
  }

  /** The update's own document is left out of the conflict query: in a
      store without double bookings, re-sending an active reservation's own
      room and dates never conflicts. */
  lemma UpdateIgnoresItself(items: map<Id, Reservation>, id: Id)
    requires NoDoubleBooking(items) && id in items && IsActive(items[id].status)
    ensures !HasConflict(items, items[id].room, items[id].checkIn, items[id].checkOut, Some(id))
  {
  }

  /** The update path can store a stay that ends before it starts: the
      validator does not compare the dates and the nights are not
      recomputed, so the `numberOfNights >= 1` bound does not catch it. */
  lemma UpdateCanInvertStay(items: map<Id, Reservation>, id: Id, body: ReservationInput)
    requires id in items && ReservationInputErrors(body) == [] && UpdateFieldsValid(body)
    requires !HasConflict(items, body.room, body.checkIn.value, body.checkOut.value, Some(id))
    requires body.reservationNumber == "" && UniqueReservationNumbers(items)
    requires body.checkOut.value < body.checkIn.value
    ensures UpdateOutcome(items, id, body).Ok?
    ensures UpdateOutcome(items, id, body).value.checkOut < UpdateOutcome(items, id, body).value.checkIn
  {
    var u := ApplyUpdate(items[id], body);
    assert !ReservationNumberTaken(items, u.reservationNumber, Some(id));
    assert UpdateOutcome(items, id, body) == Ok(u);
  }

  /** The status patch writes `status` and nothing else. */
  function WithStatus(r: Reservation, status: string): (u: Reservation)
    ensures u.status == status && u.(status := r.status) == r
  {
    r.(status := status)
  }

  /** A status patch to an inactive status never double-books. */
  lemma DeactivatingPreserves(items: map<Id, Reservation>, id: Id, status: string)
    requires NoDoubleBooking(items) && id in items && !IsActive(status)
    ensures NoDoubleBooking(items[id := WithStatus(items[id], status)])
  {
  }

  /** The status patch does not re-check overlap: confirming a Pending
      reservation that overlaps a Confirmed one of the same room is
      accepted and leaves the room double-booked. */
  lemma StatusPatchCanDoubleBook(confirmed: Reservation, pending: Reservation)
    requires confirmed.id != pending.id && confirmed.room == pending.room
    requires confirmed.status == "Confirmed" && pending.status == "Pending"
    requires Overlaps(confirmed.checkIn, confirmed.checkOut, pending.checkIn, pending.checkOut)
    ensures var before := map[confirmed.id := confirmed, pending.id := pending];
            && NoDoubleBooking(before)
            && "Confirmed" in RESERVATION_STATUSES
            && !NoDoubleBooking(before[pending.id := WithStatus(pending, "Confirmed")])
  {
    var before := map[confirmed.id := confirmed, pending.id := pending];
    var after := before[pending.id := WithStatus(pending, "Confirmed")];
    assert after[pending.id].status == "Confirmed";
    assert Conflicts(after[confirmed.id], after[pending.id].room, after[pending.id].checkIn, after[pending.id].checkOut);
  }

  /** Removing a document keeps both invariants. */
  lemma DeletePreserves(items: map<Id, Reservation>, id: Id)
    requires StoreInvariant(items)
    ensures var m := map k | k in items && k != id :: items[k];
            StoreInvariant(m) && (NoDoubleBooking(items) ==> NoDoubleBooking(m))
  {
    var m := map k | k in items && k != id :: items[k];
    forall k | k in m ensures m[k].id == k && ValidReservation(m[k]) {
      assert m[k] == items[k];
    }
    forall a, b | a in m && b in m && a != b
      ensures m[a].reservationNumber != m[b].reservationNumber
    {
      assert m[a] == items[a] && m[b] == items[b];
    }
    if NoDoubleBooking(items) {
      forall a, b | a in m && b in m && a != b && IsActive(m[a].status)
        ensures !Conflicts(m[b], m[a].room, m[a].checkIn, m[a].checkOut)
      {
        assert m[a] == items[a] && m[b] == items[b];
      }
    }
  }

  /** A status patch to a listed status keeps the store invariant. */
  lemma StatusPatchKeepsInvariant(items: map<Id, Reservation>, id: Id, status: string)
    requires StoreInvariant(items) && id in items && status in RESERVATION_STATUSES
    ensures StoreInvariant(items[id := WithStatus(items[id], status)])
  {
    var u := WithStatus(items[id], status);
    var m := items[id := u];
    forall k | k in m ensures m[k].id == k && ValidReservation(m[k]) {
      if k != id {
        assert m[k] == items[k];
      }
    }
    forall a, b | a in m && b in m && a != b
      ensures m[a].reservationNumber != m[b].reservationNumber
    {
      assert m[a].reservationNumber == items[a].reservationNumber;
      assert m[b].reservationNumber == items[b].reservationNumber;
    }
  }

  /** The reply body of the availability check. */
  datatype Availability = Availability(available: bool, conflictingReservation: Option<string>)

  /** The query of the list handler; None for an absent (or empty)
      parameter. The guest-email pattern, the room type (read but never
      used) and the sort keys are not part of it. */
  datatype ReservationQuery = ReservationQuery(
    page: int, limit: nat, status: Option<string>, checkIn: Option<int>, checkOut: Option<int>)

  /** The list filter: each given parameter adds one condition. */
  predicate ReservationMatches(r: Reservation, q: ReservationQuery) {
    && (q.status.Some? ==> r.status == q.status.value)
    && (q.checkIn.Some? ==> r.checkIn >= q.checkIn.value)
    && (q.checkOut.Some? ==> r.checkOut <= q.checkOut.value)
  }

  /** The list filter as a test on one reservation. */
  function ReservationFilter(q: ReservationQuery): Reservation -> bool {
    (x: Reservation) => ReservationMatches(x, q)
  }

  /** The documents the list query selects, in sort order. */
  function MatchingReservations(sorted: seq<Reservation>, q: ReservationQuery): seq<Reservation> {
    Filter(sorted, ReservationFilter(q))
  }

  /** `GET /api/reservations` over the documents in sort order: the page of
      matching documents, or None when the skip is negative (a 500). */
  function ListReservations(sorted: seq<Reservation>, q: ReservationQuery): (r: Option<Page<Reservation>>)
    ensures r.None? <==> (q.page - 1) * q.limit < 0
    ensures r.Some? ==> forall i :: 0 <= i < |r.value.items| ==>
              r.value.items[i] in sorted && ReservationMatches(r.value.items[i], q)
    ensures r.Some? ==> r.value.total == |MatchingReservations(sorted, q)| && r.value.currentPage == q.page
    ensures r.Some? ==> r.value.totalPages == TotalPages(|MatchingReservations(sorted, q)|, q.limit)
    ensures r.Some? ==> forall i :: 0 <= i < |r.value.items| ==>
              (q.page - 1) * q.limit + i < |MatchingReservations(sorted, q)|
              && r.value.items[i] == MatchingReservations(sorted, q)[(q.page - 1) * q.limit + i]
    ensures r.Some? && q.limit > 0 ==> |r.value.items| <= q.limit
    ensures r.Some? ==>
              |r.value.items| == if (q.page - 1) * q.limit >= |MatchingReservations(sorted, q)| then 0
                                 else if q.limit == 0 then |MatchingReservations(sorted, q)| - (q.page - 1) * q.limit
                                 else Min(q.limit, |MatchingReservations(sorted, q)| - (q.page - 1) * q.limit)
  {
    PageOf(MatchingReservations(sorted, q), q.page, q.limit)
  }

  /** Every reservation the query selects is listed on some page within the
      page count. */
  lemma ListReservationsCovers(sorted: seq<Reservation>, q: ReservationQuery, k: nat)
    requires q.limit > 0 && k < |sorted| && ReservationMatches(sorted[k], q)
    ensures exists p :: p >= 1 && ListReservations(sorted, q.(page := p)).Some?
                        && ListReservations(sorted, q.(page := p)).value.totalPages.Some?
                        && p <= ListReservations(sorted, q.(page := p)).value.totalPages.value
                        && sorted[k] in ListReservations(sorted, q.(page := p)).value.items
  {
    var m := MatchingReservations(sorted, q);
    assert ReservationFilter(q)(sorted[k]);
    assert sorted[k] in m;
    var j :| 0 <= j < |m| && m[j] == sorted[k];
    var p := j / q.limit + 1;
    PageOfCovers(m, q.limit, j);
    FilterSameTest(sorted, ReservationFilter(q.(page := p)), ReservationFilter(q));
    assert MatchingReservations(sorted, q.(page := p)) == m;
    assert ListReservations(sorted, q.(page := p)) == PageOf(m, p, q.limit);
  }

  /** The conflict query (`Reservation.findOne`): some conflicting
      document other than `exclude`, or None when there is none. */
  method FindConflict(items: map<Id, Reservation>, room: Id, checkIn: int, checkOut: int, exclude: Option<Id>)
    returns (found: Option<Id>)
    ensures found.Some? ==> found.value in items && Some(found.value) != exclude
                            && Conflicts(items[found.value], room, checkIn, checkOut)
    ensures found.None? <==> !HasConflict(items, room, checkIn, checkOut, exclude)
  {
    var keys := items.Keys;
    while keys != {}
      invariant keys <= items.Keys
      invariant forall k :: k in items && k !in keys && Some(k) != exclude ==>
                  !Conflicts(items[k], room, checkIn, checkOut)
      decreases |keys|
    {
      var k :| k in keys;
      if Some(k) != exclude && Conflicts(items[k], room, checkIn, checkOut) {
        return Some(k);
      }
      keys := keys - {k};
    }
    return None;
  }

  /** The checks of `POST /api/reservations` in the handler's order, up to
      the record it would write. */
  method DecideCreate(items: map<Id, Reservation>, rooms: map<Id, Room>, input: ReservationInput, freshId: Id)
    returns (reply: Reply<Reservation>)
    ensures reply == CreateOutcome(items, rooms, input, freshId)
  {
    var errors := ReservationInputErrors(input);
    if errors != [] {
      return Invalid(errors);
    }
    var conflict := FindConflict(items, input.room, input.checkIn.value, input.checkOut.value, None);
    if conflict.Some? {
      return BadRequest("Room is not available for the selected dates");
    }
    if input.room !in rooms {
      return NotFound("Room not found");
    }
    if rooms[input.room].status != "Available" {
      return BadRequest("Room is not available");
    }
    var record := SaveNewReservation(freshId, input, |items|, rooms);
    if record.None? || ReservationNumberTaken(items, record.value.reservationNumber, Some(freshId)) {
      return ServerError("Error creating reservation");
    }
    reply := Created(record.value);
  }

  /** The checks of `PUT /api/reservations/:id` in the handler's order, up
      to the record it would write. */
  method DecideUpdate(items: map<Id, Reservation>, id: Id, body: ReservationInput) returns (reply: Reply<Reservation>)
    ensures reply == UpdateOutcome(items, id, body)
  {
    var errors := ReservationInputErrors(body);
    if errors != [] {
      return Invalid(errors);
    }
    var conflict := FindConflict(items, body.room, body.checkIn.value, body.checkOut.value, Some(id));
    if conflict.Some? {
      return BadRequest("Room is not available for the selected dates");
    }
    if !UpdateFieldsValid(body) {
      return ServerError("Error updating reservation");
    }
    if id !in items {
      return NotFound("Reservation not found");
    }
    var updated := ApplyUpdate(items[id], body);
    if ReservationNumberTaken(items, updated.reservationNumber, Some(id)) {
      return ServerError("Error updating reservation");
    }
    reply := Ok(updated);
  }

  /** The reservation collection. */
  class ReservationStore {
    var items: map<Id, Reservation>

    /** What every handler keeps. No-overlap is not part of it: the status
        patch can break it, and the other handlers do not restore it. */
    ghost predicate Valid()
      reads this
    {
      StoreInvariant(items)
    }

    constructor ()
      ensures items == map[] && Valid()
    {
      items := map[];
    }

    /** `POST /api/reservations`. */
    method Create(rooms: map<Id, Room>, input: ReservationInput, freshId: Id) returns (reply: Reply<Reservation>)
      requires Valid() && freshId !in items
      modifies this
      ensures Valid() && (old(NoDoubleBooking(items)) ==> NoDoubleBooking(items))
      ensures reply == CreateOutcome(old(items), rooms, input, freshId)
      ensures items == if reply.Created? then old(items)[freshId := reply.value] else old(items)
    {
      reply := DecideCreate(items, rooms, input, freshId);
      if reply.Created? {
        CreatePreserves(items, rooms, input, freshId);
        items := items[freshId := reply.value];
      }
    }

    /** `PUT /api/reservations/:id`. */
    method Update(id: Id, body: ReservationInput) returns (reply: Reply<Reservation>)
      requires Valid()
      modifies this
      ensures Valid() && (old(NoDoubleBooking(items)) ==> NoDoubleBooking(items))
      ensures reply == UpdateOutcome(old(items), id, body)
      ensures items == if reply.Ok? then old(items)[id := reply.value] else old(items)
    {
      reply := DecideUpdate(items, id, body);
      if reply.Ok? {
        UpdatePreserves(items, id, body);
        items := items[id := reply.value];
      }
    }

    /** `PATCH /api/reservations/:id/status`: only a listed status is
        written, and only to `status`; overlap is not re-checked, so only
        the store invariant is kept. */
    method PatchStatus(id: Id, status: string) returns (reply: Reply<Reservation>)
      requires Valid()
      modifies this
      ensures Valid()
      ensures status !in RESERVATION_STATUSES ==> reply == BadRequest("Invalid status") && items == old(items)
      ensures status in RESERVATION_STATUSES && id !in old(items) ==>
                reply == NotFound("Reservation not found") && items == old(items)
      ensures status in RESERVATION_STATUSES && id in old(items) ==>
                reply == Ok(WithStatus(old(items)[id], status))
                && items == old(items)[id := WithStatus(old(items)[id], status)]
    {
      if status !in RESERVATION_STATUSES {
        return BadRequest("Invalid status");
      }
      if id !in items {
        return NotFound("Reservation not found");
      }
      var updated := WithStatus(items[id], status);
      StatusPatchKeepsInvariant(items, id, status);
      items := items[id := updated];
      reply := Ok(updated);
    }

    /** `DELETE /api/reservations/:id`. */
    method Delete(id: Id) returns (reply: Reply<string>)
      requires Valid()
      modifies this
      ensures Valid() && (old(NoDoubleBooking(items)) ==> NoDoubleBooking(items))
      ensures id in old(items) ==> reply == Ok("Reservation deleted successfully")
                                   && items == map k | k in old(items) && k != id :: old(items)[k]
      ensures id !in old(items) ==> reply == NotFound("Reservation not found") && items == old(items)
    {
      if id !in items {
        return NotFound("Reservation not found");
      }
      DeletePreserves(items, id);
      items := map k | k in items && k != id :: items[k];
      reply := Ok("Reservation deleted successfully");
    }

    /** `GET /api/reservations/availability/check`: `room` is "" and a date
        None when the parameter is absent. */
    method CheckAvailability(room: Id, checkIn: Option<int>, checkOut: Option<int>) returns (reply: Reply<Availability>)
      ensures reply.BadRequest? <==> room == "" || checkIn.None? || checkOut.None?
      ensures reply.BadRequest? || reply.Ok?
      ensures reply.Ok? ==>
                && (reply.value.available <==> !HasConflict(items, room, checkIn.value, checkOut.value, None))
                && (reply.value.conflictingReservation.None? <==> reply.value.available)
                && (reply.value.conflictingReservation.Some? ==>
                      exists k :: k in items && Conflicts(items[k], room, checkIn.value, checkOut.value)
                                  && items[k].reservationNumber == reply.value.conflictingReservation.value)
    {
      if room == "" || checkIn.None? || checkOut.None? {
        return BadRequest("Room ID, check-in date, and check-out date are required");
      }
      var found := FindConflict(items, room, checkIn.value, checkOut.value, None);
      if found.Some? {
        reply := Ok(Availability(false, Some(items[found.value].reservationNumber)));
      } else {
        reply := Ok(Availability(true, None));
      }
    }
  }
}
