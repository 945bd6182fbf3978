/** The booking handlers over an in-memory booking collection: the two
    validator chains, create (guarded by the reservation's status), update,
    the status and staff patches, delete, and the list, per-reservation and
    per-staff queries with their one-day date window. */
module BookingRoutes {
  import opened Common
  import opened Text
  import opened Reservations
  import opened ReservationRoutes
  import opened Bookings

  /** What `validateBooking` (create) or `validateBookingUpdate` accepts:
      the update chain is the create chain without the reservation id. */
  predicate BookingInputAccepted(input: BookingInput, create: bool) {
    && (create ==> IsObjectId(input.reservation))
    && input.serviceType != "" && input.serviceName != ""
    && input.scheduledDate.Some? && input.scheduledTime != ""
    && input.duration >= 15 && input.price >= 0 && input.quantity >= 1
  }

  /** The chain's error list: the failing fields, in declaration order. */
  function BookingInputErrors(input: BookingInput, create: bool): (errors: seq<string>)
    ensures errors == [] <==> BookingInputAccepted(input, create)
    ensures |errors| <= 8
  {
    (if create && !IsObjectId(input.reservation) then ["reservation"] else [])
    + (if input.serviceType == "" then ["serviceType"] else [])
    + (if input.serviceName == "" then ["serviceName"] else [])
    + (if input.scheduledDate.None? then ["scheduledDate"] else [])
    + (if input.scheduledTime == "" then ["scheduledTime"] else [])
    + (if input.duration < 15 then ["duration"] else [])
    + (if input.price < 0 then ["price"] else [])
    + (if input.quantity < 1 then ["quantity"] else [])
  }

  /** The update chain is the create chain without the reservation check. */
  lemma UpdateChainDropsReservation(input: BookingInput)
    ensures BookingInputAccepted(input, true) ==> BookingInputAccepted(input, false)
    ensures BookingInputAccepted(input, false) && IsObjectId(input.reservation) ==> BookingInputAccepted(input, true)
  {
  }

  predicate BookingNumberTaken(items: map<Id, Booking>, number: string, except: Option<Id>) {
    exists k :: k in items && Some(k) != except && items[k].bookingNumber == number
  }

  /** Bookings are keyed by id and valid, with unique numbers. */
  predicate BookingStoreInvariant(items: map<Id, Booking>) {
    KeyedValidBookings(items) && UniqueBookingNumbers(items)
  }

  predicate KeyedValidBookings(items: map<Id, Booking>) {
    forall k :: k in items ==> items[k].id == k && ValidBooking(items[k])
  }

  /** The reply of `POST /api/bookings`, with `reservations` the reservation
      collection. */
  function BookingCreateOutcome(items: map<Id, Booking>, reservations: map<Id, Reservation>,
                                input: BookingInput, freshId: Id): Reply<Booking>
  {
    if BookingInputErrors(input, true) != [] then Invalid(BookingInputErrors(input, true))
    else if input.reservation !in reservations then NotFound("Reservation not found")
    else if !IsActive(reservations[input.reservation].status) then
      BadRequest("Cannot create booking for reservation with status: " + reservations[input.reservation].status)
    else match PreparedBooking(freshId, input, |items|)
      case None => ServerError("Error creating booking")
      case Some(b) =>
        if BookingNumberTaken(items, b.bookingNumber, Some(freshId)) then ServerError("Error creating booking")
        else Created(b)
  }

  /** A booking is created only for an existing reservation that is
      Confirmed or Checked In: a missing one gives 404, one in another
      status 400. A created booking is valid, uniquely numbered and refers
      to that reservation. */
  lemma BookingCreateFacts(items: map<Id, Booking>, reservations: map<Id, Reservation>, input: BookingInput, freshId: Id)
    ensures var reply := BookingCreateOutcome(items, reservations, input, freshId);
            && (reply.Invalid? <==> !BookingInputAccepted(input, true))
            && (reply.NotFound? <==> BookingInputAccepted(input, true) && input.reservation !in reservations)
            && (reply.BadRequest? <==>
                  (BookingInputAccepted(input, true) && input.reservation in reservations
                   && reservations[input.reservation].status != "Confirmed"
                   && reservations[input.reservation].status != "Checked In"))
            && (reply.Created? ==>
                  && reply.value.id == freshId && ValidBooking(reply.value)
                  && reply.value.reservation == input.reservation
                  && input.reservation in reservations && IsActive(reservations[input.reservation].status)
                  && !BookingNumberTaken(items, reply.value.bookingNumber, Some(freshId)))
  {
  }

  /** With a zero price the total hook does not run, so a create without
      an explicit total fails the schema's required total (500). */
  lemma ZeroPriceNeedsTotal(items: map<Id, Booking>, reservations: map<Id, Reservation>, input: BookingInput, freshId: Id)
    requires BookingInputAccepted(input, true) && input.reservation in reservations
    requires IsActive(reservations[input.reservation].status)
    requires input.price == 0 && input.totalAmount.None?
    ensures BookingCreateOutcome(items, reservations, input, freshId) == ServerError("Error creating booking")
  {
    PreparedBookingTotal(freshId, input, |items|);
  }

  /** The body written over a stored booking by `findByIdAndUpdate`; no
      save hook runs on this path, so the total is only what the body
      sends. */
  function ApplyBookingUpdate(b: Booking, body: BookingInput): (u: Booking)
    requires body.scheduledDate.Some?
    ensures u.id == b.id && u.bookingNumber == (if body.bookingNumber != "" then body.bookingNumber else b.bookingNumber)
    ensures u.price == body.price && u.quantity == body.quantity
    ensures u.totalAmount == body.totalAmount.GetOr(b.totalAmount)
    ensures u.assignedStaff == (if body.assignedStaff.Some? then body.assignedStaff else b.assignedStaff)
  {
    b.(bookingNumber := if body.bookingNumber != "" then body.bookingNumber else b.bookingNumber,
       reservation := if body.reservation != "" then body.reservation else b.reservation,
       serviceType := body.serviceType, serviceName := Trim(body.serviceName),
       scheduledDate := body.scheduledDate.value, scheduledTime := body.scheduledTime,
       duration := body.duration, price := body.price, quantity := body.quantity,
       totalAmount := body.totalAmount.GetOr(b.totalAmount),
       status := body.status.GetOr(b.status), paymentStatus := body.paymentStatus.GetOr(b.paymentStatus),
       assignedStaff := if body.assignedStaff.Some? then body.assignedStaff else b.assignedStaff)
  }

  /** The update validators on the paths the body sets. */
  predicate BookingUpdateFieldsValid(body: BookingInput) {
    && body.serviceType in SERVICE_TYPES
    && Trim(body.serviceName) != ""
    && body.duration >= 15 && body.price >= 0 && body.quantity >= 1
    && (body.totalAmount.Some? ==> body.totalAmount.value >= 0)
    && (body.status.Some? ==> body.status.value in BOOKING_STATUSES)
    && (body.paymentStatus.Some? ==> body.paymentStatus.value in PAYMENT_STATUSES)
  }

  /** Checking the updated paths is enough: a valid booking stays valid. */
  lemma ApplyBookingUpdateValid(b: Booking, body: BookingInput)
    requires body.scheduledDate.Some? && ValidBooking(b)
    requires BookingInputAccepted(body, false) && BookingUpdateFieldsValid(body)
    ensures ValidBooking(ApplyBookingUpdate(b, body))
  {
    TrimmedIff(body.serviceName);
  }

  /** The reply of `PUT /api/bookings/:id`. */
  function BookingUpdateOutcome(items: map<Id, Booking>, id: Id, body: BookingInput): Reply<Booking> {
    if BookingInputErrors(body, false) != [] then Invalid(BookingInputErrors(body, false))
    else if !BookingUpdateFieldsValid(body) then ServerError("Error updating booking")
    else if id !in items then NotFound("Booking not found")
    else
      var u := ApplyBookingUpdate(items[id], body);
      if BookingNumberTaken(items, u.bookingNumber, Some(id)) then ServerError("Error updating booking")
      else Ok(u)
  }

  /** An update leaves a stale total: when the body changes the quantity of
      a booking whose total was price times quantity, and sends no total,
      the stored total no longer equals price times quantity. */
  lemma UpdateLeavesStaleTotal(items: map<Id, Booking>, id: Id, body: BookingInput)
    requires BookingUpdateOutcome(items, id, body).Ok?
    requires items[id].totalAmount == items[id].price * items[id].quantity
    requires body.totalAmount.None? && body.price == items[id].price && body.price != 0
    requires body.quantity != items[id].quantity
    ensures var u := BookingUpdateOutcome(items, id, body).value;
            u.totalAmount == items[id].totalAmount && u.totalAmount != u.price * u.quantity
  {
    var b := items[id];
    assert BookingUpdateOutcome(items, id, body).value == ApplyBookingUpdate(b, body);
    ProductChanges(b.price, b.quantity, body.quantity);
  }

  lemma ProductChanges(p: int, q: int, q': int)
    requires p != 0 && q != q'
    ensures p * q != p * q'
  {
    assert p * q - p * q' == p * (q - q');
  }

  lemma InsertBookingPreserves(items: map<Id, Booking>, id: Id, b: Booking)
    requires BookingStoreInvariant(items)
    requires b.id == id && ValidBooking(b) && !BookingNumberTaken(items, b.bookingNumber, Some(id))
    ensures BookingStoreInvariant(items[id := b])
  {
    var m := items[id := b];
    forall k | k in m ensures m[k].id == k && ValidBooking(m[k]) {
      if k != id {
        assert m[k] == items[k];
      }
    }
    forall x, y | x in m && y in m && x != y
      ensures m[x].bookingNumber != m[y].bookingNumber
    {
      if x == id {
        assert !(y in items && Some(y) != Some(id) && items[y].bookingNumber == b.bookingNumber);
      } else if y == id {
        assert !(x in items && Some(x) != Some(id) && items[x].bookingNumber == b.bookingNumber);
      }
    }
  }

  /** Creating and updating keep the store invariant. */
  lemma BookingWritesPreserve(items: map<Id, Booking>, reservations: map<Id, Reservation>, id: Id, input: BookingInput)
    requires BookingStoreInvariant(items)
    ensures id !in items && BookingCreateOutcome(items, reservations, input, id).Created? ==>
              BookingStoreInvariant(items[id := BookingCreateOutcome(items, reservations, input, id).value])
    ensures BookingUpdateOutcome(items, id, input).Ok? ==>
              BookingStoreInvariant(items[id := BookingUpdateOutcome(items, id, input).value])
  {
    if id !in items && BookingCreateOutcome(items, reservations, input, id).Created? {
      BookingCreateFacts(items, reservations, input, id);
      InsertBookingPreserves(items, id, BookingCreateOutcome(items, reservations, input, id).value);
    }
    if BookingUpdateOutcome(items, id, input).Ok? {
      var u := BookingUpdateOutcome(items, id, input).value;
      ApplyBookingUpdateValid(items[id], input);
      InsertBookingPreserves(items, id, u);
    }
  }

  /** A patch that rewrites one booking's status (to a listed one) or its
      assigned staff keeps the store invariant. */
  lemma BookingPatchPreserves(items: map<Id, Booking>, id: Id, b: Booking)
    requires BookingStoreInvariant(items) && id in items
    requires b.id == id && ValidBooking(b) && b.bookingNumber == items[id].bookingNumber
    ensures BookingStoreInvariant(items[id := b])
  {
    var m := items[id := b];
    forall k | k in m ensures m[k].id == k && ValidBooking(m[k]) {
      if k != id {
        assert m[k] == items[k];
      }
    }
    forall x, y | x in m && y in m && x != y
      ensures m[x].bookingNumber != m[y].bookingNumber
    {
      assert m[x].bookingNumber == items[x].bookingNumber && m[y].bookingNumber == items[y].bookingNumber;
    }
  }

  lemma BookingDeletePreserves(items: map<Id, Booking>, id: Id)
    requires BookingStoreInvariant(items)
    ensures BookingStoreInvariant(map k | k in items && k != id :: items[k])
  {
    var m := map k | k in items && k != id :: items[k];
    forall k | k in m ensures m[k].id == k && ValidBooking(m[k]) {
      assert m[k] == items[k];
    }
    forall x, y | x in m && y in m && x != y
      ensures m[x].bookingNumber != m[y].bookingNumber
    {
      assert m[x] == items[x] && m[y] == items[y];
    }
  }

  /** `[date, date + 1 day)`: the scheduled-date filter of the list and
      staff queries. */
  predicate InDayWindow(instant: int, date: int) {
    date <= instant < date + MS_PER_DAY
  }

  /** The windows of successive days tile the time line: every instant is
      in the window of exactly one day offset from `date`. */
  lemma DayWindowsTile(instant: int, date: int, k: int, j: int)
    requires InDayWindow(instant, date + k * MS_PER_DAY) && InDayWindow(instant, date + j * MS_PER_DAY)
    ensures k == j
  {
    if k < j {
      MulMonotone(k + 1, j, MS_PER_DAY);
    } else if j < k {
      MulMonotone(j + 1, k, MS_PER_DAY);
    }
  }

  lemma DayWindowExists(instant: int, date: int)
    ensures InDayWindow(instant, date + ((instant - date) / MS_PER_DAY) * MS_PER_DAY)
  {
  }

  /** The list query; None for an absent (or empty) parameter. */
  datatype BookingQuery = BookingQuery(
    page: int,
    limit: nat,
    status: Option<string>,
    serviceType: Option<string>,
    reservation: Option<Id>,
    assignedStaff: Option<Id>,
    scheduledDate: Option<int>)

  predicate BookingMatches(b: Booking, q: BookingQuery) {
    && (q.status.Some? ==> b.status == q.status.value)
    && (q.serviceType.Some? ==> b.serviceType == q.serviceType.value)
    && (q.reservation.Some? ==> b.reservation == q.reservation.value)
    && (q.assignedStaff.Some? ==> b.assignedStaff == q.assignedStaff)
    && (q.scheduledDate.Some? ==> InDayWindow(b.scheduledDate, q.scheduledDate.value))
  }

  /** The list filter as a test on one booking. */
  function BookingFilter(q: BookingQuery): Booking -> bool {
    (x: Booking) => BookingMatches(x, q)
  }

  /** The documents the list query selects, in sort order. */
  function MatchingBookings(sorted: seq<Booking>, q: BookingQuery): seq<Booking> {
    Filter(sorted, BookingFilter(q))
  }

  /** `GET /api/bookings` over the bookings in sort order: at most `limit`
      matching bookings from offset `(page - 1) * limit`, with the count and
      `ceil(total / limit)` pages. */
  function ListBookings(sorted: seq<Booking>, q: BookingQuery): (r: Option<Page<Booking>>)
    ensures r.None? <==> (q.page - 1) * q.limit < 0
    ensures r.Some? ==> forall i :: 0 <= i < |r.value.items| ==>
              r.value.items[i] in sorted && BookingMatches(r.value.items[i], q)
    ensures r.Some? ==> r.value.total == |MatchingBookings(sorted, q)| && r.value.currentPage == q.page
    ensures r.Some? ==> r.value.totalPages == TotalPages(|MatchingBookings(sorted, q)|, q.limit)
    ensures r.Some? ==> forall i :: 0 <= i < |r.value.items| ==>
              (q.page - 1) * q.limit + i < |MatchingBookings(sorted, q)|
              && r.value.items[i] == MatchingBookings(sorted, q)[(q.page - 1) * q.limit + i]
    ensures r.Some? && q.limit > 0 ==> |r.value.items| <= q.limit
    ensures r.Some? ==>
              |r.value.items| == if (q.page - 1) * q.limit >= |MatchingBookings(sorted, q)| then 0
                                 else if q.limit == 0 then |MatchingBookings(sorted, q)| - (q.page - 1) * q.limit
                                 else Min(q.limit, |MatchingBookings(sorted, q)| - (q.page - 1) * q.limit)
  {
    PageOf(MatchingBookings(sorted, q), q.page, q.limit)
  }

  /** Every booking the query selects is listed on some page within the
      page count. */
  lemma ListBookingsCovers(sorted: seq<Booking>, q: BookingQuery, k: nat)
    requires q.limit > 0 && k < |sorted| && BookingMatches(sorted[k], q)
    ensures exists p :: p >= 1 && ListBookings(sorted, q.(page := p)).Some?
                        && ListBookings(sorted, q.(page := p)).value.totalPages.Some?
                        && p <= ListBookings(sorted, q.(page := p)).value.totalPages.value
                        && sorted[k] in ListBookings(sorted, q.(page := p)).value.items
  {
    var m := MatchingBookings(sorted, q);
    assert BookingFilter(q)(sorted[k]);
    assert sorted[k] in m;
    var j :| 0 <= j < |m| && m[j] == sorted[k];
    var p := j / q.limit + 1;
    PageOfCovers(m, q.limit, j);
    FilterSameTest(sorted, BookingFilter(q.(page := p)), BookingFilter(q));
    assert MatchingBookings(sorted, q.(page := p)) == m;
    assert ListBookings(sorted, q.(page := p)) == PageOf(m, p, q.limit);
  }

  /** `GET /api/bookings/reservation/:reservationId`. */
  function BookingsForReservation(sorted: seq<Booking>, reservation: Id): (r: seq<Booking>)
    ensures forall i :: 0 <= i < |r| ==> r[i] in sorted && r[i].reservation == reservation
    ensures forall i :: 0 <= i < |sorted| && sorted[i].reservation == reservation ==> sorted[i] in r
  {
    Filter(sorted, (x: Booking) => x.reservation == reservation)
  }

  /** `GET /api/bookings/staff/:staffId`, optionally restricted to one day. */
  function StaffBookings(sorted: seq<Booking>, staff: Id, date: Option<int>): (r: seq<Booking>)
    ensures forall i :: 0 <= i < |r| ==>
              (r[i] in sorted && r[i].assignedStaff == Some(staff)
               && (date.Some? ==> date.value <= r[i].scheduledDate < date.value + MS_PER_DAY))
    ensures forall i :: (0 <= i < |sorted| && sorted[i].assignedStaff == Some(staff)
                         && (date.Some? ==> InDayWindow(sorted[i].scheduledDate, date.value))) ==> sorted[i] in r
  {
    Filter(sorted, (x: Booking) => x.assignedStaff == Some(staff) && (date.Some? ==> InDayWindow(x.scheduledDate, date.value)))
  }

  /** The booking collection. */
  class BookingStore {
    var items: map<Id, Booking>

    ghost predicate Valid()
      reads this
    {
      BookingStoreInvariant(items)
    }

    constructor ()
      ensures items == map[] && Valid()
    {
      items := map[];
    }

    /** `POST /api/bookings`. */
    method Create(reservations: map<Id, Reservation>, input: BookingInput, freshId: Id) returns (reply: Reply<Booking>)
      requires Valid() && freshId !in items
      modifies this
      ensures Valid()
      ensures reply == BookingCreateOutcome(old(items), reservations, input, freshId)
      ensures items == if reply.Created? then old(items)[freshId := reply.value] else old(items)
    {
      var errors := BookingInputErrors(input, true);
      if errors != [] {
        return Invalid(errors);
      }
      if input.reservation !in reservations {
        return NotFound("Reservation not found");
      }
      var status := reservations[input.reservation].status;
      if !IsActive(status) {
        return BadRequest("Cannot create booking for reservation with status: " + status);
      }
      var record := SaveNewBooking(freshId, input, |items|);
      if record.None? || BookingNumberTaken(items, record.value.bookingNumber, Some(freshId)) {
        return ServerError("Error creating booking");
      }
      InsertBookingPreserves(items, freshId, record.value);
      items := items[freshId := record.value];
      reply := Created(record.value);
    }

    /** `PUT /api/bookings/:id`. */
    method Update(id: Id, body: BookingInput) returns (reply: Reply<Booking>)
      requires Valid()
      modifies this
      ensures Valid()
      ensures reply == BookingUpdateOutcome(old(items), id, body)
      ensures items == if reply.Ok? then old(items)[id := reply.value] else old(items)
    {
      var errors := BookingInputErrors(body, false);
      if errors != [] {
        return Invalid(errors);
      }
      if !BookingUpdateFieldsValid(body) {
        return ServerError("Error updating booking");
      }
      if id !in items {
        return NotFound("Booking not found");
      }
      var updated := ApplyBookingUpdate(items[id], body);
      if BookingNumberTaken(items, updated.bookingNumber, Some(id)) {
        return ServerError("Error updating booking");
      }
      ApplyBookingUpdateValid(items[id], body);
      InsertBookingPreserves(items, id, updated);
      items := items[id := updated];
      reply := Ok(updated);
    }

    /** `PATCH /api/bookings/:id/status`: only a listed status is written,
        and only to `status`. */
    method PatchStatus(id: Id, status: string) returns (reply: Reply<Booking>)
      requires Valid()
      modifies this
      ensures Valid()
      ensures status !in BOOKING_STATUSES ==> reply == BadRequest("Invalid status") && items == old(items)
      ensures status in BOOKING_STATUSES && id !in old(items) ==>
                reply == NotFound("Booking not found") && items == old(items)
      ensures status in BOOKING_STATUSES && id in old(items) ==>
                reply == Ok(old(items)[id].(status := status))
                && items == old(items)[id := old(items)[id].(status := status)]
    {
      if status !in BOOKING_STATUSES {
        return BadRequest("Invalid status");
      }
      if id !in items {
        return NotFound("Booking not found");
      }
      var updated := items[id].(status := status);
      BookingPatchPreserves(items, id, updated);
      items := items[id := updated];
      reply := Ok(updated);
    }

    /** `PATCH /api/bookings/:id/assign`: an empty staff id is refused;
        otherwise only `assignedStaff` is written. */
    method Assign(id: Id, staff: Id) returns (reply: Reply<Booking>)
      requires Valid()
      modifies this
      ensures Valid()
      ensures staff == "" ==> reply == BadRequest("Staff ID is required") && items == old(items)
      ensures staff != "" && id !in old(items) ==> reply == NotFound("Booking not found") && items == old(items)
      ensures staff != "" && id in old(items) ==>
                reply == Ok(old(items)[id].(assignedStaff := Some(staff)))
                && items == old(items)[id := old(items)[id].(assignedStaff := Some(staff))]
    {
      if staff == "" {
        return BadRequest("Staff ID is required");
      }
      if id !in items {
        return NotFound("Booking not found");
      }
      var updated := items[id].(assignedStaff := Some(staff));
      BookingPatchPreserves(items, id, updated);
      items := items[id := updated];
      reply := Ok(updated);
    }

    /** `DELETE /api/bookings/:id`. */
    method Delete(id: Id) returns (reply: Reply<string>)
      requires Valid()
      modifies this
      ensures Valid()
      ensures id in old(items) ==> reply == Ok("Booking deleted successfully")
                                   && items == map k | k in old(items) && k != id :: old(items)[k]
      ensures id !in old(items) ==> reply == NotFound("Booking not found") && items == old(items)
    {
      if id !in items {
        return NotFound("Booking not found");
      }
      BookingDeletePreserves(items, id);
      items := map k | k in items && k != id :: items[k];
      reply := Ok("Booking deleted successfully");
    }
  }
}
