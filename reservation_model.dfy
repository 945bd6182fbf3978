/** The Reservation document: embedded guest, enumerations and bounds,
    the `guest.fullName` virtual, and the two pre-save hooks that number a
    new reservation and derive its nights and total. */
module Reservations {
  import opened Common
  import opened Text
  import opened Rooms

  const RESERVATION_STATUSES: seq<string> :=
    ["Pending", "Confirmed", "Checked In", "Checked Out", "Cancelled", "No Show"]
  const PAYMENT_STATUSES: seq<string> := ["Pending", "Paid", "Partially Paid", "Refunded"]
  const PAYMENT_METHODS: seq<string> :=
    ["Credit Card", "Debit Card", "Cash", "Bank Transfer", "Online Payment"]
  const ID_TYPES: seq<string> := ["Passport", "Driver License", "National ID", "Other"]

  const DEFAULT_STATUS: string := "Pending"
  const DEFAULT_PAYMENT_STATUS: string := "Pending"

  datatype Address = Address(street: string, city: string, state: string, zipCode: string, country: string)

  datatype Guest = Guest(
    firstName: string,
    lastName: string,
    email: string,
    phone: string,
    address: Address,
    idType: Option<string>,
    idNumber: string)

  /** A stored reservation. Dates are milliseconds since the epoch and money
      is in cents; free-text fields and audit references are not modelled. */
  datatype Reservation = Reservation(
    id: Id,
    reservationNumber: string,
    guest: Guest,
    room: Id,
    checkIn: int,
    checkOut: int,
    numberOfGuests: int,
    numberOfNights: int,
    totalAmount: int,
    status: string,
    paymentStatus: string,
    paymentMethod: Option<string>)

  /** The guest sub-schema: required trimmed names, email (also lower-cased)
      and phone, and a listed identity document type if one is given. */
  predicate ValidGuest(g: Guest) {
    && g.firstName != "" && Trimmed(g.firstName)
    && g.lastName != "" && Trimmed(g.lastName)
    && g.email != "" && Trimmed(g.email) && IsLowerCase(g.email)
    && g.phone != "" && Trimmed(g.phone)
    && (g.idType.Some? ==> g.idType.value in ID_TYPES)
  }

  /** What the schema accepts for a stored reservation. */
  predicate ValidReservation(r: Reservation) {
    && r.reservationNumber != ""
    && ValidGuest(r.guest)
    && r.room != ""
    && 1 <= r.numberOfGuests <= 10
    && r.numberOfNights >= 1
    && r.totalAmount >= 0
    && r.status in RESERVATION_STATUSES
    && r.paymentStatus in PAYMENT_STATUSES
    && (r.paymentMethod.Some? ==> r.paymentMethod.value in PAYMENT_METHODS)
  }

  /** The unique index on reservationNumber. */
  predicate UniqueReservationNumbers(items: map<Id, Reservation>) {
    forall a, b :: a in items && b in items && a != b ==>
      items[a].reservationNumber != items[b].reservationNumber
  }

  /** The `guest.fullName` virtual: first name, one space, last name. */
  function FullName(g: Guest): (name: string)
    ensures |name| == |g.firstName| + 1 + |g.lastName|
    ensures name[..|g.firstName|] == g.firstName
    ensures name[|g.firstName|] == ' '
    ensures name[|g.firstName| + 1..] == g.lastName
  {
    g.firstName + " " + g.lastName
  }

  /** `"RES" + String(count + 1).padStart(6, '0')`. */
  function ReservationNumberFor(count: nat): (number: string)
    ensures |number| >= 9 && number[..3] == "RES"
    ensures AllDigits(number[3..]) && ParseDigits(number[3..]) == count + 1
  {
    var number := "RES" + Pad6(count + 1);
    assert number[3..] == Pad6(count + 1);
    Pad6RoundTrip(count + 1);
    number
  }

  /** Distinct document counts give distinct reservation numbers. */
  lemma ReservationNumberInjective(a: nat, b: nat)
    requires ReservationNumberFor(a) == ReservationNumberFor(b)
    ensures a == b
  {
    assert ReservationNumberFor(a)[3..] == ReservationNumberFor(b)[3..];
  }

  /** `Math.ceil((checkOut - checkIn) / (1000 * 3600 * 24))`. */
  function NightsBetween(checkIn: int, checkOut: int): (nights: int)
    ensures (nights - 1) * MS_PER_DAY < checkOut - checkIn <= nights * MS_PER_DAY
  {
    CeilDiv(checkOut - checkIn, MS_PER_DAY)
  }

  /** At least one night is charged exactly when check-out is after
      check-in, so the `numberOfNights >= 1` bound rejects every stay that
      does not move forward in time. */
  lemma NightsPositiveIff(checkIn: int, checkOut: int)
    ensures NightsBetween(checkIn, checkOut) >= 1 <==> checkOut > checkIn
  {
    var n := NightsBetween(checkIn, checkOut);
    if n >= 1 {
      MulMonotone(0, n - 1, MS_PER_DAY);
    } else {
      MulMonotone(n, 0, MS_PER_DAY);
    }
  }

  /** The numbering hook: only a new document without a number gets one. */
  function NumberAfterHook(current: string, isNew: bool, count: nat): (number: string)
    ensures isNew && current == "" ==>
              |number| >= 9 && number[..3] == "RES" && AllDigits(number[3..])
              && ParseDigits(number[3..]) == count + 1
    ensures !(isNew && current == "") ==> number == current
  {
    if isNew && current == "" then ReservationNumberFor(count) else current
  }

  /** The total part of the derived-field hook: with the room found and a
      non-zero night count the total is price times nights; otherwise the
      total the document already had is kept. */
  function TotalAfterHook(current: Option<int>, roomPrice: Option<int>, nights: int): (total: Option<int>)
    ensures roomPrice.Some? && nights != 0 ==> total == Some(roomPrice.value * nights)
    ensures roomPrice.None? || nights == 0 ==> total == current
  {
    if roomPrice.Some? && nights != 0 then Some(roomPrice.value * nights) else current
  }

  /** The body of a create or update request (`req.body`). A date that is
      missing or not an ISO 8601 string is None; absent optional fields are
      None; an absent reservation number is the empty string. */
  datatype ReservationInput = ReservationInput(
    guest: Guest,
    room: Id,
    checkIn: Option<int>,
    checkOut: Option<int>,
    numberOfGuests: int,
    reservationNumber: string,
    numberOfNights: Option<int>,
    totalAmount: Option<int>,
    status: Option<string>,
    paymentStatus: Option<string>,
    paymentMethod: Option<string>)

  /** The casting setters of the guest sub-schema (trim, lower-case email). */
  function CastGuest(g: Guest): (c: Guest)
    ensures c.address == g.address && c.idType == g.idType && c.idNumber == g.idNumber
    ensures c.firstName == Trim(g.firstName) && c.lastName == Trim(g.lastName)
    ensures c.email == ToLower(Trim(g.email)) && c.phone == Trim(g.phone)
    ensures Trimmed(c.firstName) && Trimmed(c.lastName) && Trimmed(c.phone)
    ensures Trimmed(c.email) && IsLowerCase(c.email)
  {
    TrimmedIff(g.firstName);
    TrimmedIff(g.lastName);
    TrimmedIff(g.email);
    TrimmedIff(g.phone);
    ToLowerKeeps(Trim(g.email));
    g.(firstName := Trim(g.firstName), lastName := Trim(g.lastName),
       email := ToLower(Trim(g.email)), phone := Trim(g.phone))
  }

  /** A reservation document before validation; the derived fields may still
      be missing. */
  datatype Draft = Draft(
    id: Id,
    reservationNumber: string,
    guest: Guest,
    room: Id,
    checkIn: int,
    checkOut: int,
    numberOfGuests: int,
    numberOfNights: Option<int>,
    totalAmount: Option<int>,
    status: string,
    paymentStatus: string,
    paymentMethod: Option<string>)

  /** `new Reservation(req.body)`: setters and defaults applied. */
  function NewDraft(id: Id, input: ReservationInput): (d: Draft)
    requires input.checkIn.Some? && input.checkOut.Some?
    ensures d.status == input.status.GetOr(DEFAULT_STATUS)
    ensures d.paymentStatus == input.paymentStatus.GetOr(DEFAULT_PAYMENT_STATUS)
    ensures d.id == id && d.room == input.room
    ensures d.checkIn == input.checkIn.value && d.checkOut == input.checkOut.value
    ensures d.guest == CastGuest(input.guest) && d.reservationNumber == input.reservationNumber
  {
    Draft(id, input.reservationNumber, CastGuest(input.guest), input.room, input.checkIn.value,
          input.checkOut.value, input.numberOfGuests, input.numberOfNights, input.totalAmount,
          input.status.GetOr(DEFAULT_STATUS), input.paymentStatus.GetOr(DEFAULT_PAYMENT_STATUS),
          input.paymentMethod)
  }

  /** The room price the derived-field hook reads through `Room.findById`. */
  function PriceOf(rooms: map<Id, Room>, room: Id): Option<int> {
    if room in rooms then Some(rooms[room].pricePerNight) else None
  }

  /** Both pre-save hooks of a new document, in registration order. */
  function AfterHooks(d: Draft, count: nat, rooms: map<Id, Room>): Draft {
    var nights := NightsBetween(d.checkIn, d.checkOut);
    d.(reservationNumber := NumberAfterHook(d.reservationNumber, true, count),
       numberOfNights := Some(nights),
       totalAmount := TotalAfterHook(d.totalAmount, PriceOf(rooms, d.room), nights))
  }

  /** The record a draft would store once its derived fields are set. */
  function ToRecord(d: Draft, nights: int, total: int): Reservation {
    Reservation(d.id, d.reservationNumber, d.guest, d.room, d.checkIn, d.checkOut,
                d.numberOfGuests, nights, total, d.status, d.paymentStatus, d.paymentMethod)
  }

  /** Schema validation of a draft: the record it stores, or None when a
      required field is missing or a bound fails. */
  function Validated(d: Draft): (r: Option<Reservation>)
    ensures r.Some? ==> ValidReservation(r.value)
    ensures r.Some? <==> d.numberOfNights.Some? && d.totalAmount.Some?
                         && ValidReservation(ToRecord(d, d.numberOfNights.value, d.totalAmount.value))
    ensures r.Some? ==> r.value == ToRecord(d, d.numberOfNights.value, d.totalAmount.value)
  {
    if d.numberOfNights.None? || d.totalAmount.None? then None
    else
      var r := ToRecord(d, d.numberOfNights.value, d.totalAmount.value);
      if ValidReservation(r) then Some(r) else None
  }

  /** What saving a new reservation stores, if anything: construction,
      hooks, then schema validation. */
  function Prepared(id: Id, input: ReservationInput, count: nat, rooms: map<Id, Room>): Option<Reservation>
    requires input.checkIn.Some? && input.checkOut.Some?
  {
    Validated(AfterHooks(NewDraft(id, input), count, rooms))
  }

  /** A saved reservation carries the derived nights and, when its room was
      found, price times nights; its stay therefore moves forward in time. */
  lemma PreparedDerivedFields(id: Id, input: ReservationInput, count: nat, rooms: map<Id, Room>)
    requires input.checkIn.Some? && input.checkOut.Some?
    requires Prepared(id, input, count, rooms).Some?
    ensures var r := Prepared(id, input, count, rooms).value;
            && r.id == id && r.room == input.room
            && r.checkIn == input.checkIn.value && r.checkOut == input.checkOut.value
            && r.numberOfNights == NightsBetween(r.checkIn, r.checkOut)
            && r.checkOut > r.checkIn
            && (r.room in rooms ==> r.totalAmount == rooms[r.room].pricePerNight * r.numberOfNights)
            && (input.reservationNumber == "" ==> r.reservationNumber == ReservationNumberFor(count))
  {
    var r := Prepared(id, input, count, rooms).value;
    NightsPositiveIff(r.checkIn, r.checkOut);
  }

  /** The Mongoose document being saved; the hooks update its fields in
      place. */
  class ReservationDocument {
    const isNew: bool
    var id: Id
    var reservationNumber: string
    var guest: Guest
    var room: Id
    var checkIn: int
    var checkOut: int
    var numberOfGuests: int
    var numberOfNights: Option<int>
    var totalAmount: Option<int>
    var status: string
    var paymentStatus: string
    var paymentMethod: Option<string>

    function Snapshot(): Draft
      reads this
    {
      Draft(id, reservationNumber, guest, room, checkIn, checkOut, numberOfGuests,
            numberOfNights, totalAmount, status, paymentStatus, paymentMethod)
    }

    constructor (id: Id, input: ReservationInput)
      requires input.checkIn.Some? && input.checkOut.Some?
      ensures isNew && Snapshot() == NewDraft(id, input)
    {
      var d := NewDraft(id, input);
      this.isNew := true;
      this.id := d.id;
      reservationNumber := d.reservationNumber;
      guest := d.guest;
      room := d.room;
      checkIn := d.checkIn;
      checkOut := d.checkOut;
      numberOfGuests := d.numberOfGuests;
      numberOfNights := d.numberOfNights;
      totalAmount := d.totalAmount;
      status := d.status;
      paymentStatus := d.paymentStatus;
      paymentMethod := d.paymentMethod;
    }

    /** First pre-save hook: number a new document from the collection's
        document count. */
    method GenerateNumber(count: nat)
      modifies this`reservationNumber
      ensures Snapshot() == old(Snapshot()).(reservationNumber := NumberAfterHook(old(reservationNumber), isNew, count))
    {
      if isNew && reservationNumber == "" {
        reservationNumber := ReservationNumberFor(count);
      }
    }

    /** Second pre-save hook: nights from the dates, total from the room's
        current price. */
    method ComputeDerived(rooms: map<Id, Room>)
      modifies this`numberOfNights, this`totalAmount
      ensures Snapshot() == old(Snapshot()).(
                numberOfNights := Some(NightsBetween(checkIn, checkOut)),
                totalAmount := TotalAfterHook(old(totalAmount), PriceOf(rooms, room), NightsBetween(checkIn, checkOut)))
    {
      var nights := CeilDiv(checkOut - checkIn, MS_PER_DAY);
      numberOfNights := Some(nights);
      if nights != 0 {
        if room in rooms {
          totalAmount := Some(rooms[room].pricePerNight * nights);
        }
      }
    }
  }

  /** `new Reservation(req.body).save()` up to the write: build the
      document, run both hooks, then validate. */
  method SaveNewReservation(id: Id, input: ReservationInput, count: nat, rooms: map<Id, Room>)
    returns (record: Option<Reservation>)
    requires input.checkIn.Some? && input.checkOut.Some?
    ensures record == Prepared(id, input, count, rooms)
  {
    var doc := new ReservationDocument(id, input);
    doc.GenerateNumber(count);
    doc.ComputeDerived(rooms);
    record := Validated(doc.Snapshot());
  }
}
