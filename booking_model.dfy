/** The Booking document: an ancillary service attached to a reservation,
    with its enumerations and bounds and the two pre-save hooks that number
    a new booking and derive its total. */
module Bookings {
  import opened Common
  import opened Text
  import opened Reservations

  const SERVICE_TYPES: seq<string> :=
    ["Room Service", "Spa", "Restaurant", "Conference Room", "Event Hall", "Transportation", "Tour", "Other"]
  const BOOKING_STATUSES: seq<string> :=
    ["Scheduled", "Confirmed", "In Progress", "Completed", "Cancelled", "No Show"]

  const DEFAULT_BOOKING_STATUS: string := "Scheduled"

  /** A stored booking. The scheduled date is in milliseconds, the duration
      in minutes and money in cents; free-text fields are not modelled. */
  datatype Booking = Booking(
    id: Id,
    bookingNumber: string,
    reservation: Id,
    serviceType: string,
    serviceName: string,
    scheduledDate: int,
    scheduledTime: string,
    duration: int,
    price: int,
    quantity: int,
    totalAmount: int,
    status: string,
    paymentStatus: string,
    assignedStaff: Option<Id>)

  /** What the schema accepts for a stored booking. */
  predicate ValidBooking(b: Booking) {
    && b.bookingNumber != ""
    && b.reservation != ""
    && b.serviceType in SERVICE_TYPES
    && b.serviceName != "" && Trimmed(b.serviceName)
    && b.scheduledTime != ""
    && b.duration >= 15
    && b.price >= 0
    && b.quantity >= 1
    && b.totalAmount >= 0
    && b.status in BOOKING_STATUSES
    && b.paymentStatus in PAYMENT_STATUSES
  }

  /** The unique index on bookingNumber. */
  predicate UniqueBookingNumbers(items: map<Id, Booking>) {
    forall a, b :: a in items && b in items && a != b ==> items[a].bookingNumber != items[b].bookingNumber
  }

  /** `"BK" + String(count + 1).padStart(6, '0')`. */
  function BookingNumberFor(count: nat): (number: string)
    ensures |number| >= 8 && number[..2] == "BK"
    ensures AllDigits(number[2..]) && ParseDigits(number[2..]) == count + 1
  {
    var number := "BK" + Pad6(count + 1);
    assert number[2..] == Pad6(count + 1);
    Pad6RoundTrip(count + 1);
    number
  }

  /** Distinct document counts give distinct booking numbers. */
  lemma BookingNumberInjective(a: nat, b: nat)
    requires BookingNumberFor(a) == BookingNumberFor(b)
    ensures a == b
  {
    assert BookingNumberFor(a)[2..] == BookingNumberFor(b)[2..];
  }

  /** The total hook: `if (price && quantity)`, so a zero price or quantity
      leaves the total the document already had. */
  function TotalAfterBookingHook(current: Option<int>, price: int, quantity: int): (total: Option<int>)
    ensures price != 0 && quantity != 0 ==> total == Some(price * quantity)
    ensures price == 0 || quantity == 0 ==> total == current
  {
    if price != 0 && quantity != 0 then Some(price * quantity) else current
  }

  /** The body of a create or update request. A missing or non-ISO 8601
      date is None; absent optional fields are None; an absent reservation
      or booking number is the empty string. */
  datatype BookingInput = BookingInput(
    reservation: Id,
    serviceType: string,
    serviceName: string,
    scheduledDate: Option<int>,
    scheduledTime: string,
    duration: int,
    price: int,
    quantity: int,
    bookingNumber: string,
    totalAmount: Option<int>,
    status: Option<string>,
    paymentStatus: Option<string>,
    assignedStaff: Option<Id>)

  /** A booking document before validation; the total may still be
      missing. */
  datatype BookingDraft = BookingDraft(
    id: Id,
    bookingNumber: string,
    reservation: Id,
    serviceType: string,
    serviceName: string,
    scheduledDate: int,
    scheduledTime: string,
    duration: int,
    price: int,
    quantity: int,
    totalAmount: Option<int>,
    status: string,
    paymentStatus: string,
    assignedStaff: Option<Id>)

  /** `new Booking(req.body)`: the service name trimmed, and the defaults
      Scheduled and Pending. */
  function NewBookingDraft(id: Id, input: BookingInput): (d: BookingDraft)
    requires input.scheduledDate.Some?
    ensures d.id == id && d.serviceName == Trim(input.serviceName)
    ensures d.status == input.status.GetOr(DEFAULT_BOOKING_STATUS)
    ensures d.paymentStatus == input.paymentStatus.GetOr(DEFAULT_PAYMENT_STATUS)
    ensures d.price == input.price && d.quantity == input.quantity && d.totalAmount == input.totalAmount
  {
    BookingDraft(id, input.bookingNumber, input.reservation, input.serviceType, Trim(input.serviceName),
                 input.scheduledDate.value, input.scheduledTime, input.duration, input.price,
                 input.quantity, input.totalAmount, input.status.GetOr(DEFAULT_BOOKING_STATUS),
                 input.paymentStatus.GetOr(DEFAULT_PAYMENT_STATUS), input.assignedStaff)
  }

  /** Both pre-save hooks of a new document, in registration order. */
  function AfterBookingHooks(d: BookingDraft, count: nat): BookingDraft {
    d.(bookingNumber := if d.bookingNumber == "" then BookingNumberFor(count) else d.bookingNumber,
       totalAmount := TotalAfterBookingHook(d.totalAmount, d.price, d.quantity))
  }

  function ToBooking(d: BookingDraft, total: int): Booking {
    Booking(d.id, d.bookingNumber, d.reservation, d.serviceType, d.serviceName, d.scheduledDate,
            d.scheduledTime, d.duration, d.price, d.quantity, total, d.status, d.paymentStatus,
            d.assignedStaff)
  }

  /** Schema validation of a draft: the record it stores, or None. */
  function ValidatedBooking(d: BookingDraft): (r: Option<Booking>)
    ensures r.Some? ==> ValidBooking(r.value)
    ensures r.Some? <==> d.totalAmount.Some? && ValidBooking(ToBooking(d, d.totalAmount.value))
    ensures r.Some? ==> r.value == ToBooking(d, d.totalAmount.value)
  {
    if d.totalAmount.None? then None
    else
      var b := ToBooking(d, d.totalAmount.value);
      if ValidBooking(b) then Some(b) else None
  }

  /** What saving a new booking stores, if anything. */
  function PreparedBooking(id: Id, input: BookingInput, count: nat): Option<Booking>
    requires input.scheduledDate.Some?
  {
    ValidatedBooking(AfterBookingHooks(NewBookingDraft(id, input), count))
  }

  /** A saved booking with a non-zero price costs price times quantity, and
      one saved without a number gets the count-based one. With a zero
      price the total must come from the body: without it the save
      fails. */
  lemma PreparedBookingTotal(id: Id, input: BookingInput, count: nat)
    requires input.scheduledDate.Some?
    ensures var b := PreparedBooking(id, input, count);
            && (b.Some? && input.price != 0 ==> b.value.totalAmount == input.price * input.quantity)
            && (b.Some? && input.bookingNumber == "" ==> b.value.bookingNumber == BookingNumberFor(count))
            && (input.price == 0 && input.totalAmount.None? ==> b.None?)
  {
  }

  /** The Mongoose document being saved; the hooks update its fields in
      place. */
  class BookingDocument {
    const isNew: bool
    var id: Id
    var bookingNumber: string
    var reservation: Id
    var serviceType: string
    var serviceName: string
    var scheduledDate: int
    var scheduledTime: string
    var duration: int
    var price: int
    var quantity: int
    var totalAmount: Option<int>
    var status: string
    var paymentStatus: string
    var assignedStaff: Option<Id>

    function Snapshot(): BookingDraft
      reads this
    {
      BookingDraft(id, bookingNumber, reservation, serviceType, serviceName, scheduledDate,
                   scheduledTime, duration, price, quantity, totalAmount, status, paymentStatus,
                   assignedStaff)
    }

    constructor (id: Id, input: BookingInput)
      requires input.scheduledDate.Some?
      ensures isNew && Snapshot() == NewBookingDraft(id, input)
    {
      var d := NewBookingDraft(id, input);
      this.isNew := true;
      this.id := d.id;
      bookingNumber := d.bookingNumber;
      reservation := d.reservation;
      serviceType := d.serviceType;
      serviceName := d.serviceName;
      scheduledDate := d.scheduledDate;
      scheduledTime := d.scheduledTime;
      duration := d.duration;
      price := d.price;
      quantity := d.quantity;
      totalAmount := d.totalAmount;
      status := d.status;
      paymentStatus := d.paymentStatus;
      assignedStaff := d.assignedStaff;
    }

    /** First pre-save hook: number a new document from the collection's
        document count. */
    method GenerateNumber(count: nat)
      modifies this`bookingNumber
      ensures Snapshot() == old(Snapshot()).(bookingNumber :=
                if isNew && old(bookingNumber) == "" then BookingNumberFor(count) else old(bookingNumber))
    {
      if isNew && bookingNumber == "" {
        bookingNumber := BookingNumberFor(count);
      }
    }

    /** Second pre-save hook: the total from price and quantity. */
    method ComputeTotal()
      modifies this`totalAmount
      ensures Snapshot() == old(Snapshot()).(totalAmount := TotalAfterBookingHook(old(totalAmount), price, quantity))
    {
      if price != 0 && quantity != 0 {
        totalAmount := Some(price * quantity);
      }
    }
  }

  /** `new Booking(req.body).save()` up to the write: build the document,
      run both hooks, then validate. */
  method SaveNewBooking(id: Id, input: BookingInput, count: nat) returns (record: Option<Booking>)
    requires input.scheduledDate.Some?
    ensures record == PreparedBooking(id, input, count)
  {
    var doc := new BookingDocument(id, input);
    doc.GenerateNumber(count);
    doc.ComputeTotal();
    record := ValidatedBooking(doc.Snapshot());
  }
}
