/** The new-booking page: its form state, the change handler, reservation
    selection, the client-side validation, the total it shows and the
    submit guard. */
module BookingForm {
  import opened Common
  import opened Text
  import opened Reservations
  import opened Bookings
  import opened BookingRoutes

  /** The form values. Duration is in minutes and price in cents; the
      three numeric inputs hold numbers, every other input a string. */
  datatype BookingFormData = BookingFormData(
    reservation: Id,
    serviceType: string,
    serviceName: string,
    description: string,
    scheduledDate: string,
    scheduledTime: string,
    duration: int,
    price: int,
    quantity: int,
    specialInstructions: string,
    notes: string)

  /** The initial form: empty strings, an hour's duration, a zero price and
      one unit. */
  const INITIAL_BOOKING_FORM: BookingFormData :=
    BookingFormData("", "", "", "", "", "", 60, 0, 1, "", "")

  /** The options of the service-type select. */
  const SERVICE_TYPE_OPTIONS: seq<string> :=
    ["Room Service", "Spa", "Restaurant", "Conference Room", "Event Hall", "Transportation", "Tour", "Other"]

  /** The select offers exactly the service types the schema accepts, in
      the same order. */
  lemma ServiceTypeOptionsMatchSchema()
    ensures SERVICE_TYPE_OPTIONS == SERVICE_TYPES
    ensures forall t :: t in SERVICE_TYPE_OPTIONS <==> t in SERVICE_TYPES
  {
  }

  function FieldAt(d: BookingFormData, name: string): FieldValue {
    if name == "reservation" then TextValue(d.reservation)
    else if name == "serviceType" then TextValue(d.serviceType)
    else if name == "serviceName" then TextValue(d.serviceName)
    else if name == "description" then TextValue(d.description)
    else if name == "scheduledDate" then TextValue(d.scheduledDate)
    else if name == "scheduledTime" then TextValue(d.scheduledTime)
    else if name == "duration" then NumberValue(d.duration)
    else if name == "price" then NumberValue(d.price)
    else if name == "quantity" then NumberValue(d.quantity)
    else if name == "specialInstructions" then TextValue(d.specialInstructions)
    else if name == "notes" then TextValue(d.notes)
    else NoField
  }

  predicate IsNumericField(name: string) {
    name == "duration" || name == "price" || name == "quantity"
  }

  /** The form after the input `name` reports `value`; `numeric` is the
      number `parseFloat(value) || 0` gives for it, which the three numeric
      inputs store instead of the string. */
  function ChangedBookingData(d: BookingFormData, name: string, value: string, numeric: int): (c: BookingFormData)
    ensures IsNumericField(name) ==> FieldAt(c, name) == NumberValue(numeric)
    ensures FieldAt(d, name).TextValue? ==> FieldAt(c, name) == TextValue(value)
    ensures forall other :: other != name ==> FieldAt(c, other) == FieldAt(d, other)
  {
    if name == "reservation" then d.(reservation := value)
    else if name == "serviceType" then d.(serviceType := value)
    else if name == "serviceName" then d.(serviceName := value)
    else if name == "description" then d.(description := value)
    else if name == "scheduledDate" then d.(scheduledDate := value)
    else if name == "scheduledTime" then d.(scheduledTime := value)
    else if name == "duration" then d.(duration := numeric)
    else if name == "price" then d.(price := numeric)
    else if name == "quantity" then d.(quantity := numeric)
    else if name == "specialInstructions" then d.(specialInstructions := value)
    else if name == "notes" then d.(notes := value)
    else d
  }

  const RESERVATION_REQUIRED: string := "Reservation selection is required"
  const SERVICE_TYPE_REQUIRED: string := "Service type is required"
  const SERVICE_NAME_REQUIRED: string := "Service name is required"
  const DATE_REQUIRED: string := "Scheduled date is required"
  const TIME_REQUIRED: string := "Scheduled time is required"
  const DURATION_TOO_SHORT: string := "Duration must be at least 15 minutes"
  const PRICE_NOT_POSITIVE: string := "Price must be greater than 0"
  const QUANTITY_TOO_LOW: string := "Quantity must be at least 1"
  const DATE_IN_PAST: string := "Scheduled date cannot be in the past"

  /** The page's error object, restricted to the keys `validateForm` sets:
      one optional message per input name. */
  datatype BookingFormErrors = BookingFormErrors(
    reservation: Option<string>, serviceType: Option<string>, serviceName: Option<string>,
    scheduledDate: Option<string>, scheduledTime: Option<string>, duration: Option<string>,
    price: Option<string>, quantity: Option<string>)

  const NO_BOOKING_ERRORS: BookingFormErrors := BookingFormErrors(None, None, None, None, None, None, None, None)

  /** `errors[name]`. */
  function BookingErrorAt(e: BookingFormErrors, name: string): Option<string> {
    if name == "reservation" then e.reservation
    else if name == "serviceType" then e.serviceType
    else if name == "serviceName" then e.serviceName
    else if name == "scheduledDate" then e.scheduledDate
    else if name == "scheduledTime" then e.scheduledTime
    else if name == "duration" then e.duration
    else if name == "price" then e.price
    else if name == "quantity" then e.quantity
    else None
  }

  /** The errors after a change to the input `name`: a truthy message under
      that name is blanked, and no other entry changes. */
  function ClearedBookingErrors(e: BookingFormErrors, name: string): (r: BookingFormErrors)
    ensures BookingErrorAt(r, name) == if BookingErrorAt(e, name).Some? then Some("") else None
    ensures forall other :: other != name ==> BookingErrorAt(r, other) == BookingErrorAt(e, other)
  {
    if name == "reservation" then e.(reservation := Blanked(e.reservation))
    else if name == "serviceType" then e.(serviceType := Blanked(e.serviceType))
    else if name == "serviceName" then e.(serviceName := Blanked(e.serviceName))
    else if name == "scheduledDate" then e.(scheduledDate := Blanked(e.scheduledDate))
    else if name == "scheduledTime" then e.(scheduledTime := Blanked(e.scheduledTime))
    else if name == "duration" then e.(duration := Blanked(e.duration))
    else if name == "price" then e.(price := Blanked(e.price))
    else if name == "quantity" then e.(quantity := Blanked(e.quantity))
    else e
  }

  /** What `validateForm` accepts, with `dates` the instant `new Date(s)`
      gives for each string it can parse and `today` the local midnight: a
      reservation, a service type, a non-blank service name, a date and a
      time set, at least 15 minutes, a positive price, at least one unit,
      and a date not before today. A date string JavaScript cannot parse
      compares false and so passes the date check. */
  predicate BookingFormAccepted(d: BookingFormData, dates: map<string, int>, today: int) {
    && d.reservation != "" && d.serviceType != "" && !Blank(d.serviceName)
    && d.scheduledDate != "" && d.scheduledTime != ""
    && d.duration >= 15 && d.price > 0 && d.quantity >= 1
    && (d.scheduledDate in dates ==> dates[d.scheduledDate] >= today)
  }

  /** The errors `validateForm` reports, entry by entry; a set date before
      today replaces nothing but its own entry. */
  function BookingFormErrorsOf(d: BookingFormData, dates: map<string, int>, today: int): BookingFormErrors {
    BookingFormErrors(
      reservation := if d.reservation == "" then Some(RESERVATION_REQUIRED) else None,
      serviceType := if d.serviceType == "" then Some(SERVICE_TYPE_REQUIRED) else None,
      serviceName := if Blank(d.serviceName) then Some(SERVICE_NAME_REQUIRED) else None,
      scheduledDate :=
        if d.scheduledDate == "" then Some(DATE_REQUIRED)
        else if d.scheduledDate in dates && dates[d.scheduledDate] < today then Some(DATE_IN_PAST)
        else None,
      scheduledTime := if d.scheduledTime == "" then Some(TIME_REQUIRED) else None,
      duration := if d.duration < 15 then Some(DURATION_TOO_SHORT) else None,
      price := if d.price <= 0 then Some(PRICE_NOT_POSITIVE) else None,
      quantity := if d.quantity < 1 then Some(QUANTITY_TOO_LOW) else None)
  }

  /** The form passes exactly when it reports no error. */
  lemma BookingFormErrorsEmptyIff(d: BookingFormData, dates: map<string, int>, today: int)
    ensures BookingFormErrorsOf(d, dates, today) == NO_BOOKING_ERRORS <==> BookingFormAccepted(d, dates, today)
  {
  }

  /** The initial form fails on every text input it checks and on the zero
      price, and not on the default duration or quantity. */
  lemma InitialBookingFormErrors(dates: map<string, int>, today: int)
    ensures BookingFormErrorsOf(INITIAL_BOOKING_FORM, dates, today) ==
            BookingFormErrors(Some(RESERVATION_REQUIRED), Some(SERVICE_TYPE_REQUIRED), Some(SERVICE_NAME_REQUIRED),
                              Some(DATE_REQUIRED), Some(TIME_REQUIRED), None, Some(PRICE_NOT_POSITIVE), None)
  {
  }

  /** The checks of `validateForm`, one after another, each writing its
      message under its input's name; the date check comes last and
      overwrites the date entry. */
  method CollectBookingFormErrors(d: BookingFormData, dates: map<string, int>, today: int)
    returns (newErrors: BookingFormErrors)
    ensures newErrors == BookingFormErrorsOf(d, dates, today)
  {
    newErrors := NO_BOOKING_ERRORS;
    if d.reservation == "" {
      newErrors := newErrors.(reservation := Some(RESERVATION_REQUIRED));
    }
    if d.serviceType == "" {
      newErrors := newErrors.(serviceType := Some(SERVICE_TYPE_REQUIRED));
    }
    if Blank(d.serviceName) {
      newErrors := newErrors.(serviceName := Some(SERVICE_NAME_REQUIRED));
    }
    if d.scheduledDate == "" {
      newErrors := newErrors.(scheduledDate := Some(DATE_REQUIRED));
    }
    if d.scheduledTime == "" {
      newErrors := newErrors.(scheduledTime := Some(TIME_REQUIRED));
    }
    if d.duration < 15 {
      newErrors := newErrors.(duration := Some(DURATION_TOO_SHORT));
    }
    if d.price <= 0 {
      newErrors := newErrors.(price := Some(PRICE_NOT_POSITIVE));
    }
    if d.quantity < 1 {
      newErrors := newErrors.(quantity := Some(QUANTITY_TOO_LOW));
    }
    if d.scheduledDate != "" {
      if d.scheduledDate in dates && dates[d.scheduledDate] < today {
        newErrors := newErrors.(scheduledDate := Some(DATE_IN_PAST));
      }
    }
  }

  /** The body the page sends: the form's fields, with the date as the
      instant the server parses from it (None when it cannot). */
  function BookingRequestBody(d: BookingFormData, dates: map<string, int>): (input: BookingInput)
    ensures input.scheduledDate.Some? <==> d.scheduledDate in dates
    ensures input.bookingNumber == "" && input.totalAmount.None? && input.status.None?
    ensures input.paymentStatus.None? && input.assignedStaff.None?
  {
    BookingInput(d.reservation, d.serviceType, d.serviceName,
                 if d.scheduledDate in dates then Some(dates[d.scheduledDate]) else None,
                 d.scheduledTime, d.duration, d.price, d.quantity, "", None, None, None, None)
  }

  /** What the page passes, the server's validator passes too, provided the
      reservation id is a well-formed ObjectId and the date parses. */
  lemma AcceptedFormPassesServerChecks(d: BookingFormData, dates: map<string, int>, today: int)
    requires BookingFormAccepted(d, dates, today)
    requires IsObjectId(d.reservation) && d.scheduledDate in dates
    ensures BookingInputAccepted(BookingRequestBody(d, dates), true)
  {
    assert d.serviceName != "";
  }

  lemma ProductNonNegative(price: int, quantity: int)
    requires price > 0 && quantity >= 1
    ensures price * quantity >= price
  {
    MulMonotone(1, quantity, price);
  }

  /** A form the page accepts, with a service type from its select and a
      parseable date, saves: the stored booking is numbered from the count,
      has the trimmed name, and costs price times quantity. */
  lemma AcceptedFormSaves(d: BookingFormData, dates: map<string, int>, today: int, id: Id, count: nat)
    requires BookingFormAccepted(d, dates, today)
    requires d.serviceType in SERVICE_TYPE_OPTIONS && d.scheduledDate in dates
    ensures var b := PreparedBooking(id, BookingRequestBody(d, dates), count);
            && b.Some?
            && b.value.bookingNumber == BookingNumberFor(count)
            && b.value.serviceName == Trim(d.serviceName)
            && b.value.totalAmount == d.price * d.quantity
  {
    var input := BookingRequestBody(d, dates);
    BlankIff(d.serviceName);
    TrimmedIff(d.serviceName);
    ProductNonNegative(d.price, d.quantity);
    var h := AfterBookingHooks(NewBookingDraft(id, input), count);
    assert h.totalAmount == Some(d.price * d.quantity);
    assert ValidBooking(ToBooking(h, h.totalAmount.value));
  }

  /** The two tiers disagree on a zero price: the page refuses it, the
      server's validator lets it through, and the save then fails for want
      of a total (a 500). */
  lemma ZeroPriceOnlyServerAccepts(d: BookingFormData, dates: map<string, int>, today: int, id: Id, count: nat)
    requires d.price == 0 && d.scheduledDate in dates
    requires IsObjectId(d.reservation) && d.serviceType != "" && !Blank(d.serviceName) && d.scheduledTime != ""
    requires d.duration >= 15 && d.quantity >= 1
    ensures !BookingFormAccepted(d, dates, today)
    ensures BookingInputAccepted(BookingRequestBody(d, dates), true)
    ensures PreparedBooking(id, BookingRequestBody(d, dates), count).None?
  {
    assert d.serviceName != "";
    PreparedBookingTotal(id, BookingRequestBody(d, dates), count);
  }

  /** The total the page shows: price times quantity, displayed only while
      both are positive. */
  function ShownTotal(d: BookingFormData): (t: Option<int>)
    ensures t.Some? <==> d.price > 0 && d.quantity > 0
  {
    if d.price > 0 && d.quantity > 0 then Some(d.price * d.quantity) else None
  }

  /** A shown total is the total the server stores for the same price and
      quantity. */
  lemma ShownTotalIsStoredTotal(d: BookingFormData, id: Id, input: BookingInput, count: nat)
    requires input.scheduledDate.Some? && input.price == d.price && input.quantity == d.quantity
    requires ShownTotal(d).Some? && PreparedBooking(id, input, count).Some?
    ensures PreparedBooking(id, input, count).value.totalAmount == ShownTotal(d).value
  {
    PreparedBookingTotal(id, input, count);
  }

  /** What a submit did: stopped by validation, or sent the create request
      with the form as its body. */
  datatype SubmitResult = NotSubmitted | CreateRequested(body: BookingFormData)

  /** The page's state. `reservations` is the list the page loaded (those
      whose status is Confirmed). */
  class BookingFormPage {
    var reservations: seq<Reservation>
    var selectedReservation: Option<Reservation>
    var data: BookingFormData
    var errors: BookingFormErrors

    constructor (reservations: seq<Reservation>)
      ensures this.reservations == reservations && selectedReservation == None
      ensures data == INITIAL_BOOKING_FORM && errors == NO_BOOKING_ERRORS
    {
      this.reservations := reservations;
      selectedReservation := None;
      data := INITIAL_BOOKING_FORM;
      errors := NO_BOOKING_ERRORS;
    }

    /** `handleInputChange`, with `numeric` the value `parseFloat(value) || 0`
        gives. */
    method HandleInputChange(name: string, value: string, numeric: int)
      modifies this`data, this`errors
      ensures data == ChangedBookingData(old(data), name, value, numeric)
      ensures errors == ClearedBookingErrors(old(errors), name)
    {
      data := ChangedBookingData(data, name, value, numeric);
      var current := BookingErrorAt(errors, name);
      if current.Some? && current.value != "" {
        errors := ClearedBookingErrors(errors, name);
      }
    }

    /** `handleReservationSelect`: the selected reservation is the first
        loaded one with that id, or none; the `reservation` field takes the
        id either way. */
    method HandleReservationSelect(reservationId: Id)
      modifies this`selectedReservation, this`data
      ensures selectedReservation.Some? ==>
                exists i :: 0 <= i < |reservations| && reservations[i] == selectedReservation.value
                            && reservations[i].id == reservationId
                            && forall j :: 0 <= j < i ==> reservations[j].id != reservationId
      ensures selectedReservation.None? <==> forall i :: 0 <= i < |reservations| ==> reservations[i].id != reservationId
      ensures data == old(data).(reservation := reservationId)
    {
      selectedReservation := Find(reservations, (r: Reservation) => r.id == reservationId);
      data := data.(reservation := reservationId);
    }

    /** `validateForm`: collects the errors, stores them and reports whether
        there were none. */
    method ValidateForm(dates: map<string, int>, today: int) returns (ok: bool)
      modifies this`errors
      ensures errors == BookingFormErrorsOf(data, dates, today)
      ensures ok <==> BookingFormAccepted(data, dates, today)
    {
      var newErrors := CollectBookingFormErrors(data, dates, today);
      errors := newErrors;
      BookingFormErrorsEmptyIff(data, dates, today);
      ok := newErrors == NO_BOOKING_ERRORS;
    }

    /** `handleSubmit`: the create request goes out exactly when the form
        validates, with the form as its body. */
    method HandleSubmit(dates: map<string, int>, today: int) returns (result: SubmitResult)
      modifies this`errors
      ensures result.CreateRequested? <==> BookingFormAccepted(data, dates, today)
      ensures result.CreateRequested? ==> result.body == data && errors == NO_BOOKING_ERRORS
      ensures errors == BookingFormErrorsOf(data, dates, today)
    {
      var ok := ValidateForm(dates, today);
      if !ok {
        return NotSubmitted;
      }
      BookingFormErrorsEmptyIff(data, dates, today);
      result := CreateRequested(data);
    }
  }
}
