/** The new-reservation page: its form state, the change handler that
    writes one field by its dotted input name, room selection, the
    client-side validation, the total preview and the submit guards. */
module ReservationForm {
  import opened Common
  import opened Text
  import opened Rooms
  import opened Reservations

  /** The form values as the page holds them: every input's value is a
      string, kept by field name at the top level, under `guest` and under
      `guest.address`. */
  datatype FormData = FormData(top: map<string, string>, guest: map<string, string>, address: map<string, string>)

  /** The initial form: every text field empty and one guest. */
  const INITIAL_FORM: FormData := FormData(
    map["room" := "", "checkIn" := "", "checkOut" := "", "numberOfGuests" := "1",
        "specialRequests" := "", "notes" := ""],
    map["firstName" := "", "lastName" := "", "email" := "", "phone" := ""],
    map["street" := "", "city" := "", "state" := "", "zipCode" := "", "country" := ""])

  function Get(m: map<string, string>, key: string): string {
    if key in m then m[key] else ""
  }

  /** The field an input name addresses. */
  datatype FieldPath = AddressField(field: string) | GuestField(field: string) | TopField(field: string)

  const GUEST_PREFIX: string := "guest."
  const ADDRESS_PREFIX: string := "guest.address."

  predicate StartsWith(s: string, prefix: string) {
    |prefix| <= |s| && s[..|prefix|] == prefix
  }

  /** A name under `guest.address.` splits on dots into `guest`, `address`
      and then the parts of the rest. */
  lemma SplitAddressName(name: string)
    requires StartsWith(name, ADDRESS_PREFIX)
    ensures |Split(name, '.')| >= 3 && Split(name, '.')[2] == Split(name[|ADDRESS_PREFIX|..], '.')[0]
    ensures '.' !in name[|ADDRESS_PREFIX|..] ==> Split(name, '.')[2] == name[|ADDRESS_PREFIX|..]
  {
    var rest := name[|ADDRESS_PREFIX|..];
    assert name == "guest" + ['.'] + ("address" + ['.'] + rest);
    SplitAfterWord("guest", '.', "address" + ['.'] + rest);
    SplitAfterWord("address", '.', rest);
    if '.' !in rest {
      SplitWord(rest, '.');
    }
  }

  /** A name under `guest.` splits on dots into `guest` and then the parts
      of the rest. */
  lemma SplitGuestName(name: string)
    requires StartsWith(name, GUEST_PREFIX)
    ensures |Split(name, '.')| >= 2 && Split(name, '.')[1] == Split(name[|GUEST_PREFIX|..], '.')[0]
    ensures '.' !in name[|GUEST_PREFIX|..] ==> Split(name, '.')[1] == name[|GUEST_PREFIX|..]
  {
    var rest := name[|GUEST_PREFIX|..];
    assert name == "guest" + ['.'] + rest;
    SplitAfterWord("guest", '.', rest);
    if '.' !in rest {
      SplitWord(rest, '.');
    }
  }

  /** `guest.address.X` addresses the address field named by the third
      dot-separated part, `guest.X` the guest field named by the second, and
      any other name the top-level field of that name. */
  function PathOf(name: string): (p: FieldPath)
    ensures p.AddressField? <==> StartsWith(name, ADDRESS_PREFIX)
    ensures p.GuestField? <==> StartsWith(name, GUEST_PREFIX) && !StartsWith(name, ADDRESS_PREFIX)
    ensures p.AddressField? && '.' !in name[|ADDRESS_PREFIX|..] ==> p.field == name[|ADDRESS_PREFIX|..]
    ensures p.GuestField? && '.' !in name[|GUEST_PREFIX|..] ==> p.field == name[|GUEST_PREFIX|..]
    ensures p.TopField? ==> p.field == name
  {
    if StartsWith(name, ADDRESS_PREFIX) then
      SplitAddressName(name);
      AddressField(Split(name, '.')[2])
    else if StartsWith(name, GUEST_PREFIX) then
      SplitGuestName(name);
      GuestField(Split(name, '.')[1])
    else TopField(name)
  }

  /** The input name the page gives to a field. */
  function NameOf(p: FieldPath): string {
    match p
    case AddressField(f) => ADDRESS_PREFIX + f
    case GuestField(f) => GUEST_PREFIX + f
    case TopField(f) => f
  }

  /** The dotted names round-trip: every field with a dot-free name that
      does not itself look like a guest path is addressed by its own input
      name. */
  lemma PathOfNameOf(p: FieldPath)
    requires '.' !in p.field
    requires p.TopField? ==> !StartsWith(p.field, GUEST_PREFIX)
    requires p.GuestField? ==> !StartsWith(GUEST_PREFIX + p.field, ADDRESS_PREFIX)
    ensures PathOf(NameOf(p)) == p
  {
    match p
    case AddressField(f) =>
      assert NameOf(p)[..|ADDRESS_PREFIX|] == ADDRESS_PREFIX;
      assert NameOf(p)[|ADDRESS_PREFIX|..] == f;
    case GuestField(f) =>
      assert NameOf(p)[..|GUEST_PREFIX|] == GUEST_PREFIX;
      assert NameOf(p)[|GUEST_PREFIX|..] == f;
    case TopField(f) =>
  }

  function ValueAt(d: FormData, p: FieldPath): string {
    match p
    case AddressField(f) => Get(d.address, f)
    case GuestField(f) => Get(d.guest, f)
    case TopField(f) => Get(d.top, f)
  }

  /** The form after an input named `name` reports `value`. */
  function ChangedData(d: FormData, name: string, value: string): (c: FormData)
    ensures d.top.Keys <= c.top.Keys && d.guest.Keys <= c.guest.Keys && d.address.Keys <= c.address.Keys
  {
    match PathOf(name)
    case AddressField(f) => d.(address := d.address[f := value])
    case GuestField(f) => d.(guest := d.guest[f := value])
    case TopField(f) => d.(top := d.top[f := value])
  }

  /** A change writes exactly the field its name addresses: reading that
      field gives the new value, and every other field reads as before. */
  lemma ChangeReadBack(d: FormData, name: string, value: string, p: FieldPath)
    ensures ValueAt(ChangedData(d, name, value), p) == if p == PathOf(name) then value else ValueAt(d, p)
  {
  }

  /** The page's error object, restricted to the keys `validateForm` and
      the availability check set: one optional message per input, under
      that input's name (`guest.firstName`, ..., `numberOfGuests`). */
  datatype FormErrors = FormErrors(
    firstName: Option<string>, lastName: Option<string>, email: Option<string>, phone: Option<string>,
    room: Option<string>, checkIn: Option<string>, checkOut: Option<string>, numberOfGuests: Option<string>)

  const NO_ERRORS: FormErrors := FormErrors(None, None, None, None, None, None, None, None)

  /** `errors[name]`. */
  function ErrorAt(e: FormErrors, name: string): Option<string> {
    if name == "guest.firstName" then e.firstName
    else if name == "guest.lastName" then e.lastName
    else if name == "guest.email" then e.email
    else if name == "guest.phone" then e.phone
    else if name == "room" then e.room
    else if name == "checkIn" then e.checkIn
    else if name == "checkOut" then e.checkOut
    else if name == "numberOfGuests" then e.numberOfGuests
    else None
  }

  /** The errors after a change to the input `name`: a truthy message under
      that name is blanked, and no other entry changes. */
  function ClearedErrors(e: FormErrors, name: string): (r: FormErrors)
    ensures ErrorAt(r, name) == if ErrorAt(e, name).Some? then Some("") else None
    ensures forall other :: other != name ==> ErrorAt(r, other) == ErrorAt(e, other)
  {
    if name == "guest.firstName" then e.(firstName := Blanked(e.firstName))
    else if name == "guest.lastName" then e.(lastName := Blanked(e.lastName))
    else if name == "guest.email" then e.(email := Blanked(e.email))
    else if name == "guest.phone" then e.(phone := Blanked(e.phone))
    else if name == "room" then e.(room := Blanked(e.room))
    else if name == "checkIn" then e.(checkIn := Blanked(e.checkIn))
    else if name == "checkOut" then e.(checkOut := Blanked(e.checkOut))
    else if name == "numberOfGuests" then e.(numberOfGuests := Blanked(e.numberOfGuests))
    else e
  }

  /** The value of a non-empty string of decimal digits, or None. */
  function ParseUnsigned(s: string): Option<nat>
    decreases |s|
  {
    if s == [] || !IsDigit(s[|s| - 1]) then None
    else if |s| == 1 then Some(DigitValue(s[0]))
    else match ParseUnsigned(s[..|s| - 1])
      case None => None
      case Some(m) => Some(m * 10 + DigitValue(s[|s| - 1]))
  }

  /** `ParseUnsigned` accepts exactly the non-empty digit strings and reads
      them as `ParseDigits` does. */
  lemma {:induction false} ParseUnsignedIff(s: string)
    ensures ParseUnsigned(s) == if s != [] && AllDigits(s) then Some(ParseDigits(s)) else None
    decreases |s|
  {
    if s != [] && IsDigit(s[|s| - 1]) && |s| > 1 {
      var init := s[..|s| - 1];
      ParseUnsignedIff(init);
      if AllDigits(s) {
        assert AllDigits(init) by {
          forall i | 0 <= i < |init| ensures IsDigit(init[i]) {
            assert init[i] == s[i];
          }
        }
      } else if AllDigits(init) {
        forall i | 0 <= i < |s| ensures IsDigit(s[i]) {
          if i < |s| - 1 {
            assert s[i] == init[i];
          }
        }
      }
    } else if s != [] && IsDigit(s[|s| - 1]) {
      assert s[..0] == [];
    }
  }

  /** The number JavaScript's `<` sees in an input's string: 0 for the
      empty string, the value of an optionally signed digit string, and
      None (NaN, which makes every comparison false) otherwise. */
  function NumericValue(s: string): Option<int> {
    if s == "" then Some(0)
    else if s[0] == '-' then
      match ParseUnsigned(s[1..])
      case None => None
      case Some(n) => Some(0 - n)
    else match ParseUnsigned(s)
      case None => None
      case Some(n) => Some(n)
  }

  predicate BelowOne(s: string) {
    NumericValue(s).Some? && NumericValue(s).value < 1
  }

  const FIRST_NAME_REQUIRED: string := "First name is required"
  const LAST_NAME_REQUIRED: string := "Last name is required"
  const EMAIL_REQUIRED: string := "Email is required"
  const PHONE_REQUIRED: string := "Phone is required"
  const ROOM_REQUIRED: string := "Room selection is required"
  const CHECK_IN_REQUIRED: string := "Check-in date is required"
  const CHECK_OUT_REQUIRED: string := "Check-out date is required"
  const GUESTS_TOO_FEW: string := "Number of guests must be at least 1"
  const CHECK_IN_PAST: string := "Check-in date cannot be in the past"
  const CHECK_OUT_ORDER: string := "Check-out date must be after check-in date"
  const ROOM_UNAVAILABLE: string := "Room is not available for the selected dates"

  /** What `validateForm` accepts, with `dates` the instant `new Date(s)`
      gives for each string it can parse and `today` the local midnight:
      trimmed guest names, email and phone present, a room and both dates
      set, at least one guest, check-in not before today and check-out
      after check-in. A date string JavaScript cannot parse compares false
      and so passes both date checks. */
  predicate ReservationFormAccepted(d: FormData, dates: map<string, int>, today: int) {
    var ci := Get(d.top, "checkIn");
    var co := Get(d.top, "checkOut");
    && !Blank(Get(d.guest, "firstName")) && !Blank(Get(d.guest, "lastName"))
    && !Blank(Get(d.guest, "email")) && !Blank(Get(d.guest, "phone"))
    && Get(d.top, "room") != "" && ci != "" && co != ""
    && !BelowOne(Get(d.top, "numberOfGuests"))
    && (ci in dates ==> dates[ci] >= today)
    && (ci in dates && co in dates ==> dates[co] > dates[ci])
  }

  /** The errors `validateForm` reports, entry by entry: each presence
      check gives its "required" message, and a set date that is in the
      past, or a check-out not after check-in, gives the specific message
      instead. */
  function ReservationFormErrors(d: FormData, dates: map<string, int>, today: int): FormErrors {
    var ci := Get(d.top, "checkIn");
    var co := Get(d.top, "checkOut");
    var bothSet := ci != "" && co != "";
    FormErrors(
      firstName := if Blank(Get(d.guest, "firstName")) then Some(FIRST_NAME_REQUIRED) else None,
      lastName := if Blank(Get(d.guest, "lastName")) then Some(LAST_NAME_REQUIRED) else None,
      email := if Blank(Get(d.guest, "email")) then Some(EMAIL_REQUIRED) else None,
      phone := if Blank(Get(d.guest, "phone")) then Some(PHONE_REQUIRED) else None,
      room := if Get(d.top, "room") == "" then Some(ROOM_REQUIRED) else None,
      checkIn :=
        if bothSet && ci in dates && dates[ci] < today then Some(CHECK_IN_PAST)
        else if ci == "" then Some(CHECK_IN_REQUIRED)
        else None,
      checkOut :=
        if bothSet && ci in dates && co in dates && dates[co] <= dates[ci] then Some(CHECK_OUT_ORDER)
        else if co == "" then Some(CHECK_OUT_REQUIRED)
        else None,
      numberOfGuests := if BelowOne(Get(d.top, "numberOfGuests")) then Some(GUESTS_TOO_FEW) else None)
  }

  /** The form passes exactly when it reports no error. */
  lemma ReservationFormErrorsEmptyIff(d: FormData, dates: map<string, int>, today: int)
    ensures ReservationFormErrors(d, dates, today) == NO_ERRORS <==> ReservationFormAccepted(d, dates, today)
  {
  }

  /** The initial form fails on the four guest fields, the room and both
      dates, and not on the guest count. */
  lemma InitialFormErrors(dates: map<string, int>, today: int)
    ensures ReservationFormErrors(INITIAL_FORM, dates, today) ==
            FormErrors(Some(FIRST_NAME_REQUIRED), Some(LAST_NAME_REQUIRED), Some(EMAIL_REQUIRED),
                       Some(PHONE_REQUIRED), Some(ROOM_REQUIRED), Some(CHECK_IN_REQUIRED),
                       Some(CHECK_OUT_REQUIRED), None)
  {
    assert Get(INITIAL_FORM.top, "numberOfGuests") == "1";
    assert ParseUnsigned("1") == Some(1);
  }

  /** The checks of `validateForm`, one after another, each writing its
      message under its input's name. */
  method CollectFormErrors(d: FormData, dates: map<string, int>, today: int) returns (newErrors: FormErrors)
    ensures newErrors == ReservationFormErrors(d, dates, today)
  {
    var ci := Get(d.top, "checkIn");
    var co := Get(d.top, "checkOut");
    newErrors := NO_ERRORS;
    if Blank(Get(d.guest, "firstName")) {
      newErrors := newErrors.(firstName := Some(FIRST_NAME_REQUIRED));
    }
    if Blank(Get(d.guest, "lastName")) {
      newErrors := newErrors.(lastName := Some(LAST_NAME_REQUIRED));
    }
    if Blank(Get(d.guest, "email")) {
      newErrors := newErrors.(email := Some(EMAIL_REQUIRED));
    }
    if Blank(Get(d.guest, "phone")) {
      newErrors := newErrors.(phone := Some(PHONE_REQUIRED));
    }
    if Get(d.top, "room") == "" {
      newErrors := newErrors.(room := Some(ROOM_REQUIRED));
    }
    if ci == "" {
      newErrors := newErrors.(checkIn := Some(CHECK_IN_REQUIRED));
    }
    if co == "" {
      newErrors := newErrors.(checkOut := Some(CHECK_OUT_REQUIRED));
    }
    if BelowOne(Get(d.top, "numberOfGuests")) {
      newErrors := newErrors.(numberOfGuests := Some(GUESTS_TOO_FEW));
    }
    if ci != "" && co != "" {
      if ci in dates && dates[ci] < today {
        newErrors := newErrors.(checkIn := Some(CHECK_IN_PAST));
      }
      if ci in dates && co in dates && dates[co] <= dates[ci] {
        newErrors := newErrors.(checkOut := Some(CHECK_OUT_ORDER));
      }
    }
  }

  /** `calculateTotalAmount`: 0 until a room and both dates are chosen,
      then the nightly price times the nights rounded up; None stands for
      the NaN an unparseable date gives. */
  function TotalPreview(selected: Option<Room>, d: FormData, dates: map<string, int>): (t: Option<int>)
    ensures selected.None? || Get(d.top, "checkIn") == "" || Get(d.top, "checkOut") == "" ==> t == Some(0)
  {
    var ci := Get(d.top, "checkIn");
    var co := Get(d.top, "checkOut");
    if selected.Some? && ci != "" && co != "" then
      if ci in dates && co in dates then
        Some(selected.value.pricePerNight * CeilDiv(dates[co] - dates[ci], MS_PER_DAY))
      else None
    else Some(0)
  }

  /** The preview is the total the server stores: when the selected room is
      the one the reservation names and the dates are the ones sent, a
      successful save records exactly the previewed amount. */
  lemma PreviewMatchesStoredTotal(selected: Option<Room>, d: FormData, dates: map<string, int>,
                                  id: Id, input: ReservationInput, count: nat, rooms: map<Id, Room>)
    requires input.room in rooms && selected == Some(rooms[input.room])
    requires Get(d.top, "checkIn") in dates && Get(d.top, "checkOut") in dates
    requires Get(d.top, "checkIn") != "" && Get(d.top, "checkOut") != ""
    requires input.checkIn == Some(dates[Get(d.top, "checkIn")])
    requires input.checkOut == Some(dates[Get(d.top, "checkOut")])
    requires Prepared(id, input, count, rooms).Some?
    ensures TotalPreview(selected, d, dates) == Some(Prepared(id, input, count, rooms).value.totalAmount)
  {
    PreviewFormula(selected, d, dates);
    PreparedDerivedFields(id, input, count, rooms);
  }

  lemma PreviewFormula(selected: Option<Room>, d: FormData, dates: map<string, int>)
    requires selected.Some?
    requires Get(d.top, "checkIn") in dates && Get(d.top, "checkOut") in dates
    requires Get(d.top, "checkIn") != "" && Get(d.top, "checkOut") != ""
    ensures TotalPreview(selected, d, dates) ==
            Some(selected.value.pricePerNight * NightsBetween(dates[Get(d.top, "checkIn")], dates[Get(d.top, "checkOut")]))
  {
  }

  /** What a submit did: stopped by validation, stopped by the availability
      answer, or sent the create request with the form as its body. */
  datatype SubmitResult = NotSubmitted | Unavailable | CreateRequested(body: FormData)

  /** The page's state. `rooms` is the list the page loaded (the rooms
      whose status is Available). */
  class ReservationFormPage {
    var rooms: seq<Room>
    var selectedRoom: Option<Room>
    var data: FormData
    var errors: FormErrors

    constructor (rooms: seq<Room>)
      ensures this.rooms == rooms && selectedRoom == None && data == INITIAL_FORM && errors == NO_ERRORS
    {
      this.rooms := rooms;
      selectedRoom := None;
      data := INITIAL_FORM;
      errors := NO_ERRORS;
    }

    /** `handleInputChange`. */
    method HandleInputChange(name: string, value: string)
      modifies this`data, this`errors
      ensures data == ChangedData(old(data), name, value)
      ensures errors == ClearedErrors(old(errors), name)
    {
      var p := PathOf(name);
      match p {
        case AddressField(f) =>
          data := data.(address := data.address[f := value]);
        case GuestField(f) =>
          data := data.(guest := data.guest[f := value]);
        case TopField(f) =>
          data := data.(top := data.top[f := value]);
      }
      var current := ErrorAt(errors, name);
      if current.Some? && current.value != "" {
        errors := ClearedErrors(errors, name);
      }
    }

    /** `handleRoomSelect`: the selected room is the first loaded room with
        that id, or none; the `room` field takes the id either way. */
    method HandleRoomSelect(roomId: Id)
      modifies this`selectedRoom, this`data
      ensures selectedRoom.Some? ==>
                exists i :: 0 <= i < |rooms| && rooms[i] == selectedRoom.value && rooms[i].id == roomId
                            && forall j :: 0 <= j < i ==> rooms[j].id != roomId
      ensures selectedRoom.None? <==> forall i :: 0 <= i < |rooms| ==> rooms[i].id != roomId
      ensures data == ChangedData(old(data), "room", roomId)
    {
      selectedRoom := Find(rooms, (r: Room) => r.id == roomId);
      data := data.(top := data.top["room" := roomId]);
    }

    /** `validateForm`: collects the errors field by field, stores them and
        reports whether there were none. */
    method ValidateForm(dates: map<string, int>, today: int) returns (ok: bool)
      modifies this`errors
      ensures errors == ReservationFormErrors(data, dates, today)
      ensures ok <==> ReservationFormAccepted(data, dates, today)
    {
      var newErrors := CollectFormErrors(data, dates, today);
      errors := newErrors;
      ReservationFormErrorsEmptyIff(data, dates, today);
      ok := newErrors == NO_ERRORS;
    }

    /** `handleSubmit`: nothing is sent while the form is invalid; the
        availability answer (`available`, what the server reports for the
        room and dates) is asked for only after validation passes, and the
        create request goes out only when it is true. */
    method HandleSubmit(dates: map<string, int>, today: int, available: bool) returns (result: SubmitResult)
      modifies this`errors
      ensures result.CreateRequested? <==> ReservationFormAccepted(data, dates, today) && available
      ensures result.CreateRequested? ==> result.body == data && errors == NO_ERRORS
      ensures !ReservationFormAccepted(data, dates, today) ==>
                result == NotSubmitted && errors == ReservationFormErrors(data, dates, today)
      ensures ReservationFormAccepted(data, dates, today) && !available ==>
                result == Unavailable && errors == NO_ERRORS.(room := Some(ROOM_UNAVAILABLE))
    {
      var ok := ValidateForm(dates, today);
      if !ok {
        return NotSubmitted;
      }
      ReservationFormErrorsEmptyIff(data, dates, today);
      if !available {
        errors := NO_ERRORS.(room := Some(ROOM_UNAVAILABLE));
        return Unavailable;
      }
      result := CreateRequested(data);
    }
  }
}
