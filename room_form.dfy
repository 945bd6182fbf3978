/** The new-room page: its form state, the change handler, the amenity
    toggle, the client-side validation and the submit guard. */
module RoomForm {
  import opened Common
  import opened Text
  import opened Rooms
  import opened RoomRoutes

  /** The form values. The price is in cents; the three numeric inputs hold
      numbers, every other input a string. */
  datatype RoomFormData = RoomFormData(
    roomNumber: string,
    roomType: string,
    capacity: int,
    pricePerNight: int,
    amenities: seq<string>,
    floor: int,
    description: string,
    status: string)

  /** The initial form: a Standard room for one on the first floor, priced
      at zero, with no amenities and status Available. */
  const DEFAULT_ROOM_FORM: RoomFormData := RoomFormData("", "Standard", 1, 0, [], 1, "", "Available")

  /** The choices the page offers. */
  const ROOM_TYPE_OPTIONS: seq<string> := ["Standard", "Deluxe", "Suite", "Executive", "Presidential"]
  const AMENITY_OPTIONS: seq<string> :=
    ["WiFi", "TV", "Mini Bar", "Balcony", "Ocean View", "City View", "Air Conditioning", "Room Service",
     "Safe", "Jacuzzi"]
  const CAPACITY_OPTIONS: seq<int> := [1, 2, 3, 4, 5, 6, 7, 8, 9, 10]
  const ROOM_STATUS_OPTIONS: seq<string> := ["Available", "Occupied", "Maintenance", "Out of Order"]

  /** Every choice the page offers is one the schema accepts, and the type,
      amenity and status choices are exactly the schema's lists. */
  lemma OptionsMatchSchema()
    ensures ROOM_TYPE_OPTIONS == ROOM_TYPES && AMENITY_OPTIONS == AMENITIES
    ensures ROOM_STATUS_OPTIONS == ROOM_STATUSES
    ensures forall c :: c in CAPACITY_OPTIONS <==> 1 <= c <= 10
  {
  }

  /** The test `filter` applies when an amenity is switched off. */
  function Other(amenity: string): string -> bool {
    a => a != amenity
  }

  /** Filtering out an amenity removes every copy of it and keeps every
      other entry as often as it was there. */
  lemma {:induction false} FilterOutCounts(s: seq<string>, amenity: string)
    ensures multiset(Filter(s, Other(amenity))) == multiset(s)[amenity := 0]
    decreases |s|
  {
    if s != [] {
      FilterOutCounts(s[1..], amenity);
      assert s == [s[0]] + s[1..];
      assert multiset(s) == multiset{s[0]} + multiset(s[1..]);
    }
  }

  /** `handleAmenityToggle`'s new list: a listed amenity is filtered out,
      an unlisted one appended. */
  function ToggleAmenity(amenities: seq<string>, amenity: string): seq<string> {
    if amenity in amenities then Filter(amenities, Other(amenity)) else amenities + [amenity]
  }

  /** Toggling flips whether the amenity is listed and leaves how often
      every other amenity is listed alone. */
  lemma ToggleCounts(amenities: seq<string>, amenity: string)
    ensures amenity in ToggleAmenity(amenities, amenity) <==> amenity !in amenities
    ensures multiset(ToggleAmenity(amenities, amenity))[amenity] == if amenity in amenities then 0 else 1
    ensures forall other :: other != amenity ==>
              multiset(ToggleAmenity(amenities, amenity))[other] == multiset(amenities)[other]
  {
    FilterOutCounts(amenities, amenity);
    if amenity in amenities {
      assert multiset(ToggleAmenity(amenities, amenity))[amenity] == 0;
    } else {
      assert multiset(amenities + [amenity]) == multiset(amenities) + multiset{amenity};
    }
  }

  /** No amenity listed twice. */
  ghost predicate Distinct(s: seq<string>) {
    forall a :: multiset(s)[a] <= 1
  }

  /** Toggling keeps the list free of duplicates, and keeps it within the
      schema's amenities when the toggled one is. */
  lemma ToggleKeepsListValid(amenities: seq<string>, amenity: string)
    ensures Distinct(amenities) ==> Distinct(ToggleAmenity(amenities, amenity))
    ensures (forall i :: 0 <= i < |amenities| ==> amenities[i] in AMENITIES) && amenity in AMENITIES ==>
              forall i :: 0 <= i < |ToggleAmenity(amenities, amenity)| ==> ToggleAmenity(amenities, amenity)[i] in AMENITIES
  {
    ToggleCounts(amenities, amenity);
  }

  /** Toggling twice gives back the same amenities, each as often as
      before. */
  lemma ToggleTwiceSameAmenities(amenities: seq<string>, amenity: string)
    requires Distinct(amenities)
    ensures multiset(ToggleAmenity(ToggleAmenity(amenities, amenity), amenity)) == multiset(amenities)
  {
    ToggleCounts(amenities, amenity);
    ToggleCounts(ToggleAmenity(amenities, amenity), amenity);
  }

  /** Switching an absent amenity on and off again restores the list. */
  lemma ToggleTwiceRestoresAbsent(amenities: seq<string>, amenity: string)
    requires amenity !in amenities
    ensures ToggleAmenity(ToggleAmenity(amenities, amenity), amenity) == amenities
  {
    FilterConcat(amenities, [amenity], Other(amenity));
    FilterKeepsOthers(amenities, amenity);
  }

  /** Switching the last amenity of a duplicate-free list off and on again
      restores the list. */
  lemma ToggleTwiceRestoresLast(amenities: seq<string>, amenity: string)
    requires Distinct(amenities) && amenities != [] && amenities[|amenities| - 1] == amenity
    ensures ToggleAmenity(ToggleAmenity(amenities, amenity), amenity) == amenities
  {
    var rest := amenities[..|amenities| - 1];
    assert amenities == rest + [amenity];
    assert amenity !in rest by {
      assert multiset(amenities) == multiset(rest) + multiset{amenity};
      assert multiset(amenities)[amenity] <= 1;
    }
    FilterConcat(rest, [amenity], Other(amenity));
    FilterKeepsOthers(rest, amenity);
    assert Filter([amenity], Other(amenity)) == [];
    assert amenity in amenities;
    assert ToggleAmenity(amenities, amenity) == rest;
  }

  /** Any other listed amenity moves: off and on again puts it last. */
  lemma ToggleTwiceReorders()
    ensures Distinct(["WiFi", "TV"])
    ensures ToggleAmenity(ToggleAmenity(["WiFi", "TV"], "WiFi"), "WiFi") == ["TV", "WiFi"]
  {
    assert ToggleAmenity(["WiFi", "TV"], "WiFi") == ["TV"];
    assert "WiFi" !in ["TV"];
    var m := multiset(["WiFi", "TV"]);
    assert m == multiset{"WiFi", "TV"};
  }

  lemma {:induction false} FilterConcat(s: seq<string>, t: seq<string>, p: string -> bool)
    ensures Filter(s + t, p) == Filter(s, p) + Filter(t, p)
    decreases |s|
  {
    if s != [] {
      FilterConcat(s[1..], t, p);
      assert (s + t)[1..] == s[1..] + t;
    } else {
      assert s + t == t;
    }
  }

  /** Filtering out an amenity that is not there changes nothing. */
  lemma {:induction false} FilterKeepsOthers(s: seq<string>, amenity: string)
    requires amenity !in s
    ensures Filter(s, Other(amenity)) == s
    decreases |s|
  {
    if s != [] {
      assert s[0] in s;
      FilterKeepsOthers(s[1..], amenity);
      assert s == [s[0]] + s[1..];
    }
  }

  predicate IsNumericField(name: string) {
    name == "capacity" || name == "pricePerNight" || name == "floor"
  }

  function RoomFieldAt(d: RoomFormData, name: string): FieldValue {
    if name == "roomNumber" then TextValue(d.roomNumber)
    else if name == "roomType" then TextValue(d.roomType)
    else if name == "capacity" then NumberValue(d.capacity)
    else if name == "pricePerNight" then NumberValue(d.pricePerNight)
    else if name == "floor" then NumberValue(d.floor)
    else if name == "description" then TextValue(d.description)
    else if name == "status" then TextValue(d.status)
    else NoField
  }

  /** The form after the input `name` reports `value`; `numeric` is the
      number `parseFloat(value) || 0` gives for it, which the three numeric
      inputs store instead of the string. The amenities are not an input
      and change only by toggling. */
  function ChangedRoomData(d: RoomFormData, name: string, value: string, numeric: int): (c: RoomFormData)
    ensures IsNumericField(name) ==> RoomFieldAt(c, name) == NumberValue(numeric)
    ensures RoomFieldAt(d, name).TextValue? ==> RoomFieldAt(c, name) == TextValue(value)
    ensures forall other :: other != name ==> RoomFieldAt(c, other) == RoomFieldAt(d, other)
    ensures c.amenities == d.amenities
  {
    if name == "roomNumber" then d.(roomNumber := value)
    else if name == "roomType" then d.(roomType := value)
    else if name == "capacity" then d.(capacity := numeric)
    else if name == "pricePerNight" then d.(pricePerNight := numeric)
    else if name == "floor" then d.(floor := numeric)
    else if name == "description" then d.(description := value)
    else if name == "status" then d.(status := value)
    else d
  }

  const ROOM_NUMBER_REQUIRED: string := "Room number is required"
  const ROOM_TYPE_REQUIRED: string := "Room type is required"
  const CAPACITY_TOO_LOW: string := "Capacity must be at least 1"
  const PRICE_NOT_POSITIVE: string := "Price must be greater than 0"
  const FLOOR_TOO_LOW: string := "Floor must be at least 1"

  /** The page's error object, restricted to the keys `validateForm` sets. */
  datatype RoomFormErrors = RoomFormErrors(
    roomNumber: Option<string>, roomType: Option<string>, capacity: Option<string>,
    pricePerNight: Option<string>, floor: Option<string>)

  const NO_ROOM_ERRORS: RoomFormErrors := RoomFormErrors(None, None, None, None, None)

  /** `errors[name]`. */
  function RoomErrorAt(e: RoomFormErrors, name: string): Option<string> {
    if name == "roomNumber" then e.roomNumber
    else if name == "roomType" then e.roomType
    else if name == "capacity" then e.capacity
    else if name == "pricePerNight" then e.pricePerNight
    else if name == "floor" then e.floor
    else None
  }

  /** The errors after a change to the input `name`: a truthy message under
      that name is blanked, and no other entry changes. */
  function ClearedRoomErrors(e: RoomFormErrors, name: string): (r: RoomFormErrors)
    ensures RoomErrorAt(r, name) == if RoomErrorAt(e, name).Some? then Some("") else None
    ensures forall other :: other != name ==> RoomErrorAt(r, other) == RoomErrorAt(e, other)
  {
    if name == "roomNumber" then e.(roomNumber := Blanked(e.roomNumber))
    else if name == "roomType" then e.(roomType := Blanked(e.roomType))
    else if name == "capacity" then e.(capacity := Blanked(e.capacity))
    else if name == "pricePerNight" then e.(pricePerNight := Blanked(e.pricePerNight))
    else if name == "floor" then e.(floor := Blanked(e.floor))
    else e
  }

  /** What `validateForm` accepts: a non-blank room number, a room type, at
      least one guest, a positive price and at least the first floor. */
  predicate RoomFormAccepted(d: RoomFormData) {
    !Blank(d.roomNumber) && d.roomType != "" && d.capacity >= 1 && d.pricePerNight > 0 && d.floor >= 1
  }

  /** The errors `validateForm` reports, entry by entry. */
  function RoomFormErrorsOf(d: RoomFormData): RoomFormErrors {
    RoomFormErrors(
      roomNumber := if Blank(d.roomNumber) then Some(ROOM_NUMBER_REQUIRED) else None,
      roomType := if d.roomType == "" then Some(ROOM_TYPE_REQUIRED) else None,
      capacity := if d.capacity < 1 then Some(CAPACITY_TOO_LOW) else None,
      pricePerNight := if d.pricePerNight <= 0 then Some(PRICE_NOT_POSITIVE) else None,
      floor := if d.floor < 1 then Some(FLOOR_TOO_LOW) else None)
  }

  /** The form passes exactly when it reports no error. */
  lemma RoomFormErrorsEmptyIff(d: RoomFormData)
    ensures RoomFormErrorsOf(d) == NO_ROOM_ERRORS <==> RoomFormAccepted(d)
  {
  }

  /** The default form fails on the room number and the zero price only. */
  lemma DefaultRoomFormErrors()
    ensures RoomFormErrorsOf(DEFAULT_ROOM_FORM) ==
            RoomFormErrors(Some(ROOM_NUMBER_REQUIRED), None, None, Some(PRICE_NOT_POSITIVE), None)
  {
  }

  /** The checks of `validateForm`, one after another. */
  method CollectRoomFormErrors(d: RoomFormData) returns (newErrors: RoomFormErrors)
    ensures newErrors == RoomFormErrorsOf(d)
  {
    newErrors := NO_ROOM_ERRORS;
    if Blank(d.roomNumber) {
      newErrors := newErrors.(roomNumber := Some(ROOM_NUMBER_REQUIRED));
    }
    if d.roomType == "" {
      newErrors := newErrors.(roomType := Some(ROOM_TYPE_REQUIRED));
    }
    if d.capacity < 1 {
      newErrors := newErrors.(capacity := Some(CAPACITY_TOO_LOW));
    }
    if d.pricePerNight <= 0 {
      newErrors := newErrors.(pricePerNight := Some(PRICE_NOT_POSITIVE));
    }
    if d.floor < 1 {
      newErrors := newErrors.(floor := Some(FLOOR_TOO_LOW));
    }
  }

  /** The body the page sends: every field, with the amenity list and the
      status always present. */
  function RoomRequestBody(d: RoomFormData): (input: RoomInput)
    ensures input.amenities == Some(d.amenities) && input.status == Some(d.status) && input.isActive.None?
  {
    RoomInput(d.roomNumber, d.roomType, d.capacity, d.pricePerNight, d.floor, Some(d.amenities), Some(d.status), None)
  }

  /** A form the page accepts, filled from its own choices, passes the
      server's validator and builds a room the schema accepts. */
  lemma AcceptedRoomFormSaves(d: RoomFormData, id: Id)
    requires RoomFormAccepted(d)
    requires d.roomType in ROOM_TYPE_OPTIONS && d.capacity in CAPACITY_OPTIONS && d.status in ROOM_STATUS_OPTIONS
    requires forall i :: 0 <= i < |d.amenities| ==> d.amenities[i] in AMENITY_OPTIONS
    ensures RoomInputAccepted(RoomRequestBody(d))
    ensures ValidRoom(NewRoom(id, RoomRequestBody(d)))
  {
    OptionsMatchSchema();
    BlankIff(d.roomNumber);
    NewRoomValidIff(id, RoomRequestBody(d));
  }

  /** What a submit did: stopped by validation, or sent the create request
      with the form as its body. */
  datatype SubmitResult = NotSubmitted | CreateRequested(body: RoomFormData)

  /** The page's state. */
  class RoomFormPage {
    var data: RoomFormData
    var errors: RoomFormErrors

    constructor ()
      ensures data == DEFAULT_ROOM_FORM && errors == NO_ROOM_ERRORS
    {
      data := DEFAULT_ROOM_FORM;
      errors := NO_ROOM_ERRORS;
    }

    /** `handleInputChange`, with `numeric` the value `parseFloat(value) || 0`
        gives. */
    method HandleInputChange(name: string, value: string, numeric: int)
      modifies this`data, this`errors
      ensures data == ChangedRoomData(old(data), name, value, numeric)
      ensures errors == ClearedRoomErrors(old(errors), name)
    {
      data := ChangedRoomData(data, name, value, numeric);
      var current := RoomErrorAt(errors, name);
      if current.Some? && current.value != "" {
        errors := ClearedRoomErrors(errors, name);
      }
    }

    /** `handleAmenityToggle`. */
    method HandleAmenityToggle(amenity: string)
      modifies this`data
      ensures data == old(data).(amenities := ToggleAmenity(old(data).amenities, amenity))
    {
      if amenity in data.amenities {
        data := data.(amenities := Filter(data.amenities, Other(amenity)));
      } else {
        data := data.(amenities := data.amenities + [amenity]);
      }
    }

    /** `validateForm`: collects the errors, stores them and reports whether
        there were none. */
    method ValidateForm() returns (ok: bool)
      modifies this`errors
      ensures errors == RoomFormErrorsOf(data)
      ensures ok <==> RoomFormAccepted(data)
    {
      var newErrors := CollectRoomFormErrors(data);
      errors := newErrors;
      RoomFormErrorsEmptyIff(data);
      ok := newErrors == NO_ROOM_ERRORS;
    }

    /** `handleSubmit`: the create request goes out exactly when the form
        validates, with the form as its body. */
    method HandleSubmit() returns (result: SubmitResult)
      modifies this`errors
      ensures result.CreateRequested? <==> RoomFormAccepted(data)
      ensures result.CreateRequested? ==> result.body == data && errors == NO_ROOM_ERRORS
      ensures errors == RoomFormErrorsOf(data)
    {
      var ok := ValidateForm();
      if !ok {
        return NotSubmitted;
      }
      RoomFormErrorsEmptyIff(data);
      result := CreateRequested(data);
    }
  }
}
