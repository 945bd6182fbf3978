# Hotel booking rules, modelled and proved in Dafny

This project models the booking rules of a small hotel back office. The
original is an Express/Mongoose back end with a Next.js front end. The
model covers three document collections and three front-end pages:

- rooms, with their schema and CRUD routes, list filters and the
  available-rooms selection;
- reservations, with their schema, the pre-save hooks that number a
  reservation and derive its nights and total, the overlap ("conflict")
  query, the create/update/status/delete handlers, the list filter and
  the availability check;
- bookings (ancillary services attached to a reservation), with their
  schema, numbering and total hooks, the create guard on the
  reservation's status, update, status and staff patches, delete, the
  one-day date window and pagination;
- the new-reservation, new-booking and new-room pages, each with its form
  state, change handler, validation, total preview and submit guard.

The conventions are the same throughout:

- Dates are integer milliseconds and money is integer cents.
- Enumerations are strings checked against the schema's lists.
- A handler's reply is a `Reply` datatype: `Ok`, `Created`, `Invalid` (the
  validator's 400), `BadRequest`, `NotFound` or `ServerError`.
- Each collection is a class over a `map` from id to record. Its
  methods update the map and are proved against a pure outcome function
  (`CreateOutcome`, `BookingUpdateOutcome`, ...).
- Lemmas prove what those outcome functions promise: rejection order,
  derived fields, and the store invariants each write preserves or
  breaks.
- A Mongoose document being saved is a class (`ReservationDocument`,
  `BookingDocument`). Its hook methods update fields in place.
- A form page is a class holding the form values and the error object.
  Each error object is a record with one optional message per input.
- The new id of a document is a parameter (`freshId !in items`).
- Reads of another collection take a snapshot map as a parameter.
- The instant that `new Date(s)` yields for a date string is given by a
  `dates` map; a string missing from the map is an invalid date.
- "Today" is a parameter, as is the availability answer the reservation
  page receives from the server.

Files:

- `common.dfy`: Option, Reply, ceiling division, filtering, find, pagination.
- `text.dfy`: digits, padding, trim, split, ordering and case of strings.
- `room_model.dfy`, `reservation_model.dfy`, `booking_model.dfy`: the schemas and hooks.
- `room_routes.dfy`, `reservation_routes.dfy`, `booking_routes.dfy`: the handlers and the stores.
- `reservation_form.dfy`, `booking_form.dfy`, `room_form.dfy`: the three pages.

## Behaviour worth knowing

These behaviours of the code are stated and proved as they are.

- Conflicts are checked on closed intervals. The query is
  `checkIn <= other.checkOut && checkOut >= other.checkIn`, so a stay that
  starts on the day another one ends conflicts with it
  (`SameDayTurnoverConflicts`).
- The PUT handlers write through `findByIdAndUpdate`, which runs no
  pre-save hook. Nights and totals are not recomputed on update
  (`UpdateLeavesStaleTotal`), and a reservation can be stored with its
  check-out before its check-in (`UpdateCanInvertStay`).
- A reservation PUT checks conflicts but never looks up the room or its
  status. Create does both.
- The status PATCH re-checks nothing. Confirming a pending reservation can
  create two overlapping active stays in one room
  (`StatusPatchCanDoubleBook`). Moving a reservation to an inactive status
  always keeps the no-overlap invariant (`DeactivatingPreserves`). The
  other handlers accept a store in that state; they keep its validity and
  unique numbers, and add no overlap to a store that had none.
- Numbers come from the document count. After a delete, the next generated
  number can be one already in use, and the save is then refused
  (`NumberReusedAfterDelete`, `DeleteLeavesNumberInUse`).
- Booking totals come from `if (price && quantity)`. A zero price leaves
  the total unset, and the save then fails with a 500
  (`ZeroPriceNeedsTotal`). The booking page refuses a zero price, but the
  server's validator lets it through (`ZeroPriceOnlyServerAccepts`).
- Toggling an amenity twice does not always restore the list. It restores
  the list when the amenity was absent or last. Otherwise the amenity
  comes back at the end (`ToggleTwiceReorders`). The multiset of amenities
  is always restored.

## Model

| member | source | states |
|---|---|---|
| Common.CeilDiv | backend/models/Reservation.js:132 | `Math.ceil(a / b)` for b > 0: the quotient q satisfies (q-1)·b < a <= q·b, for negative a as well |
| Common.CeilDivUnique | backend/models/Reservation.js:132 | any q with (q-1)·b < a <= q·b is the ceiling, so the nights count is determined by the stay length |
| Common.Blanked | frontend/app/reservations/new/page.tsx:82-87 | clearing an error keeps whether a key is present and leaves an empty message |
| Common.Filter | frontend/app/rooms/new/page.tsx:67 | the result keeps exactly the elements that pass, and is no longer than the input |
| Common.FilterCounts | frontend/app/rooms/new/page.tsx:67 | each passing element is kept as often as it occurs, every other element is dropped |
| Common.FilterSameTest | backend/routes/rooms.js:16-63 | two tests that agree on every element select the same documents |
| Common.Find | frontend/app/reservations/new/page.tsx:91 | `find`: None exactly when nothing matches, otherwise the first match |
| Common.FindIndex | frontend/app/reservations/new/page.tsx:91 | `findIndex`: -1 exactly when no element matches, otherwise the first matching index |
| Common.Paginate | backend/routes/bookings.js:66-69 | a negative skip fails; the page holds at most `limit` items, and item i is the one at offset (page-1)·limit + i |
| Common.PageOf | backend/routes/bookings.js:62-77 | the reply carries the number of matches, the requested page and `ceil(total / limit)` pages; item i is match (page-1)·limit + i, and the page is as long as the matches left, up to `limit` |
| Common.PageOfCovers | backend/routes/bookings.js:62-77 | match j is item j % limit of page j / limit + 1, which is within the page count |
| Common.TotalPages | backend/routes/bookings.js:75 | `Math.ceil(total / limit)` is the least page count covering every item; a zero limit has none |
| Common.ItemOnPage | backend/routes/bookings.js:67-75 | every item lies on page i / limit + 1, which is within the page count, at position i % limit |
| Common.ItemAtOffset | backend/routes/bookings.js:66-69 | item q·limit + m is item m of page q + 1 |
| Common.PageLiesBelowTotal | backend/routes/bookings.js:75 | a page that holds an item is within the page count |
| Text.PadStart | backend/models/Reservation.js:123 | `padStart` fills on the left up to the width and never truncates |
| Text.Pad6RoundTrip | backend/models/Reservation.js:123 | reading back the six-digit padded count gives the count |
| Text.Pad6Injective | backend/models/Booking.js:99 | distinct counts pad to distinct strings |
| Text.ParseDigitsOfDigits | backend/models/Reservation.js:123 | `String(n)` read back as decimal digits is n |
| Text.TrimEmptyIff | frontend/app/reservations/new/page.tsx:102-105 | a string trims to empty exactly when it is all whitespace |
| Text.BlankIff | frontend/app/reservations/new/page.tsx:102 | the `Blank` test is exactly `!s.trim()` |
| Text.TrimmedIff | backend/models/Room.js:8 | `trim` yields a string with no whitespace at either end, and leaves such strings unchanged |
| Text.TrimIdempotent | backend/models/Room.js:8 | trimming twice is trimming once |
| Text.ToLowerKeeps | backend/models/Reservation.js:20-25 | lower-casing gives a lower-case string and keeps a trimmed string trimmed |
| Text.StrLeTotal | backend/routes/rooms.js:208 | any two room numbers are ordered one way or the other |
| Text.StrLeTransitive | backend/routes/rooms.js:208 | the room-number order is transitive |
| Text.StrLeAntisymmetric | backend/routes/rooms.js:208 | two numbers ordered both ways are equal |
| Text.Split | backend/routes/rooms.js:42 | `split` gives at least one part and no part contains the separator |
| Text.SplitJoin | backend/routes/rooms.js:42 | splitting a comma-joined list of comma-free words gives the words back |
| Text.SplitAfterWord | frontend/app/reservations/new/page.tsx:54 | splitting `w.rest` gives w followed by the parts of rest |
| Rooms.InsertKeepsRoomNumbersUnique | backend/models/Room.js:4-9 | writing a room whose number no other room has keeps room numbers unique |
| Reservations.FullName | backend/models/Reservation.js:115-117 | the full name is the first name, one space, then the last name |
| Reservations.ReservationNumberFor | backend/models/Reservation.js:123 | the generated number is "RES" then at least six digits reading count + 1 |
| Reservations.ReservationNumberInjective | backend/models/Reservation.js:120-126 | distinct counts give distinct reservation numbers |
| Reservations.NightsBetween | backend/models/Reservation.js:130-132 | nights is the ceiling of the stay length in days |
| Reservations.NightsPositiveIff | backend/models/Reservation.js:63-67 | the nights bound (>= 1) holds exactly when check-out is after check-in |
| Reservations.NumberAfterHook | backend/models/Reservation.js:120-126 | a new document without a number gets RES + padded count + 1; any other keeps its number |
| Reservations.TotalAfterHook | backend/models/Reservation.js:134-140 | with the room found and nights non-zero the total is price × nights; otherwise it is unchanged |
| Reservations.CastGuest | backend/models/Reservation.js:9-30 | names and phone are trimmed and the email trimmed and lower-cased; the address and id fields are kept |
| Reservations.NewDraft | backend/models/Reservation.js:73-82 | status and payment status default to Pending; the id, room, dates, guest and number come from the body |
| Reservations.Validated | backend/models/Reservation.js:3-105 | the schema stores a record exactly when nights and total are set and every bound and enum holds |
| Reservations.PreparedDerivedFields | backend/models/Reservation.js:119-143 | a saved new reservation has nights = ceil(days), total = room price × nights, check-out after check-in, and the count-based number |
| Reservations.ReservationDocument.GenerateNumber | backend/models/Reservation.js:120-126 | the first hook sets only the number, as `NumberAfterHook` says |
| Reservations.SaveNewReservation | backend/routes/reservations.js:121-122 | building the document and running both hooks stores what `Prepared` says |
| Reservations.ReservationDocument.ComputeDerived | backend/models/Reservation.js:129-143 | the second hook sets only nights and total, as `NightsBetween` and `TotalAfterHook` say |
| ReservationRoutes.ConflictSwaps | backend/routes/reservations.js:97-102 | the overlap test is symmetric between two active reservations of a room |
| ReservationRoutes.InactiveNeverBlocks | backend/routes/reservations.js:96 | only Confirmed and Checked In reservations can produce a conflict |
| ReservationRoutes.SameDayTurnoverConflicts | backend/routes/reservations.js:99-100 | a stay starting on another active stay's check-out day conflicts with it |
| ReservationRoutes.ReservationInputErrors | backend/routes/reservations.js:8-17 | the validator chain reports no error exactly when every rule passes |
| ReservationRoutes.CreateOutcome | backend/routes/reservations.js:84-131 | a created reservation is valid, for an Available room, with the body's room and dates, no conflict and a fresh number |
| ReservationRoutes.CreateRejectionOrder | backend/routes/reservations.js:105-119 | a conflict gives 400 before the room is looked up; then a missing room gives 404 and a room not Available gives 400 |
| ReservationRoutes.CreatedDerivedFields | backend/routes/reservations.js:121-122 | a created reservation carries the derived nights and total and the count-based number |
| ReservationRoutes.CreatePreserves | backend/routes/reservations.js:94-122 | create keeps the records valid and numbers unique, and adds no overlap of active stays to a store that had none |
| ReservationRoutes.InsertPreserves | backend/routes/reservations.js:94-122 | writing a valid record with a fresh number and no conflict keeps the store invariant, and keeps no-overlap when it held |
| ReservationRoutes.NumberReusedAfterDelete | backend/models/Reservation.js:120-126 | when count + 1 is an existing number, a create without a number does not succeed |
| ReservationRoutes.DeleteLeavesNumberInUse | backend/routes/reservations.js:205-213 | deleting RES000001 of two reservations makes the next generated number RES000002, which is taken |
| ReservationRoutes.ApplyUpdate | backend/routes/reservations.js:162-166 | the update writes the body's room and dates and keeps stored nights and total unless the body sends them |
| ReservationRoutes.ApplyUpdateValid | backend/routes/reservations.js:162-166 | with the update validators passing, a valid reservation stays valid |
| ReservationRoutes.UpdateOutcomeFacts | backend/routes/reservations.js:134-176 | 400 exactly on a validator failure or a conflict with another reservation; an accepted update writes the body over an existing document |
| ReservationRoutes.UpdatePreserves | backend/routes/reservations.js:144-166 | an accepted update keeps the store invariant, and keeps no-overlap when it held |
| ReservationRoutes.UpdateIgnoresItself | backend/routes/reservations.js:144-154 | re-saving an active reservation with its own dates never conflicts with itself |
| ReservationRoutes.UpdateCanInvertStay | backend/routes/reservations.js:162-166 | an update can store a check-out before the check-in |
| ReservationRoutes.WithStatus | backend/routes/reservations.js:188-192 | the status patch changes the status and nothing else |
| ReservationRoutes.DeactivatingPreserves | backend/routes/reservations.js:179-192 | patching to an inactive status keeps the no-overlap invariant |
| ReservationRoutes.StatusPatchCanDoubleBook | backend/routes/reservations.js:179-192 | confirming a pending reservation that overlaps a confirmed one breaks the no-overlap invariant |
| ReservationRoutes.StatusPatchKeepsInvariant | backend/routes/reservations.js:182-192 | a listed status keeps the records valid and the numbers unique |
| ReservationRoutes.DeletePreserves | backend/routes/reservations.js:205-213 | delete keeps the store invariant, and keeps no-overlap when it held |
| ReservationRoutes.ListReservations | backend/routes/reservations.js:20-59 | a negative skip fails; otherwise `total` is the number of matching reservations, `totalPages` is `ceil(total / limit)`, item i is match (page-1)·limit + i in sort order, and the page is as long as the matches left, up to `limit` |
| ReservationRoutes.ListReservationsCovers | backend/routes/reservations.js:20-59 | every matching reservation is listed on some page within the page count |
| ReservationRoutes.FindConflict | backend/routes/reservations.js:94-103 | finds a conflicting reservation exactly when one exists, never the excluded one |
| ReservationRoutes.DecideCreate | backend/routes/reservations.js:84-131 | the handler's checks, in order, reach exactly the reply `CreateOutcome` describes |
| ReservationRoutes.DecideUpdate | backend/routes/reservations.js:134-176 | the handler's checks, in order, reach exactly the reply `UpdateOutcome` describes |
| ReservationRoutes.ReservationStore.Create | backend/routes/reservations.js:84-131 | replies as `CreateOutcome`, stores exactly the created record, changes nothing on rejection, keeps the store invariant and adds no overlap |
| ReservationRoutes.ReservationStore.Update | backend/routes/reservations.js:134-176 | replies as `UpdateOutcome`, writes only the updated record, keeps the store invariant and adds no overlap |
| ReservationRoutes.ReservationStore.PatchStatus | backend/routes/reservations.js:179-202 | an unlisted status gives 400 and a missing id 404, with no change; otherwise only the status is written |
| ReservationRoutes.ReservationStore.Delete | backend/routes/reservations.js:205-217 | removes exactly the given reservation, or replies 404 with no change; keeps the store invariant and adds no overlap |
| ReservationRoutes.ReservationStore.CheckAvailability | backend/routes/reservations.js:220-250 | 400 when room or a date is missing; otherwise available iff there is no conflict, and a conflict's number is reported |
| RoomRoutes.RoomInputErrors | backend/routes/rooms.js:7-13 | the validator chain reports no error exactly when number, type, capacity 1..10, price >= 0 and floor >= 1 pass |
| RoomRoutes.NewRoom | backend/models/Room.js:3-53 | a new room has the trimmed number, status Available, isActive true and no amenities unless the body gives them |
| RoomRoutes.NewRoomValidIff | backend/models/Room.js:3-50 | an accepted body builds a schema-valid room exactly when the number trims non-empty and the amenities and status are listed |
| RoomRoutes.ApplyRoomUpdate | backend/routes/rooms.js:113-117 | the update keeps the id, trims the number and keeps the fields the body omits |
| RoomRoutes.ApplyRoomUpdateValid | backend/routes/rooms.js:113-117 | a valid room stays valid under an accepted update |
| RoomRoutes.DuplicateNumberRejected | backend/routes/rooms.js:96-130 | a taken room number gives 400 "Room number already exists" on create and on update |
| RoomRoutes.RoomWritePreserves | backend/routes/rooms.js:85-131 | a successful create or update keeps rooms valid with unique numbers |
| RoomRoutes.RoomStatusPreserves | backend/routes/rooms.js:137-147 | a listed status keeps the room store invariant |
| RoomRoutes.RoomDeletePreserves | backend/routes/rooms.js:160-168 | delete keeps the room store invariant |
| RoomRoutes.ListRooms | backend/routes/rooms.js:16-63 | a negative skip fails; otherwise `total` is the number of matching rooms, `totalPages` is `ceil(total / limit)`, item i is match (page-1)·limit + i in sort order, and the page is as long as the matches left, up to `limit` |
| RoomRoutes.ListRoomsCovers | backend/routes/rooms.js:16-63 | every matching room is listed on some page within the page count |
| RoomRoutes.PriceRange | backend/routes/rooms.js:36-40 | the price filter keeps minPrice <= price <= maxPrice, each bound only when given |
| RoomRoutes.AmenitiesAnyOf | backend/routes/rooms.js:41-44 | for any non-empty list of comma-free amenities, the filter keeps a room exactly when it has at least one of them |
| RoomRoutes.InsertByNumber | backend/routes/rooms.js:208 | insertion keeps the list sorted by room number and is a permutation of the list plus the room |
| RoomRoutes.InsertByNumberMembers | backend/routes/rooms.js:208 | the sorted list holds exactly the old rooms and the new one |
| RoomRoutes.BookedRooms | backend/routes/rooms.js:196-204 | the booked set is exactly the rooms with an active overlapping reservation |
| RoomRoutes.RoomStore.Create | backend/routes/rooms.js:85-103 | replies as `RoomCreateOutcome`, stores exactly the new room, keeps the invariant |
| RoomRoutes.RoomStore.Update | backend/routes/rooms.js:106-131 | replies as `RoomUpdateOutcome`, writes only the updated room, keeps the invariant |
| RoomRoutes.RoomStore.PatchStatus | backend/routes/rooms.js:134-157 | an unlisted status gives 400 and a missing id 404, with no change; otherwise only the status is written |
| RoomRoutes.RoomStore.Delete | backend/routes/rooms.js:160-172 | removes exactly the given room, or replies 404 with no change |
| RoomRoutes.RoomStore.AvailableRooms | backend/routes/rooms.js:175-214 | 400 without both dates; otherwise exactly the Available, active, matching rooms with no active overlap, each once, sorted by number |
| Bookings.BookingNumberFor | backend/models/Booking.js:99 | the generated number is "BK" then at least six digits reading count + 1 |
| Bookings.BookingNumberInjective | backend/models/Booking.js:96-102 | distinct counts give distinct booking numbers |
| Bookings.TotalAfterBookingHook | backend/models/Booking.js:105-110 | with price and quantity non-zero the total is their product; otherwise it is unchanged |
| Bookings.NewBookingDraft | backend/models/Booking.js:18-66 | the service name is trimmed and status and payment status default to Scheduled and Pending |
| Bookings.ValidatedBooking | backend/models/Booking.js:3-85 | the schema stores a booking exactly when a total is set and every bound and enum holds |
| Bookings.PreparedBookingTotal | backend/models/Booking.js:95-110 | a saved booking with a non-zero price costs price × quantity and gets the count-based number; a zero price without a total fails |
| Bookings.BookingDocument.GenerateNumber | backend/models/Booking.js:96-102 | the first hook numbers only a new document without a number |
| Bookings.BookingDocument.ComputeTotal | backend/models/Booking.js:105-110 | the second hook sets only the total, as `TotalAfterBookingHook` says |
| Bookings.SaveNewBooking | backend/routes/bookings.js:125-126 | building the document and running both hooks stores what `PreparedBooking` says |
| BookingRoutes.BookingInputErrors | backend/routes/bookings.js:8-17 | the validator chain reports no error exactly when every rule passes |
| BookingRoutes.UpdateChainDropsReservation | backend/routes/bookings.js:19-28 | the update chain is the create chain without the reservation rule |
| BookingRoutes.BookingCreateFacts | backend/routes/bookings.js:103-135 | 400 on invalid input; 404 exactly when the reservation is missing; 400 exactly when it is not Confirmed or Checked In; a created booking is valid with a fresh number |
| BookingRoutes.ZeroPriceNeedsTotal | backend/models/Booking.js:105-110 | a zero price with no total in the body ends in "Error creating booking" |
| BookingRoutes.ApplyBookingUpdate | backend/routes/bookings.js:145-149 | the update writes price and quantity but keeps the stored total unless the body sends one |
| BookingRoutes.ApplyBookingUpdateValid | backend/routes/bookings.js:145-149 | a valid booking stays valid under an accepted update |
| BookingRoutes.UpdateLeavesStaleTotal | backend/routes/bookings.js:145-149 | changing the quantity without sending a total leaves a total that is no longer price × quantity |
| BookingRoutes.InsertBookingPreserves | backend/routes/bookings.js:125-126 | writing a valid booking with a fresh number keeps the store invariant |
| BookingRoutes.BookingWritesPreserve | backend/routes/bookings.js:103-159 | a successful create or update keeps the store invariant |
| BookingRoutes.BookingPatchPreserves | backend/routes/bookings.js:171-175 | a patch that keeps the number and validity keeps the store invariant |
| BookingRoutes.BookingDeletePreserves | backend/routes/bookings.js:215 | delete keeps the store invariant |
| BookingRoutes.DayWindowsTile | backend/routes/bookings.js:51-56 | one-day windows do not overlap: an instant is in the window of at most one day |
| BookingRoutes.DayWindowExists | backend/routes/bookings.js:51-56 | every instant is in some day's window |
| BookingRoutes.ListBookings | backend/routes/bookings.js:31-78 | a negative skip fails; otherwise listed bookings match every filter, including the [date, date + 1 day) window; `total` is the number of matches, `totalPages` is `ceil(total / limit)`, item i is match (page-1)·limit + i in sort order, and the page is as long as the matches left, up to `limit` |
| BookingRoutes.ListBookingsCovers | backend/routes/bookings.js:31-78 | every matching booking is listed on some page within the page count |
| BookingRoutes.BookingsForReservation | backend/routes/bookings.js:228-235 | exactly the bookings of the reservation |
| BookingRoutes.StaffBookings | backend/routes/bookings.js:242-258 | exactly the staff member's bookings, within the day window when a date is given |
| BookingRoutes.BookingStore.Create | backend/routes/bookings.js:103-135 | replies as `BookingCreateOutcome`, stores exactly the created booking, keeps the invariant |
| BookingRoutes.BookingStore.Update | backend/routes/bookings.js:138-159 | replies as `BookingUpdateOutcome`, writes only the updated booking, keeps the invariant |
| BookingRoutes.BookingStore.PatchStatus | backend/routes/bookings.js:162-185 | an unlisted status gives 400 and a missing id 404, with no change; otherwise only the status is written |
| BookingRoutes.BookingStore.Assign | backend/routes/bookings.js:188-210 | an empty staff id gives 400 and a missing id 404, with no change; otherwise only the staff is written |
| BookingRoutes.BookingStore.Delete | backend/routes/bookings.js:213-225 | removes exactly the given booking, or replies 404 with no change |
| ReservationForm.SplitAddressName | frontend/app/reservations/new/page.tsx:53-54 | the third dot-part of `guest.address.X` is X when X has no dot |
| ReservationForm.SplitGuestName | frontend/app/reservations/new/page.tsx:65-66 | the second dot-part of `guest.X` is X when X has no dot |
| ReservationForm.PathOf | frontend/app/reservations/new/page.tsx:53-79 | a name addresses an address field, a guest field or a top-level field by its prefix |
| ReservationForm.PathOfNameOf | frontend/app/reservations/new/page.tsx:50-79 | every dot-free field is addressed by its own input name |
| ReservationForm.ChangedData | frontend/app/reservations/new/page.tsx:50-79 | a change never removes a field |
| ReservationForm.ChangeReadBack | frontend/app/reservations/new/page.tsx:50-79 | a change writes exactly the field its name addresses and no other |
| ReservationForm.ClearedErrors | frontend/app/reservations/new/page.tsx:81-87 | a change blanks only its own input's error |
| ReservationForm.ParseUnsignedIff | frontend/app/reservations/new/page.tsx:109 | a number is read exactly from a non-empty digit string |
| ReservationForm.ReservationFormErrorsEmptyIff | frontend/app/reservations/new/page.tsx:99-128 | no error exactly when names, email and phone are non-blank, room and dates are set, guests >= 1, check-in >= today and check-out > check-in |
| ReservationForm.InitialFormErrors | frontend/app/reservations/new/page.tsx:99-127 | the initial form fails on the guest fields, the room and both dates, and not on the guest count |
| ReservationForm.CollectFormErrors | frontend/app/reservations/new/page.tsx:99-124 | the successive checks build the errors `ReservationFormErrors` describes |
| ReservationForm.TotalPreview | frontend/app/reservations/new/page.tsx:173-182 | the preview is 0 until a room and both dates are chosen |
| ReservationForm.PreviewFormula | frontend/app/reservations/new/page.tsx:173-182 | with a room and both dates the preview is price × ceil(days) |
| ReservationForm.PreviewMatchesStoredTotal | frontend/app/reservations/new/page.tsx:173-182 | the preview equals the total the server stores for the same room and dates |
| ReservationForm.ReservationFormPage.HandleInputChange | frontend/app/reservations/new/page.tsx:50-88 | updates the addressed field and clears only that input's error |
| ReservationForm.ReservationFormPage.HandleRoomSelect | frontend/app/reservations/new/page.tsx:90-97 | selects the first loaded room with that id, or none exactly when no room has it, and sets the room field |
| ReservationForm.ReservationFormPage.ValidateForm | frontend/app/reservations/new/page.tsx:99-128 | stores the described errors and returns true exactly when the form is accepted |
| ReservationForm.ReservationFormPage.HandleSubmit | frontend/app/reservations/new/page.tsx:130-171 | the create request is sent exactly when the form is valid and the room is available; otherwise the errors say why |
| BookingForm.ServiceTypeOptionsMatchSchema | frontend/app/bookings/new/page.tsx:134-143 | the select offers exactly the schema's eight service types, in order |
| BookingForm.ChangedBookingData | frontend/app/bookings/new/page.tsx:45-52 | a change writes the number to a numeric input, the text to another one, and leaves every other input alone |
| BookingForm.ClearedBookingErrors | frontend/app/bookings/new/page.tsx:54-60 | a change blanks only its own input's error |
| BookingForm.BookingFormErrorsEmptyIff | frontend/app/bookings/new/page.tsx:72-97 | no error exactly when reservation, type, non-blank name, date and time are set, duration >= 15, price > 0, quantity >= 1 and the date is not before today |
| BookingForm.InitialBookingFormErrors | frontend/app/bookings/new/page.tsx:72-96 | the initial form fails on the text inputs and the zero price, not on duration or quantity |
| BookingForm.CollectBookingFormErrors | frontend/app/bookings/new/page.tsx:72-95 | the successive checks build the errors `BookingFormErrorsOf` describes |
| BookingForm.BookingRequestBody | frontend/app/bookings/new/page.tsx:110 | the body sends no number, total, status or staff, and the date when it parses |
| BookingForm.AcceptedFormPassesServerChecks | frontend/app/bookings/new/page.tsx:72-96 | a form the page accepts passes the server's validators, given a well-formed id and a parseable date |
| BookingForm.AcceptedFormSaves | frontend/app/bookings/new/page.tsx:99-113 | an accepted form with a listed type saves a booking numbered from the count, with the trimmed name and total price × quantity |
| BookingForm.ZeroPriceOnlyServerAccepts | frontend/app/bookings/new/page.tsx:81 | a zero price is refused by the page, accepted by the server's validators, and then fails to save |
| BookingForm.ShownTotal | frontend/app/bookings/new/page.tsx:392-398 | the total is shown exactly while price and quantity are positive |
| BookingForm.ShownTotalIsStoredTotal | frontend/app/bookings/new/page.tsx:130-132 | a shown total equals the total the server stores for the same price and quantity |
| BookingForm.BookingFormPage.HandleInputChange | frontend/app/bookings/new/page.tsx:45-61 | updates the named input and clears only its error |
| BookingForm.BookingFormPage.HandleReservationSelect | frontend/app/bookings/new/page.tsx:63-70 | selects the first loaded reservation with that id, or none exactly when none has it, and sets the reservation field |
| BookingForm.BookingFormPage.ValidateForm | frontend/app/bookings/new/page.tsx:72-97 | stores the described errors and returns true exactly when the form is accepted |
| BookingForm.BookingFormPage.HandleSubmit | frontend/app/bookings/new/page.tsx:99-128 | the create request is sent exactly when the form is valid |
| RoomForm.OptionsMatchSchema | frontend/app/rooms/new/page.tsx:24-43 | the type, amenity and status choices are the schema's lists, and the capacity choices are 1..10 |
| RoomForm.FilterOutCounts | frontend/app/rooms/new/page.tsx:67 | filtering an amenity out removes every copy and keeps every other entry as often as before |
| RoomForm.FilterKeepsOthers | frontend/app/rooms/new/page.tsx:67 | filtering out an absent amenity changes nothing |
| RoomForm.FilterConcat | frontend/app/rooms/new/page.tsx:67 | filtering distributes over concatenation |
| RoomForm.ToggleCounts | frontend/app/rooms/new/page.tsx:63-70 | a toggle flips whether the amenity is listed (0 or 1 copies) and keeps every other count |
| RoomForm.ToggleKeepsListValid | frontend/app/rooms/new/page.tsx:63-70 | a toggle keeps the list duplicate-free and within the schema's amenities |
| RoomForm.ToggleTwiceSameAmenities | frontend/app/rooms/new/page.tsx:63-70 | on a duplicate-free list, two toggles restore the multiset of amenities |
| RoomForm.ToggleTwiceRestoresAbsent | frontend/app/rooms/new/page.tsx:63-70 | two toggles of an absent amenity restore the list |
| RoomForm.ToggleTwiceRestoresLast | frontend/app/rooms/new/page.tsx:63-70 | two toggles of the last amenity of a duplicate-free list restore the list |
| RoomForm.ToggleTwiceReorders | frontend/app/rooms/new/page.tsx:63-70 | two toggles of WiFi in [WiFi, TV] give [TV, WiFi] |
| RoomForm.ChangedRoomData | frontend/app/rooms/new/page.tsx:45-52 | a change writes the number to a numeric input, the text to another, and leaves every other input and the amenities alone |
| RoomForm.ClearedRoomErrors | frontend/app/rooms/new/page.tsx:54-60 | a change blanks only its own input's error |
| RoomForm.RoomFormErrorsEmptyIff | frontend/app/rooms/new/page.tsx:72-83 | no error exactly when the number is non-blank, a type is set, capacity >= 1, price > 0 and floor >= 1 |
| RoomForm.DefaultRoomFormErrors | frontend/app/rooms/new/page.tsx:12-21 | the default form fails on the room number and the zero price only |
| RoomForm.CollectRoomFormErrors | frontend/app/rooms/new/page.tsx:72-82 | the successive checks build the errors `RoomFormErrorsOf` describes |
| RoomForm.RoomRequestBody | frontend/app/rooms/new/page.tsx:96 | the body always carries the amenity list and the status |
| RoomForm.AcceptedRoomFormSaves | frontend/app/rooms/new/page.tsx:85-96 | an accepted form filled from the page's choices passes the server's validators and builds a schema-valid room |
| RoomForm.RoomFormPage.HandleInputChange | frontend/app/rooms/new/page.tsx:45-61 | updates the named input and clears only its error |
| RoomForm.RoomFormPage.HandleAmenityToggle | frontend/app/rooms/new/page.tsx:63-70 | replaces the amenities by their toggle and changes nothing else |
| RoomForm.RoomFormPage.ValidateForm | frontend/app/rooms/new/page.tsx:72-83 | stores the described errors and returns true exactly when the form is accepted |
| RoomForm.RoomFormPage.HandleSubmit | frontend/app/rooms/new/page.tsx:85-114 | the create request is sent exactly when the form is valid |

## Left out

- HTTP routing, middleware and serialisation. Each handler is its outcome function and store method.
- `GET /:id` of each collection. These are a lookup with a 404 and are not modelled separately.
- The room `GET /:id` route is registered before `/available`, `/types` and `/status`, so those paths never reach their handlers. `/available` is modelled as its handler body defines it.
- `/types` and `/status` are database aggregations and are not modelled. `/types` groups rooms by type with a count, a floating-point average price and the minimum and maximum price; `/status` only counts rooms per status.
- The order in which Mongoose validates and runs `pre('save')` hooks. Mongoose validates first, so a body without a number or total would be refused before the hooks run. The model runs the hooks and then applies the schema checks, which is what the hooks are evidently written for.
- populate, indexes and `CastError` on malformed ids. An unknown id is treated as not found.
- Concurrency. The model is sequential, so the `countDocuments` numbering race and the gap between check and insert are not represented.
- Floating point. Money is integer cents, durations are integer minutes, and `toFixed(2)` display is not modelled.
- Parsing. Date strings, time zones and ISO 8601 validation are reduced to `Option<int>` instants and the `dates` map. `parseFloat(value) || 0` on the booking and room pages is a `numeric` parameter of `HandleInputChange`.
- ReservationForm.NumericValue: reads only optionally signed decimal digit strings, with the empty string as 0. Whitespace, decimals and exponents, which JavaScript's `<` also converts, count as NaN here.
- Text.IsEmail: a simplified stand-in for express-validator's `isEmail` (one `@` with a non-empty local part and a dotted domain). It accepts some addresses the library refuses, such as "a b@c.de" and "a@b.c", so `InputAccepted`, `ReservationInputErrors` and `CreateOutcome` can accept such an email where the code replies 400.
- Text.ToLower: lower-cases only the ASCII letters A-Z. The schema's `lowercase` setter uses JavaScript's Unicode `toLowerCase`, so "ÄB@x.de" is stored as "äb@x.de" where the model keeps "Äb@x.de".
- ReservationRoutes.ListReservations, RoomRoutes.ListRooms and BookingRoutes.ListBookings: `limit` is a natural number, so a negative `?limit=` cannot be expressed. The database treats a negative limit as its absolute value, and the reply's `totalPages` is then `ceil(total / limit)` with the negative limit.
- ReservationRoutes.ReservationStore.CheckAvailability: an unparseable date is folded into an absent one and answered with 400. The code replies 500, from the cast error of the query.
- RoomRoutes.RoomStore.AvailableRooms: likewise, an unparseable date can only be passed as an absent one and is answered with 400. The code passes `new Date(...)` of it to the reservation query, whose cast error gives a 500.
- The user-supplied regular expression of the reservation guest-email filter. The reservation list's `roomType` query parameter is read but never used.
- The `sortBy`/`sortOrder` options of the list handlers. The lists take the documents already in sort order.
- Free-text fields (descriptions, notes, special requests, images, createdBy) are not part of the stored records.
- On the pages: loading flags, navigation, and fetching the room or reservation lists (passed to the constructors). The `catch` branches that map server errors or set a `general` message are also left out.
- The reservation page stores `numberOfGuests` as the string the input reports; the first render's number 1 is the string "1" here.
- ReservationForm.ErrorAt and the other error records hold only the keys that validation sets, without the `general` key that only the left-out `catch` branch writes. `ClearedErrors`, `ClearedBookingErrors` and `ClearedRoomErrors` match the page for every input name: the page clears a message only when it is truthy, so an input without one changes nothing there either.
- ReservationForm.ChangedData: the names `guest` and `guest.address` themselves, which would overwrite a whole nested object on the page, are treated as plain field names.
