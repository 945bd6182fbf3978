/** The Room document: its enumerations, bounds and defaults, written as a
    validity predicate over a record. */
module Rooms {
  import opened Common
  import opened Text

  const ROOM_TYPES: seq<string> := ["Standard", "Deluxe", "Suite", "Executive", "Presidential"]

  const AMENITIES: seq<string> :=
    ["WiFi", "TV", "Mini Bar", "Balcony", "Ocean View", "City View",
     "Air Conditioning", "Room Service", "Safe", "Jacuzzi"]

  const ROOM_STATUSES: seq<string> := ["Available", "Occupied", "Maintenance", "Out of Order"]

  const DEFAULT_ROOM_STATUS: string := "Available"

  /** A stored room; money is in cents. Description and images are not
      modelled. */
  datatype Room = Room(
    id: Id,
    roomNumber: string,
    roomType: string,
    capacity: int,
    pricePerNight: int,
    amenities: seq<string>,
    status: string,
    floor: int,
    isActive: bool)

  /** What the schema accepts: a required trimmed room number, the listed
      type, capacity 1..10, a non-negative price, floor at least 1, listed
      amenities and a listed status. */
  predicate ValidRoom(r: Room) {
    && r.roomNumber != ""
    && Trimmed(r.roomNumber)
    && r.roomType in ROOM_TYPES
    && 1 <= r.capacity <= 10
    && r.pricePerNight >= 0
    && (forall i :: 0 <= i < |r.amenities| ==> r.amenities[i] in AMENITIES)
    && r.status in ROOM_STATUSES
    && r.floor >= 1
  }

  /** The unique index on roomNumber. */
  predicate UniqueRoomNumbers(rooms: map<Id, Room>) {
    forall a, b :: a in rooms && b in rooms && a != b ==> rooms[a].roomNumber != rooms[b].roomNumber
  }

  /** Whether another room than `except` already uses `number`. */
  predicate RoomNumberTaken(rooms: map<Id, Room>, number: string, except: Option<Id>) {
    exists k :: k in rooms && Some(k) != except && rooms[k].roomNumber == number
  }

  /** Adding a room whose number nobody uses keeps the numbers unique. */
  lemma InsertKeepsRoomNumbersUnique(rooms: map<Id, Room>, id: Id, r: Room)
    requires UniqueRoomNumbers(rooms)
    requires !RoomNumberTaken(rooms, r.roomNumber, Some(id))
    ensures UniqueRoomNumbers(rooms[id := r])
  {
    var m := rooms[id := r];
    forall a, b | a in m && b in m && a != b
      ensures m[a].roomNumber != m[b].roomNumber
    {
      if a == id {
        assert !(b in rooms && Some(b) != Some(id) && rooms[b].roomNumber == r.roomNumber);
      } else if b == id {
        assert !(a in rooms && Some(a) != Some(id) && rooms[a].roomNumber == r.roomNumber);
      }
    }
  }
}
