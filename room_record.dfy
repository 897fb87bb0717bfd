/** The DAO-backed tree's catalogue records: src/model/Accommodation.java (getters
    and setters only) and src/model/Room.java, whose helpers are conditional
    expressions over the record's fields. BigDecimal is a real; a nullable field
    is an Option. */
module RoomRecord {
  import opened Common

  /** src/model/Accommodation.java, reduced to the fields the controllers read. */
  datatype Accommodation = Accommodation(
    accommodationId: int,
    name: string,
    typeId: int,
    starRating: real,
    basePrice: real,
    isActive: bool
  )

  datatype Room = Room(
    roomId: int,
    accommodationId: int,
    roomName: string,
    description: Option<string>,
    capacity: int,
    priceModifier: Option<real>,
    roomSize: Option<int>,
    bedType: Option<string>,
    features: Option<string>,
    isAvailable: bool
  )

  /** The five-argument constructor: marks the room available and takes the
      capacity as given. */
  function NewRoom(roomId: int, accommodationId: int, roomName: string, capacity: int,
                   priceModifier: Option<real>): (r: Room)
    ensures r.isAvailable
    ensures r.roomId == roomId && r.accommodationId == accommodationId && r.roomName == roomName
    ensures r.capacity == capacity && r.priceModifier == priceModifier
    ensures r.roomSize == None && r.bedType == None && r.description == None
  {
    Room(roomId, accommodationId, roomName, None, capacity, priceModifier, None, None, None, true)
  }

  /** `setCapacity`: an unchecked field write; non-positive values are stored too. */
  function SetCapacity(room: Room, capacity: int): (r: Room)
    ensures r.capacity == capacity
    ensures r.(capacity := room.capacity) == room
  {
    room.(capacity := capacity)
  }

  /** `getCapacityDescription` */
  function CapacityDescription(room: Room): string {
    if room.capacity == 1 then "Sleeps 1 person"
    else "Sleeps " + IntToString(room.capacity) + " people"
  }

  /** The description names the capacity it was built from: the singular form
      for exactly one, otherwise "Sleeps ", the number and " people", and for a
      non-negative capacity the number reads back as the capacity. */
  lemma CapacityDescriptionReadsBack(room: Room)
    ensures room.capacity == 1 <==> CapacityDescription(room) == "Sleeps 1 person"
    ensures room.capacity != 1 ==>
      var d := CapacityDescription(room);
      var n := IntToString(room.capacity);
      |d| == 7 + |n| + 7 && d[..7] == "Sleeps " && d[7..7 + |n|] == n && d[7 + |n|..] == " people"
    ensures room.capacity >= 0 && room.capacity != 1 ==>
      var d := CapacityDescription(room);
      ParseDigits(d[7..|d| - 7]) == room.capacity
  {
    var d := CapacityDescription(room);
    if room.capacity != 1 {
      var n := IntToString(room.capacity);
      assert d == "Sleeps " + n + " people";
      assert d[7..|d| - 7] == n;
      if room.capacity >= 0 {
        NatToStringRoundTrip(room.capacity);
      }
    } else {
      assert d == "Sleeps 1 person";
    }
  }

  /** `getRoomSizeFormatted` */
  function RoomSizeFormatted(room: Room): (r: string)
    ensures room.roomSize.None? ==> r == "Size not specified"
    ensures room.roomSize.Some? ==>
      |r| > 5 && r[|r| - 5..] == " sq m" && r[..|r| - 5] == IntToString(room.roomSize.value)
  {
    if room.roomSize.None? then "Size not specified"
    else IntToString(room.roomSize.value) + " sq m"
  }

  /** `calculatePrice(BigDecimal)`: zero when the base price or the modifier is
      null, otherwise their exact product. */
  function CalculatePrice(room: Room, basePrice: Option<real>): (r: real)
    ensures basePrice.None? || room.priceModifier.None? ==> r == 0.0
    ensures basePrice.Some? && room.priceModifier.Some? ==> r == basePrice.value * room.priceModifier.value
  {
    if basePrice.None? || room.priceModifier.None? then 0.0
    else basePrice.value * room.priceModifier.value
  }

  /** A unit modifier returns the base price unchanged, and a non-negative
      modifier never makes a non-negative price negative. */
  lemma CalculatePriceScales(room: Room, basePrice: real)
    requires room.priceModifier.Some?
    ensures room.priceModifier.value == 1.0 ==> CalculatePrice(room, Some(basePrice)) == basePrice
    ensures room.priceModifier.value >= 0.0 && basePrice >= 0.0 ==> CalculatePrice(room, Some(basePrice)) >= 0.0
    ensures room.priceModifier.value >= 1.0 && basePrice >= 0.0 ==> CalculatePrice(room, Some(basePrice)) >= basePrice
  {
  }
}
