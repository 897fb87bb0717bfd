/** The catalogue entities of the standalone tree: Room
    (src/main/java/travelfinder/model/Room.java) and Accommodation
    (src/main/java/travelfinder/model/Accommodation.java). They refer to each
    other, so they share a module. Their list fields are sequences the
    helper methods extend in place; double arithmetic is taken as exact. */
module Lodging {
  import opened Common
  import Bookings
  import Reviews

  /** src/main/java/travelfinder/model/Amenity.java holds data only. */
  datatype Amenity = Amenity(amenityId: int, name: string, icon: Option<string>, category: string,
                             isPremium: bool, details: Option<string>)

  class Room {
    var roomId: int
    var accommodationId: int
    var roomName: string
    var description: Option<string>
    var capacity: int
    var priceModifier: real
    var roomSize: Option<int>
    var bedType: Option<string>
    var isAvailable: bool
    var accommodation: Accommodation?
    var bookings: seq<Bookings.Booking>
    var mediaUrls: seq<string>

    /** The five-argument constructor: the capacity is stored unchecked and the
        room starts available, detached, with no bookings or media. */
    constructor (roomId: int, accommodationId: int, roomName: string, capacity: int, priceModifier: real)
      ensures this.roomId == roomId && this.accommodationId == accommodationId && this.roomName == roomName
      ensures this.capacity == capacity && this.priceModifier == priceModifier
      ensures isAvailable && accommodation == null && bookings == [] && mediaUrls == []
      ensures description == None && roomSize == None && bedType == None
    {
      this.roomId, this.accommodationId, this.roomName := roomId, accommodationId, roomName;
      this.capacity, this.priceModifier := capacity, priceModifier;
      description, roomSize, bedType := None, None, None;
      isAvailable, accommodation, bookings, mediaUrls := true, null, [], [];
    }

    /** The eight-argument constructor: as above, with description, size and
        bed type. */
    constructor Detailed(roomId: int, accommodationId: int, roomName: string, description: Option<string>,
                         capacity: int, priceModifier: real, roomSize: Option<int>, bedType: Option<string>)
      ensures this.roomId == roomId && this.accommodationId == accommodationId && this.roomName == roomName
      ensures this.description == description && this.roomSize == roomSize && this.bedType == bedType
      ensures this.capacity == capacity && this.priceModifier == priceModifier
      ensures isAvailable && accommodation == null && bookings == [] && mediaUrls == []
    {
      this.roomId, this.accommodationId, this.roomName := roomId, accommodationId, roomName;
      this.description, this.roomSize, this.bedType := description, roomSize, bedType;
      this.capacity, this.priceModifier := capacity, priceModifier;
      isAvailable, accommodation, bookings, mediaUrls := true, null, [], [];
    }

    /** `setCapacity`: a capacity of zero or less raises
        IllegalArgumentException (`ok` false) and the stored one stays. */
    method SetCapacity(value: int) returns (ok: bool)
      modifies this`capacity
      ensures ok <==> value > 0
      ensures capacity == if ok then value else old(capacity)
    {
      if value <= 0 {
        return false;
      }
      capacity := value;
      return true;
    }

    method SetAccommodation(a: Accommodation?)
      modifies this`accommodation
      ensures accommodation == a
    {
      accommodation := a;
    }

    /** `addBooking` */
    method AddBooking(b: Bookings.Booking)
      modifies this`bookings
      ensures bookings == old(bookings) + [b]
    {
      bookings := bookings + [b];
    }

    /** `addMediaUrl` */
    method AddMediaUrl(url: string)
      modifies this`mediaUrls
      ensures mediaUrls == old(mediaUrls) + [url]
    {
      mediaUrls := mediaUrls + [url];
    }

    /** `calculatePrice`: the attached accommodation's base price scaled by the
        modifier, 0 for a detached room. */
    function CalculatePrice(): (r: real)
      reads this, accommodation
      ensures accommodation == null ==> r == 0.0
      ensures accommodation != null ==> r == accommodation.basePrice * priceModifier
    {
      if accommodation != null then accommodation.basePrice * priceModifier else 0.0
    }
  }

  /** A room priced with the unit modifier costs the base price; a modifier
      above one never makes a non-negative base cheaper; and a detached room
      is free whatever its modifier. */
  lemma CalculatePriceScales(room: Room)
    ensures room.accommodation != null && room.priceModifier == 1.0 ==>
              room.CalculatePrice() == room.accommodation.basePrice
    ensures room.accommodation != null && room.priceModifier >= 1.0 && room.accommodation.basePrice >= 0.0 ==>
              room.CalculatePrice() >= room.accommodation.basePrice
    ensures room.accommodation == null ==> room.CalculatePrice() == 0.0
  {
    if room.accommodation != null && room.priceModifier >= 1.0 && room.accommodation.basePrice >= 0.0 {
      var b := room.accommodation.basePrice;
      assert b * room.priceModifier - b == b * (room.priceModifier - 1.0);
    }
  }

  class Accommodation {
    var accommodationId: int
    var name: string
    var typeId: int
    var description: Option<string>
    var locationId: int
    var address: Option<string>
    var starRating: real
    var basePrice: real
    var isActive: bool
    var rooms: seq<Room>
    var amenities: seq<Amenity>
    var reviews: seq<Reviews.Review>

    /** The eight-argument constructor: active, with no rooms, amenities or
        reviews yet. */
    constructor (accommodationId: int, name: string, typeId: int, description: Option<string>,
                 locationId: int, address: Option<string>, starRating: real, basePrice: real)
      ensures this.accommodationId == accommodationId && this.name == name && this.typeId == typeId
      ensures this.description == description && this.locationId == locationId && this.address == address
      ensures this.starRating == starRating && this.basePrice == basePrice
      ensures isActive && rooms == [] && amenities == [] && reviews == []
    {
      this.accommodationId, this.name, this.typeId := accommodationId, name, typeId;
      this.description, this.locationId, this.address := description, locationId, address;
      this.starRating, this.basePrice := starRating, basePrice;
      isActive, rooms, amenities, reviews := true, [], [], [];
    }

    /** `addRoom`: appended even when the room is already listed. */
    method AddRoom(room: Room)
      modifies this`rooms
      ensures rooms == old(rooms) + [room]
    {
      rooms := rooms + [room];
    }

    /** `addAmenity`: appended even when the amenity is already listed. */
    method AddAmenity(amenity: Amenity)
      modifies this`amenities
      ensures amenities == old(amenities) + [amenity]
    {
      amenities := amenities + [amenity];
    }

    /** `addReview` */
    method AddReview(review: Reviews.Review)
      modifies this`reviews
      ensures reviews == old(reviews) + [review]
    {
      reviews := reviews + [review];
    }

    /** The value `getAverageRating` returns: 0 without reviews, otherwise
        the sum of the ratings divided by their number. */
    function AverageRating(): real
      reads this, reviews
    {
      if reviews == [] then 0.0 else (RatingSum(reviews) as real) / (|reviews| as real)
    }

    /** `getAverageRating`: adds the ratings up in a loop, then divides. */
    method GetAverageRating() returns (avg: real)
      ensures avg == AverageRating()
    {
      if |reviews| == 0 {
        return 0.0;
      }
      var sum := 0.0;
      var i := 0;
      while i < |reviews|
        invariant 0 <= i <= |reviews|
        invariant sum == RatingSum(reviews[..i]) as real
      {
        assert reviews[..i + 1][..i] == reviews[..i];
        sum := sum + reviews[i].rating as real;
        i := i + 1;
      }
      assert reviews[..i] == reviews;
      avg := sum / (|reviews| as real);
    }
  }

  /** The ratings of the reviews, added up. */
  function RatingSum(rs: seq<Reviews.Review>): int
    reads rs
  {
    if rs == [] then 0 else RatingSum(rs[..|rs| - 1]) + rs[|rs| - 1].rating
  }

  /** When every rating lies in [lo, hi], so does their sum scaled down by
      the count. */
  lemma {:induction false} RatingSumBounds(rs: seq<Reviews.Review>, lo: int, hi: int)
    requires forall i :: 0 <= i < |rs| ==> lo <= rs[i].rating <= hi
    ensures lo * |rs| <= RatingSum(rs) <= hi * |rs|
  {
    if rs != [] {
      RatingSumBounds(rs[..|rs| - 1], lo, hi);
    }
  }

  /** The average of a non-empty review list lies between the lowest and
      the highest rating; with validated ratings it lies in [1, 5]. */
  lemma AverageWithinRatings(a: Accommodation, lo: int, hi: int)
    requires a.reviews != []
    requires forall i :: 0 <= i < |a.reviews| ==> lo <= a.reviews[i].rating <= hi
    ensures lo as real <= a.AverageRating() <= hi as real
  {
    var n := |a.reviews|;
    RatingSumBounds(a.reviews, lo, hi);
    var s := RatingSum(a.reviews);
    assert (lo as real) * (n as real) <= s as real <= (hi as real) * (n as real);
    QuotientBounds(lo as real, s as real, hi as real, n as real);
  }

  lemma QuotientBounds(lo: real, s: real, hi: real, n: real)
    requires n > 0.0 && lo * n <= s <= hi * n
    ensures lo <= s / n <= hi
  {
    assert s / n * n == s;
  }

  /** An accommodation without reviews averages 0; one whose reviews all
      carry the same rating averages exactly that rating. */
  lemma AverageOfUniformRatings(a: Accommodation, r: int)
    requires forall i :: 0 <= i < |a.reviews| ==> a.reviews[i].rating == r
    ensures a.reviews == [] ==> a.AverageRating() == 0.0
    ensures a.reviews != [] ==> a.AverageRating() == r as real
  {
    if a.reviews != [] {
      AverageWithinRatings(a, r, r);
    }
  }
}
