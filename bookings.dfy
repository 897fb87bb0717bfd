/** The booking record (src/main/java/travelfinder/model/Booking.java): a plain
    value with getters and setters, so it is a datatype here. Dates are epoch
    days, timestamps are opaque instants, BigDecimal and double prices are reals. */
module Bookings {
  import opened Common

  /** Status ids used throughout the application. */
  const Pending := 1
  const Confirmed := 2
  const Completed := 3
  const Cancelled := 4
  const NoShow := 5

  datatype Booking = Booking(
    bookingId: int,
    userId: int,
    accommodationId: int,
    roomId: Option<int>,
    referenceNumber: string,
    checkInDate: int,
    checkOutDate: int,
    numGuests: int,
    statusId: int,
    totalPrice: Option<real>,
    specialRequests: Option<string>,
    bookingExtras: Option<string>,
    createdAt: Option<int>,
    modifiedAt: Option<int>,
    modifiedByUserId: Option<int>,
    bookingHistory: Option<string>,
    // Set by the standalone controller through `setStatusName`, a setter
    // Booking.java does not declare; null everywhere else.
    statusName: Option<string>
  )

  /** The nine-argument constructor: the given fields, a zero id, every
      other field null. */
  function NewBooking(userId: int, accommodationId: int, roomId: Option<int>,
                      referenceNumber: string, checkIn: int, checkOut: int,
                      numGuests: int, statusId: int, totalPrice: Option<real>): (b: Booking)
    ensures b.userId == userId && b.accommodationId == accommodationId && b.roomId == roomId
    ensures b.referenceNumber == referenceNumber
    ensures b.checkInDate == checkIn && b.checkOutDate == checkOut
    ensures b.numGuests == numGuests && b.statusId == statusId && b.totalPrice == totalPrice
    ensures b.bookingId == 0 && b.specialRequests == None && b.statusName == None
    ensures b.createdAt == None && b.modifiedAt == None && b.modifiedByUserId == None
    ensures b.bookingExtras == None && b.bookingHistory == None
  {
    Booking(0, userId, accommodationId, roomId, referenceNumber, checkIn, checkOut,
            numGuests, statusId, totalPrice, None, None, None, None, None, None, None)
  }
}
