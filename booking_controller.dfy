/** The standalone booking controller
    (src/main/java/travelfinder/controller/BookingController.java): the guest
    gate in front of the booking form, the guard sequence of `createBooking`,
    the mock price formula and the "BK" reference. `new Random()` draws are
    inputs of the stated range. */
module BookingController {
  import opened Common
  import Bookings

  /** What `startBookingProcess` does. */
  datatype StartOutcome = LoginRequired | NoView | FormShown(accommodationId: int, roomId: int)

  class BookingController {
    var currentUser: Option<string>
    var hasBookingView: bool

    constructor ()
      ensures currentUser == None && !hasBookingView
    {
      currentUser, hasBookingView := None, false;
    }

    method SetBookingView()
      modifies this`hasBookingView
      ensures hasBookingView
    {
      hasBookingView := true;
    }

    method SetCurrentUser(username: Option<string>)
      modifies this`currentUser
      ensures currentUser == username
    {
      currentUser := username;
    }

    /** `startBookingProcess`: the "Guest" user is sent to log in before the
        view is touched; otherwise the form opens when a view is attached. */
    method StartBookingProcess(accommodationId: int, roomId: int) returns (r: StartOutcome)
      ensures r == LoginRequired <==> currentUser == Some("Guest")
      ensures r == NoView <==> currentUser != Some("Guest") && !hasBookingView
      ensures r.FormShown? ==> r == FormShown(accommodationId, roomId)
    {
      if currentUser == Some("Guest") {
        return LoginRequired;
      }
      if !hasBookingView {
        return NoView;
      }
      return FormShown(accommodationId, roomId);
    }
  }

  /** The mock nightly price. */
  const NightlyRate: real := 149.99

  /** `calculateTotalPrice`: the nightly rate times the nights, raised by 20%
      for every guest beyond the first (double arithmetic taken as exact). */
  function CalculateTotalPrice(checkIn: int, checkOut: int, guests: int): real {
    NightlyRate * ((checkOut - checkIn) as real) * (1.0 + ((guests - 1) as real) * 0.2)
  }

  /** One guest pays the plain nightly rate per night, and over a stay of at
      least one night every extra guest strictly raises the total. */
  lemma TotalPriceByGuests(checkIn: int, checkOut: int, guests: int)
    ensures CalculateTotalPrice(checkIn, checkOut, 1) == NightlyRate * ((checkOut - checkIn) as real)
    ensures checkOut > checkIn ==>
              CalculateTotalPrice(checkIn, checkOut, guests + 1) > CalculateTotalPrice(checkIn, checkOut, guests)
    ensures checkOut > checkIn && guests >= 1 ==>
              CalculateTotalPrice(checkIn, checkOut, guests) >= NightlyRate * ((checkOut - checkIn) as real) > 0.0
  {
    var n := (checkOut - checkIn) as real;
    var f := (1.0 + ((guests - 1) as real) * 0.2);
    assert CalculateTotalPrice(checkIn, checkOut, guests + 1) == NightlyRate * n * (f + 0.2);
    if checkOut > checkIn {
      assert n >= 1.0;
      assert NightlyRate * n > 0.0;
      assert NightlyRate * n * (f + 0.2) == NightlyRate * n * f + NightlyRate * n * 0.2;
      if guests >= 1 {
        assert f >= 1.0;
        assert NightlyRate * n * f >= NightlyRate * n * 1.0;
      }
    }
  }

  /** `generateBookingReference`: "BK" and 10000 plus a draw below 90000. */
  function BookingReference(draw: int): (r: string)
    requires 0 <= draw < 90000
    ensures |r| == 7 && r[..2] == "BK"
    ensures forall i :: 2 <= i < 7 ==> IsDigit(r[i])
    ensures 10000 <= ParseDigits(r[2..]) <= 99999 && ParseDigits(r[2..]) == 10000 + draw
  {
    assert Pow10(4) == 10000 && Pow10(5) == 100000;
    NatToStringLength(10000 + draw, 5);
    NatToStringRoundTrip(10000 + draw);
    var r := "BK" + NatToString(10000 + draw);
    assert r[2..] == NatToString(10000 + draw);
    r
  }

  /** Different draws give different references. */
  lemma BookingReferenceInjective(d1: int, d2: int)
    requires 0 <= d1 < 90000 && 0 <= d2 < 90000 && d1 != d2
    ensures BookingReference(d1) != BookingReference(d2)
  {
  }

  datatype CreateOutcome = InvalidDates | InvalidGuests | Created(booking: Bookings.Booking)

  /** `createBooking`: check-in must be strictly before check-out, then at
      least one guest; availability is a constant true in the source. The new
      booking is Confirmed, belongs to user 1 and carries the requests given.
      `bookingIdDraw` and `referenceDraw` are the two `Random.nextInt` results. */
  function CreateBooking(accommodationId: int, roomId: int, checkIn: int, checkOut: int, guests: int,
                         specialRequests: Option<string>, bookingIdDraw: int, referenceDraw: int): (r: CreateOutcome)
    requires 0 <= bookingIdDraw < 1000 && 0 <= referenceDraw < 90000
    ensures checkIn >= checkOut <==> r == InvalidDates
    ensures r == InvalidGuests <==> checkIn < checkOut && guests <= 0
    ensures r.Created? <==> checkIn < checkOut && guests >= 1
    ensures r.Created? ==>
      var b := r.booking;
      && b.bookingId == bookingIdDraw && b.userId == 1
      && b.accommodationId == accommodationId && b.roomId == Some(roomId)
      && b.referenceNumber == BookingReference(referenceDraw)
      && b.checkInDate == checkIn && b.checkOutDate == checkOut && b.numGuests == guests
      && b.statusId == Bookings.Confirmed && b.statusName == Some("Confirmed")
      && b.totalPrice == Some(CalculateTotalPrice(checkIn, checkOut, guests))
      && b.specialRequests == specialRequests
  {
    if checkIn > checkOut || checkIn == checkOut then InvalidDates
    else if guests <= 0 then InvalidGuests
    else
      var b := Bookings.NewBooking(1, accommodationId, Some(roomId), BookingReference(referenceDraw),
                                   checkIn, checkOut, guests, Bookings.Confirmed,
                                   Some(CalculateTotalPrice(checkIn, checkOut, guests)));
      Created(b.(bookingId := bookingIdDraw, specialRequests := specialRequests, statusName := Some("Confirmed")))
  }

  /** Every booking `createBooking` produces spans at least one night, is
      priced at no less than the one-guest rate for that stay, and has a
      seven-character reference. */
  lemma CreatedBookingIsWellFormed(accommodationId: int, roomId: int, checkIn: int, checkOut: int, guests: int,
                                   specialRequests: Option<string>, bookingIdDraw: int, referenceDraw: int)
    requires 0 <= bookingIdDraw < 1000 && 0 <= referenceDraw < 90000
    requires CreateBooking(accommodationId, roomId, checkIn, checkOut, guests, specialRequests,
                           bookingIdDraw, referenceDraw).Created?
    ensures var b := CreateBooking(accommodationId, roomId, checkIn, checkOut, guests, specialRequests,
                                   bookingIdDraw, referenceDraw).booking;
            && b.checkOutDate - b.checkInDate >= 1
            && b.totalPrice.Some? && b.totalPrice.value >= NightlyRate * ((b.checkOutDate - b.checkInDate) as real) > 0.0
            && |b.referenceNumber| == 7
  {
    TotalPriceByGuests(checkIn, checkOut, guests);
  }
}
