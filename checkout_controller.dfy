/** The DAO-backed booking controller (src/controller/BookingController.java):
    `startBookingProcess` stores the selection and prices the stay, and
    `processBooking` turns the submitted form into a saved booking. The user
    lookup, the UUID and the DAO's save result are inputs. */
module CheckoutController {
  import opened Common
  import opened RoomRecord
  import Bookings
  import BookingView

  /** The figures `startBookingProcess` hands to the screen. */
  datatype PriceBreakdown = PriceBreakdown(nights: int, perNight: real, subtotal: real, tax: real, total: real)

  /** The tax rate, `BigDecimal.valueOf(0.12)`, which is exactly 0.12. */
  const TaxRate: real := 0.12

  /** The price calculation of `startBookingProcess`: the number of days from
      check-in to check-out (never checked to be positive), the base price
      scaled by the room's modifier when a room is chosen, and 12% tax on top. */
  function Breakdown(basePrice: real, modifier: Option<real>, checkIn: int, checkOut: int): (b: PriceBreakdown)
    ensures b.nights == checkOut - checkIn
    ensures modifier.None? ==> b.perNight == basePrice
    ensures modifier.Some? ==> b.perNight == basePrice * modifier.value
    ensures b.subtotal == b.perNight * (b.nights as real)
    ensures b.tax == TaxRate * b.subtotal
    ensures b.total == b.subtotal + b.tax
  {
    var nights := checkOut - checkIn;
    var perNight := if modifier.Some? then basePrice * modifier.value else basePrice;
    var subtotal := perNight * (nights as real);
    var tax := subtotal * TaxRate;
    PriceBreakdown(nights, perNight, subtotal, tax, subtotal + tax)
  }

  /** The total is 112% of the subtotal, and for a non-negative nightly price
      over a non-empty stay it is at least the subtotal; a reversed date range
      is priced too, as a negative amount. */
  lemma BreakdownTotals(basePrice: real, modifier: Option<real>, checkIn: int, checkOut: int)
    ensures Breakdown(basePrice, modifier, checkIn, checkOut).total == 1.12 * Breakdown(basePrice, modifier, checkIn, checkOut).subtotal
    ensures var b := Breakdown(basePrice, modifier, checkIn, checkOut);
            b.perNight >= 0.0 && checkOut >= checkIn ==> b.total >= b.subtotal >= 0.0
    ensures var b := Breakdown(basePrice, modifier, checkIn, checkOut);
            b.perNight > 0.0 && checkOut < checkIn ==> b.total < 0.0
  {
    var b := Breakdown(basePrice, modifier, checkIn, checkOut);
    if b.perNight > 0.0 && checkOut < checkIn {
      assert b.subtotal < 0.0 by {
        assert (b.nights as real) < 0.0;
      }
    }
    if b.perNight >= 0.0 && checkOut >= checkIn {
      assert b.subtotal >= 0.0 by {
        assert (b.nights as real) >= 0.0;
      }
    }
  }

  /** A base price of 150.00 with a 1.2 modifier over three nights costs 180.00
      a night, 540.00 before tax, 64.80 tax, 604.80 in all. */
  lemma WorkedExample()
    ensures Breakdown(150.0, Some(1.2), 0, 3) == PriceBreakdown(3, 180.0, 540.0, 64.8, 604.8)
  {
  }

  /** `generateReferenceNumber`: "BOOK" and the first eight characters of a
      random UUID in upper case. */
  function ReferenceNumber(uuid: string): (r: string)
    requires |uuid| >= 8
    ensures |r| == 12 && r[..4] == "BOOK"
    ensures forall i :: 4 <= i < 12 ==> r[i] == UpperChar(uuid[i - 4]) && !('a' <= r[i] <= 'z')
  {
    "BOOK" + ToUpper(uuid[..8])
  }

  /** What one press of "Complete Booking" leads to. */
  datatype CheckoutOutcome =
    | TermsNotAccepted                         // alert, nothing built
    | UserNotFound                             // alert, nothing built
    | ProcessingError                          // exception caught: no accommodation was selected
    | SaveFailed(booking: Bookings.Booking)    // built, DAO refused it
    | Saved(booking: Bookings.Booking, completionNotified: bool)

  class CheckoutController {
    var view: BookingView.BookingView
    var selectedAccommodation: Option<Accommodation>
    var selectedRoom: Option<Room>
    var currentUser: Option<string>
    var checkInDate: Option<int>
    var checkOutDate: Option<int>
    var numGuests: int
    // Whether an `onBookingComplete` callback is registered.
    var hasCompletionHandler: bool

    /** The selection fields are assigned together. */
    predicate Valid()
      reads this
    {
      selectedAccommodation.Some? ==> checkInDate.Some? && checkOutDate.Some?
    }

    /** Wires the view's "Complete Booking" button to `processBooking`. */
    constructor (view: BookingView.BookingView)
      modifies view
      ensures Valid() && this.view == view && view.hasCompleteHandler
      ensures selectedAccommodation == None && selectedRoom == None && currentUser == None
      ensures !hasCompletionHandler
    {
      this.view := view;
      selectedAccommodation, selectedRoom, currentUser := None, None, None;
      checkInDate, checkOutDate, numGuests := None, None, 0;
      hasCompletionHandler := false;
      new;
      view.SetOnCompleteBookingClicked();
    }

    method SetOnBookingComplete()
      modifies this`hasCompletionHandler
      ensures hasCompletionHandler
    {
      hasCompletionHandler := true;
    }

    /** `startBookingProcess`: remembers the selection, prices the stay and
        fills the screen's summary with those figures. A chosen room must carry
        a modifier: a null one makes the BigDecimal multiplication throw. */
    method StartBookingProcess(accommodation: Accommodation, room: Option<Room>, username: string,
                               checkIn: int, checkOut: int, guests: int)
      returns (b: PriceBreakdown)
      requires room.Some? ==> room.value.priceModifier.Some?
      modifies this, view
      ensures Valid() && view == old(view)
      ensures selectedAccommodation == Some(accommodation) && selectedRoom == room
      ensures currentUser == Some(username) && checkInDate == Some(checkIn) && checkOutDate == Some(checkOut)
      ensures numGuests == guests && hasCompletionHandler == old(hasCompletionHandler)
      ensures b == Breakdown(accommodation.basePrice,
                             if room.Some? then room.value.priceModifier else None, checkIn, checkOut)
      ensures view.accommodationName == Some(if room.Some? then accommodation.name + " - " + room.value.roomName
                                             else accommodation.name)
      ensures view.nights == b.nights && view.guests == guests
      ensures view.basePrice == Some(b.perNight) && view.totalBeforeTax == Some(b.subtotal)
      ensures view.tax == Some(b.tax) && view.totalPrice == Some(b.total)
      ensures view.hasCompleteHandler == old(view.hasCompleteHandler)
    {
      selectedAccommodation, selectedRoom, currentUser := Some(accommodation), room, Some(username);
      checkInDate, checkOutDate, numGuests := Some(checkIn), Some(checkOut), guests;
      var name := accommodation.name;
      if room.Some? {
        name := name + " - " + room.value.roomName;
      }
      b := Breakdown(accommodation.basePrice, if room.Some? then room.value.priceModifier else None, checkIn, checkOut);
      view.SetupBookingForm(name, checkIn, checkOut, guests, b.nights, b.perNight, b.subtotal, b.tax, b.total);
    }

    /** `processBooking`. `foundUserId` is what the user lookup for the current
        user returned, `uuid` the random UUID's text, `saveResult` what the
        DAO's save returned. */
    method ProcessBooking(details: BookingView.BookingDetails, foundUserId: Option<int>,
                          uuid: string, saveResult: bool)
      returns (outcome: CheckoutOutcome)
      requires Valid() && |uuid| >= 8
      ensures !details.termsAccepted ==> outcome == TermsNotAccepted
      ensures details.termsAccepted && foundUserId.None? ==> outcome == UserNotFound
      ensures (details.termsAccepted && foundUserId.Some? && selectedAccommodation.None?) ==>
                outcome == ProcessingError
      ensures outcome.SaveFailed? || outcome.Saved? <==>
                details.termsAccepted && foundUserId.Some? && selectedAccommodation.Some?
      ensures outcome.Saved? <==> (outcome.SaveFailed? || outcome.Saved?) && saveResult
      ensures outcome.Saved? ==> outcome.completionNotified == hasCompletionHandler
      ensures outcome.SaveFailed? || outcome.Saved? ==>
        var bk := outcome.booking;
        && bk.userId == foundUserId.value
        && bk.accommodationId == selectedAccommodation.value.accommodationId
        && bk.roomId == (if selectedRoom.Some? then Some(selectedRoom.value.roomId) else None)
        && bk.referenceNumber == ReferenceNumber(uuid)
        && bk.checkInDate == checkInDate.value && bk.checkOutDate == checkOutDate.value
        && bk.numGuests == numGuests
        && bk.statusId == Bookings.Confirmed
        && bk.totalPrice == details.totalPrice
        && bk.specialRequests == Some(details.specialRequests)
    {
      if !details.termsAccepted {
        return TermsNotAccepted;
      }
      if foundUserId.None? {
        return UserNotFound;
      }
      if selectedAccommodation.None? {
        return ProcessingError;
      }
      var booking := Bookings.NewBooking(
        foundUserId.value,
        selectedAccommodation.value.accommodationId,
        if selectedRoom.Some? then Some(selectedRoom.value.roomId) else None,
        ReferenceNumber(uuid),
        checkInDate.value,
        checkOutDate.value,
        numGuests,
        Bookings.Confirmed,
        details.totalPrice);
      booking := booking.(specialRequests := Some(details.specialRequests));
      if saveResult {
        outcome := Saved(booking, hasCompletionHandler);
      } else {
        outcome := SaveFailed(booking);
      }
    }
  }

  /** End to end, with the terms box ticked, the user found and the save
      accepted: a booking is produced exactly when the form validates, and it
      is saved carrying exactly the total the summary computed. */
  method CheckoutFlow(accommodation: Accommodation, room: Option<Room>, username: string,
                      checkIn: int, checkOut: int, guests: int,
                      firstName: string, lastName: string, email: string, paymentMethod: string,
                      foundUserId: int, uuid: string)
    returns (outcome: Option<CheckoutOutcome>)
    requires room.Some? ==> room.value.priceModifier.Some?
    requires |uuid| >= 8
    ensures outcome.Some? <==>
              BookingView.ValidateForm(firstName, lastName, email, paymentMethod, true) == BookingView.FormValid
    ensures outcome.Some? ==> outcome.value.Saved?
    ensures outcome.Some? ==>
              outcome.value.booking.totalPrice ==
              Some(Breakdown(accommodation.basePrice, if room.Some? then room.value.priceModifier else None,
                             checkIn, checkOut).total)
  {
    var view := new BookingView.BookingView();
    var controller := new CheckoutController(view);
    var b := controller.StartBookingProcess(accommodation, room, username, checkIn, checkOut, guests);
    var sent := view.CompleteBookingClicked(firstName, lastName, email, "", "", paymentMethod, true);
    if sent.None? {
      return None;
    }
    var result := controller.ProcessBooking(sent.value, Some(foundUserId), uuid, true);
    return Some(result);
  }
}
