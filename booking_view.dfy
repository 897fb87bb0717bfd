/** The checkout screen's own logic (src/view/BookingView.java): the booking
    summary it stores, the form validator and the gate in front of the
    "Complete Booking" handler. Text-field contents are parameters. */
module BookingView {
  import opened Common

  /** What the "Complete Booking" handler receives. */
  datatype BookingDetails = BookingDetails(
    firstName: string,
    lastName: string,
    email: string,
    phone: string,
    specialRequests: string,
    paymentMethod: string,
    termsAccepted: bool,
    totalPrice: Option<real>
  )

  /** Result of `validateForm`: valid, invalid with the alert shown, or the
      ClassCastException raised while looking up the card-number field (the
      card form's second child is a TextField, not the VBox the code casts to). */
  datatype FormResult = FormValid | FormInvalid(message: string) | CardFieldCastFailure

  /** `validateForm`. First name, last name and email are checked in that
      order; the credit-card branch fails before reading any card field; the
      terms box is checked last. Phone and special requests are never read. */
  function ValidateForm(firstName: string, lastName: string, email: string,
                        paymentMethod: string, termsAccepted: bool): (r: FormResult)
    ensures r == FormValid <==>
              !IsBlank(firstName) && !IsBlank(lastName) && !IsBlank(email)
              && paymentMethod != "Credit Card" && termsAccepted
    ensures IsBlank(firstName) ==> r == FormInvalid("Please enter your first name")
    ensures !IsBlank(firstName) && IsBlank(lastName) ==> r == FormInvalid("Please enter your last name")
    ensures (!IsBlank(firstName) && !IsBlank(lastName) && IsBlank(email)) ==>
              r == FormInvalid("Please enter your email address")
    ensures r == CardFieldCastFailure <==>
              !IsBlank(firstName) && !IsBlank(lastName) && !IsBlank(email) && paymentMethod == "Credit Card"
    ensures (!IsBlank(firstName) && !IsBlank(lastName) && !IsBlank(email)
             && paymentMethod != "Credit Card" && !termsAccepted) ==>
              r == FormInvalid("Please agree to the terms and conditions")
  {
    if IsBlank(firstName) then FormInvalid("Please enter your first name")
    else if IsBlank(lastName) then FormInvalid("Please enter your last name")
    else if IsBlank(email) then FormInvalid("Please enter your email address")
    else if paymentMethod == "Credit Card" then CardFieldCastFailure
    else if !termsAccepted then FormInvalid("Please agree to the terms and conditions")
    else FormValid
  }

  class BookingView {
    // The summary `setupBookingForm` stores; null until it is called.
    var accommodationName: Option<string>
    var checkInDate: Option<int>
    var checkOutDate: Option<int>
    var guests: int
    var nights: int
    var basePrice: Option<real>
    var totalBeforeTax: Option<real>
    var tax: Option<real>
    var totalPrice: Option<real>
    // Whether a "Complete Booking" handler has been registered.
    var hasCompleteHandler: bool

    constructor ()
      ensures accommodationName == None && checkInDate == None && checkOutDate == None
      ensures guests == 0 && nights == 0
      ensures basePrice == None && totalBeforeTax == None && tax == None && totalPrice == None
      ensures !hasCompleteHandler
    {
      accommodationName, checkInDate, checkOutDate := None, None, None;
      guests, nights := 0, 0;
      basePrice, totalBeforeTax, tax, totalPrice := None, None, None, None;
      hasCompleteHandler := false;
    }

    method SetOnCompleteBookingClicked()
      modifies this`hasCompleteHandler
      ensures hasCompleteHandler
    {
      hasCompleteHandler := true;
    }

    /** `setupBookingForm`: stores all nine arguments unchanged. */
    method SetupBookingForm(name: string, checkIn: int, checkOut: int, guestCount: int, nightCount: int,
                            perNight: real, beforeTax: real, taxAmount: real, total: real)
      modifies this
      ensures accommodationName == Some(name) && checkInDate == Some(checkIn) && checkOutDate == Some(checkOut)
      ensures guests == guestCount && nights == nightCount
      ensures basePrice == Some(perNight) && totalBeforeTax == Some(beforeTax)
      ensures tax == Some(taxAmount) && totalPrice == Some(total)
      ensures hasCompleteHandler == old(hasCompleteHandler)
    {
      accommodationName, checkInDate, checkOutDate := Some(name), Some(checkIn), Some(checkOut);
      guests, nights := guestCount, nightCount;
      basePrice, totalBeforeTax, tax, totalPrice := Some(perNight), Some(beforeTax), Some(taxAmount), Some(total);
    }

    /** The "Complete Booking" button: details reach the handler only when the
      form validates and a handler is registered; they carry the field texts
      as typed and the total the summary stored. */
    method CompleteBookingClicked(firstName: string, lastName: string, email: string, phone: string,
                                  specialRequests: string, paymentMethod: string, termsAccepted: bool)
      returns (sent: Option<BookingDetails>)
      ensures sent.Some? <==> hasCompleteHandler && ValidateForm(firstName, lastName, email, paymentMethod, termsAccepted) == FormValid
      ensures sent.Some? ==> sent.value == BookingDetails(firstName, lastName, email, phone, specialRequests,
                                                           paymentMethod, termsAccepted, totalPrice)
      ensures sent.Some? ==> sent.value.termsAccepted && sent.value.paymentMethod != "Credit Card"
    {
      if ValidateForm(firstName, lastName, email, paymentMethod, termsAccepted) == FormValid && hasCompleteHandler {
        sent := Some(BookingDetails(firstName, lastName, email, phone, specialRequests,
                                    paymentMethod, termsAccepted, totalPrice));
      } else {
        sent := None;
      }
    }
  }
}
