/** The rules embedded in the profile screen (src/view/UserProfileView.java):
    status labels and colours, the change-password validator and the actions a
    booking card offers. Widget reads are parameters. */
module UserProfileView {
  import opened Common
  import Bookings

  /** `getStatusText` */
  function StatusText(statusId: int): (r: string)
    ensures statusId == 1 <==> r == "Pending"
    ensures statusId == 2 <==> r == "Confirmed"
    ensures statusId == 3 <==> r == "Completed"
    ensures statusId == 4 <==> r == "Cancelled"
    ensures statusId == 5 <==> r == "No-Show"
    ensures !(1 <= statusId <= 5) <==> r == "Unknown"
  {
    match statusId
    case 1 => "Pending"
    case 2 => "Confirmed"
    case 3 => "Completed"
    case 4 => "Cancelled"
    case 5 => "No-Show"
    case _ => "Unknown"
  }

  const BaseStyle := "-fx-text-fill: white; -fx-padding: 2 5 2 5; -fx-background-radius: 3;"

  /** The badge colour of a status; dark gray for an unknown id. */
  function StatusColour(statusId: int): string {
    match statusId
    case 1 => "#f39c12"
    case 2 => "#2ecc71"
    case 3 => "#3498db"
    case 4 => "#e74c3c"
    case 5 => "#95a5a6"
    case _ => "#7f8c8d"
  }

  /** `getStatusStyle`: a background colour followed by the shared base style. */
  function StatusStyle(statusId: int): (r: string)
    ensures |r| > |BaseStyle| && r[|r| - |BaseStyle|..] == BaseStyle
    ensures r[..|r| - |BaseStyle|] == "-fx-background-color: " + StatusColour(statusId) + "; "
  {
    "-fx-background-color: " + StatusColour(statusId) + "; " + BaseStyle
  }

  /** Distinct known statuses get distinct styles, and none of them looks like
      the style of an unknown id. */
  lemma StatusStylesDistinct(a: int, b: int)
    requires 1 <= a <= 5 && a != b
    ensures StatusStyle(a) != StatusStyle(b)
  {
    var p := "-fx-background-color: ";
    var ca, cb := StatusColour(a), StatusColour(b);
    assert |ca| == 7 && |cb| == 7 && ca != cb;
    assert StatusStyle(a)[|p|..|p| + 7] == ca by {
      assert StatusStyle(a) == p + ca + ("; " + BaseStyle);
    }
    assert StatusStyle(b)[|p|..|p| + 7] == cb by {
      assert StatusStyle(b) == p + cb + ("; " + BaseStyle);
    }
  }

  /** `validatePasswordFields`: the current password and the new one must be
      non-blank after trimming, then the new one must equal the confirmation
      exactly (untrimmed). The first failing check decides the message. */
  function ValidatePasswordFields(current: string, newPassword: string, confirm: string): (r: Check)
    ensures r == Valid <==> !IsBlank(current) && !IsBlank(newPassword) && newPassword == confirm
    ensures IsBlank(current) ==> r == Invalid("Please enter your current password")
    ensures !IsBlank(current) && IsBlank(newPassword) ==> r == Invalid("Please enter a new password")
    ensures (!IsBlank(current) && !IsBlank(newPassword) && newPassword != confirm) ==>
              r == Invalid("New password and confirmation do not match")
  {
    if IsBlank(current) then Invalid("Please enter your current password")
    else if IsBlank(newPassword) then Invalid("Please enter a new password")
    else if newPassword != confirm then Invalid("New password and confirmation do not match")
    else Valid
  }

  /** A password made only of spaces is refused even when the confirmation
      repeats it, while the comparison itself does not trim. */
  lemma PasswordChecksTrimOnlyForBlankness()
    ensures ValidatePasswordFields("old", "   ", "   ") == Invalid("Please enter a new password")
    ensures ValidatePasswordFields("old", "new", "new ") == Invalid("New password and confirmation do not match")
  {
    assert Trim("   ") == [];
    assert TrimStart("new") == "new";
    assert TrimEnd("new") == "new";
    assert TrimStart("old") == "old";
    assert TrimEnd("old") == "old";
  }

  datatype CardAction = ViewDetails | Modify | Cancel | WriteReview

  /** The buttons `createBookingCard` puts on a card, in screen order. */
  function CardActions(isUpcoming: bool, statusId: int): (r: seq<CardAction>)
    ensures |r| >= 1 && r[0] == ViewDetails
    ensures Modify in r <==> isUpcoming
    ensures Cancel in r <==> isUpcoming
    ensures WriteReview in r <==> !isUpcoming && statusId == Bookings.Completed
    ensures !isUpcoming && statusId != Bookings.Completed ==> r == [ViewDetails]
  {
    if isUpcoming then [ViewDetails, Modify, Cancel]
    else if statusId == Bookings.Completed then [ViewDetails, WriteReview]
    else [ViewDetails]
  }
}
