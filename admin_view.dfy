/** The rules embedded in the administrator screen (src/view/AdminView.java):
    the status combo box's name/id mappings, the report-range validator and the
    user enable/disable toggle. Widget reads are parameters. */
module AdminView {
  import opened Common
  import UserProfileView

  /** The five entries of the status combo box, in display order. */
  const StatusNames: seq<string> := ["Pending", "Confirmed", "Completed", "Cancelled", "No-Show"]

  /** The switch on the selected name: the id of a known name, otherwise the
      initial 0. */
  function StatusIdOfName(name: string): (id: int)
    ensures 0 <= id <= 5
    ensures id > 0 <==> name in StatusNames
    ensures id > 0 ==> StatusNames[id - 1] == name
  {
    match name
    case "Pending" => 1
    case "Confirmed" => 2
    case "Completed" => 3
    case "Cancelled" => 4
    case "No-Show" => 5
    case _ => 0
  }

  /** The status-update request the combo box's action sends: only a known
      name produces one, and only when a status-update callback is
      registered (`hasHandler`). */
  function StatusUpdateRequest(selected: string, hasHandler: bool): (r: Option<int>)
    ensures r.Some? <==> selected in StatusNames && hasHandler
    ensures r.Some? ==> 1 <= r.value <= 5 && StatusNames[r.value - 1] == selected
  {
    var id := StatusIdOfName(selected);
    if id > 0 && hasHandler then Some(id) else None
  }

  /** The combo box's value for a booking's status id; empty for any other id. */
  function StatusNameOfId(id: int): (name: string)
    ensures 1 <= id <= 5 ==> name == StatusNames[id - 1]
    ensures !(1 <= id <= 5) ==> name == ""
  {
    match id
    case 1 => "Pending"
    case 2 => "Confirmed"
    case 3 => "Completed"
    case 4 => "Cancelled"
    case 5 => "No-Show"
    case _ => ""
  }

  /** Name to id to name is the identity on the combo box's entries. */
  lemma NameIdNameRoundTrip(name: string)
    requires name in StatusNames
    ensures StatusNameOfId(StatusIdOfName(name)) == name
  {
  }

  /** Id to name to id is the identity on the five status ids. */
  lemma IdNameIdRoundTrip(id: int)
    requires 1 <= id <= 5
    ensures StatusIdOfName(StatusNameOfId(id)) == id
  {
    var name := StatusNameOfId(id);
    assert name == StatusNames[id - 1];
    assert StatusIdOfName(name) > 0;
    assert StatusNames[StatusIdOfName(name) - 1] == StatusNames[id - 1];
    assert forall i, j :: 0 <= i < 5 && 0 <= j < 5 && StatusNames[i] == StatusNames[j] ==> i == j;
  }

  /** The administrator screen and the profile screen name the five statuses
      alike; they differ only on unknown ids ("" against "Unknown"). */
  lemma AdminAndProfileNamesAgree(id: int)
    ensures 1 <= id <= 5 ==> StatusNameOfId(id) == UserProfileView.StatusText(id)
    ensures !(1 <= id <= 5) ==> StatusNameOfId(id) == "" && UserProfileView.StatusText(id) == "Unknown"
  {
  }

  /** `validateReportInput`: report type, start date and end date must be
      present, in that order; then the start may not be after the end. */
  function ValidateReportInput(reportType: Option<string>, start: Option<int>, end: Option<int>): (r: Check)
    ensures r == Valid <==> reportType.Some? && start.Some? && end.Some? && start.value <= end.value
    ensures reportType.None? ==> r == Invalid("Please select a report type")
    ensures reportType.Some? && start.None? ==> r == Invalid("Please select a start date")
    ensures reportType.Some? && start.Some? && end.None? ==> r == Invalid("Please select an end date")
    ensures (reportType.Some? && start.Some? && end.Some? && start.value > end.value) ==>
              r == Invalid("Start date must be before end date")
  {
    if reportType.None? then Invalid("Please select a report type")
    else if start.None? then Invalid("Please select a start date")
    else if end.None? then Invalid("Please select an end date")
    else if start.value > end.value then Invalid("Start date must be before end date")
    else Valid
  }

  /** The enable/disable button's request: the opposite of the user's current
      active flag, sent only when a user-status callback is registered
      (`hasHandler`). */
  function RequestedActiveStatus(isActive: bool, hasHandler: bool): (r: Option<bool>)
    ensures r.Some? <==> hasHandler
    ensures r.Some? ==> r.value != isActive
  {
    if hasHandler then Some(!isActive) else None
  }
}
