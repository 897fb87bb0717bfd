/** The main screen's controller (src/controller/MainController.java): it
    remembers who is logged in and whether that is the administrator, checks
    the search location before asking the accommodation DAO, and gates the
    profile, bookings and admin screens. The DAO's answer and the screens
    shown are outcomes. */
module MainController {
  import opened Common

  /** What a press of a navigation button leads to. */
  datatype ScreenOutcome = Denied(message: string) | Shown

  /** What a press of the search button leads to. */
  datatype SearchOutcome = LocationMissing | Searched(query: string)

  class MainController {
    var currentUser: Option<string>
    var isAdmin: bool
    // Whether an `onLogout` callback is registered.
    var hasLogoutHandler: bool

    /** Nobody is logged in yet and the administrator flag starts false. */
    constructor ()
      ensures currentUser == None && !isAdmin && !hasLogoutHandler
    {
      currentUser, isAdmin, hasLogoutHandler := None, false, false;
    }

    /** `setCurrentUser`: the administrator is the user named exactly
        "admin". A null name makes `equals` throw, so the name is present. */
    method SetCurrentUser(username: string)
      modifies this`currentUser, this`isAdmin
      ensures currentUser == Some(username)
      ensures isAdmin <==> username == "admin"
    {
      currentUser := Some(username);
      isAdmin := username == "admin";
    }

    method SetOnLogout()
      modifies this`hasLogoutHandler
      ensures hasLogoutHandler
    {
      hasLogoutHandler := true;
    }

    /** `handleLogout`: runs the callback when one is registered. */
    method HandleLogout() returns (notified: bool)
      ensures notified == hasLogoutHandler
    {
      notified := hasLogoutHandler;
    }

    /** `handleSearch`: a missing or blank location raises an alert and the
        DAO is not asked; any other location goes to the DAO untouched, not
        even trimmed. */
    method HandleSearch(location: Option<string>) returns (r: SearchOutcome)
      ensures r == LocationMissing <==> location.None? || IsBlank(location.value)
      ensures r.Searched? ==> r.query == location.value
    {
      if location.None? || IsBlank(location.value) {
        return LocationMissing;
      }
      return Searched(location.value);
    }

    /** `handleShowProfile`: the user "Guest" is told to log in. */
    method HandleShowProfile() returns (r: ScreenOutcome)
      ensures r == Denied("Please login to view your profile") <==> currentUser == Some("Guest")
      ensures r == Shown <==> currentUser != Some("Guest")
    {
      if currentUser == Some("Guest") {
        return Denied("Please login to view your profile");
      }
      return Shown;
    }

    /** `handleShowBookings`: the user "Guest" is told to log in. */
    method HandleShowBookings() returns (r: ScreenOutcome)
      ensures r == Denied("Please login to view your bookings") <==> currentUser == Some("Guest")
      ensures r == Shown <==> currentUser != Some("Guest")
    {
      if currentUser == Some("Guest") {
        return Denied("Please login to view your bookings");
      }
      return Shown;
    }

    /** `handleShowAdminPanel`: only the administrator gets through. */
    method HandleShowAdminPanel() returns (r: ScreenOutcome)
      ensures r == Denied("Access denied: Admin privileges required") <==> !isAdmin
      ensures r == Shown <==> isAdmin
    {
      if !isAdmin {
        return Denied("Access denied: Admin privileges required");
      }
      return Shown;
    }
  }

  /** Within one controller: the admin panel opens after `setCurrentUser`
      exactly when the name given was "admin", and the guest gates let every
      other name but "Guest" through. */
  method AdminPanelAfterSetCurrentUser(controller: MainController, username: string)
    returns (admin: ScreenOutcome, profile: ScreenOutcome)
    modifies controller
    ensures admin == Shown <==> username == "admin"
    ensures profile == Shown <==> username != "Guest"
  {
    controller.SetCurrentUser(username);
    admin := controller.HandleShowAdminPanel();
    profile := controller.HandleShowProfile();
  }
}
