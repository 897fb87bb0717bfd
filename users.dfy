/** The account entity of the standalone tree
    (src/main/java/travelfinder/model/User.java): role predicates, the
    display name and identity by user id. */
module Users {
  import opened Common
  import Bookings
  import Reviews

  /** How string concatenation renders a possibly-null String. */
  function JavaText(s: Option<string>): (r: string)
    ensures s.Some? ==> r == s.value
    ensures s.None? ==> r == "null"
  {
    if s.Some? then s.value else "null"
  }

  class User {
    var userId: int
    var username: Option<string>
    var email: Option<string>
    var firstName: Option<string>
    var lastName: Option<string>
    // 'admin' or 'traveler' in the database, but any text here.
    var role: Option<string>
    var isActive: bool
    var bookings: seq<Bookings.Booking>
    var reviews: seq<Reviews.Review>

    /** The six-argument constructor: the account starts active with no
        bookings or reviews. */
    constructor (userId: int, username: Option<string>, email: Option<string>,
                 firstName: Option<string>, lastName: Option<string>, role: Option<string>)
      ensures this.userId == userId && this.username == username && this.email == email
      ensures this.firstName == firstName && this.lastName == lastName && this.role == role
      ensures isActive && bookings == [] && reviews == []
    {
      this.userId, this.username, this.email := userId, username, email;
      this.firstName, this.lastName, this.role := firstName, lastName, role;
      isActive, bookings, reviews := true, [], [];
    }

    method SetRole(role: Option<string>)
      modifies this`role
      ensures this.role == role
    {
      this.role := role;
    }

    /** `addBooking` */
    method AddBooking(b: Bookings.Booking)
      modifies this`bookings
      ensures bookings == old(bookings) + [b]
    {
      bookings := bookings + [b];
    }

    /** `addReview` */
    method AddReview(r: Reviews.Review)
      modifies this`reviews
      ensures reviews == old(reviews) + [r]
    {
      reviews := reviews + [r];
    }

    /** `getFullName`: first name, a space, last name; a missing part prints
        as "null". */
    function FullName(): (r: string)
      reads this
    {
      JavaText(firstName) + " " + JavaText(lastName)
    }

    /** `isAdmin`: `"admin".equals(role)`, false for a null role. */
    predicate IsAdmin()
      reads this
    {
      role == Some("admin")
    }

    /** `isTraveler` */
    predicate IsTraveler()
      reads this
    {
      role == Some("traveler")
    }

    /** `equals`: the same object, or another user with the same id. */
    predicate Equals(other: User?)
      reads this, other
    {
      this == other || (other != null && userId == other.userId)
    }

    /** `hashCode` */
    function HashCode(): int
      reads this
    {
      userId
    }
  }

  /** No role makes a user both an administrator and a traveller, and a user
      without a role is neither. */
  lemma RolesExclusive(u: User)
    ensures !(u.IsAdmin() && u.IsTraveler())
    ensures u.role.None? ==> !u.IsAdmin() && !u.IsTraveler()
  {
  }

  /** The full name has the first name before the first space it adds and the
      last name after it, so it splits back into its parts when the first
      name has no space of its own. */
  lemma FullNameSplits(u: User)
    requires u.firstName.Some? && u.lastName.Some?
    requires forall i :: 0 <= i < |u.firstName.value| ==> u.firstName.value[i] != ' '
    ensures var f, n := u.firstName.value, u.FullName();
            && |n| == |f| + 1 + |u.lastName.value|
            && n[..|f|] == f && n[|f|] == ' ' && n[|f| + 1..] == u.lastName.value
            && (forall i :: 0 <= i < |f| ==> n[i] != ' ')
  {
    var f, n := u.firstName.value, u.FullName();
    assert n == f + " " + u.lastName.value;
  }

  /** `equals` is an equivalence, it agrees with comparing ids, and equal
      users hash alike, as the `hashCode` contract demands. */
  lemma EqualsIsIdentityById(a: User, b: User, c: User)
    ensures a.Equals(a)
    ensures a.Equals(b) <==> a.userId == b.userId
    ensures a.Equals(b) ==> b.Equals(a)
    ensures a.Equals(b) && b.Equals(c) ==> a.Equals(c)
    ensures a.Equals(b) ==> a.HashCode() == b.HashCode()
    ensures !a.Equals(null)
  {
  }
}
