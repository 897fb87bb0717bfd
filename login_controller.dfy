/** The login screen's controller of the standalone tree
    (src/main/java/travelfinder/controller/LoginController.java): the ordered
    checks of `handleLogin` against two built-in accounts. The error alert
    and the success callback are the outcome. */
module LoginController {
  import opened Common

  datatype LoginOutcome =
    | LoginError(message: string)
      // `delivered` says whether a success callback was registered to receive it.
    | LoginAccepted(username: string, delivered: bool)

  /** The two accounts the controller accepts. */
  predicate KnownAccount(username: string, password: string) {
    || (username == "john_doe" && password == "password123")
    || (username == "admin_user" && password == "admin123")
  }

  /** `handleLogin`: a missing or blank username first, then a missing or
      blank password, then the account table. */
  function HandleLogin(username: Option<string>, password: Option<string>, hasSuccessHandler: bool)
    : (r: LoginOutcome)
    ensures (username.None? || IsBlank(username.value)) <==> r == LoginError("Username is required")
    ensures r == LoginError("Password is required") <==>
              username.Some? && !IsBlank(username.value) && (password.None? || IsBlank(password.value))
    ensures r == LoginError("Invalid username or password") <==>
              username.Some? && !IsBlank(username.value) && password.Some? && !IsBlank(password.value)
              && !KnownAccount(username.value, password.value)
    ensures r.LoginAccepted? <==>
              username.Some? && password.Some? && KnownAccount(username.value, password.value)
    ensures r.LoginAccepted? ==> r == LoginAccepted(username.value, hasSuccessHandler)
  {
    if username.None? || IsBlank(username.value) then LoginError("Username is required")
    else if password.None? || IsBlank(password.value) then LoginError("Password is required")
    else if username.value == "john_doe" && password.value == "password123" then
      LoginAccepted(username.value, hasSuccessHandler)
    else if username.value == "admin_user" && password.value == "admin123" then
      LoginAccepted(username.value, hasSuccessHandler)
    else LoginError("Invalid username or password")
  }

  /** A text with a visible character is not blank. */
  lemma NotBlank(s: string, i: int)
    requires 0 <= i < |s| && s[i] > ' '
    ensures !IsBlank(s)
  {
    BlankIffWhitespace(s);
  }

  /** The match is exact: a known account with surrounding spaces in either
      field is turned away, although the blankness checks trim. */
  lemma MatchIsExact()
    ensures HandleLogin(Some(" john_doe"), Some("password123"), true) == LoginError("Invalid username or password")
    ensures HandleLogin(Some("john_doe"), Some("password123 "), true) == LoginError("Invalid username or password")
  {
    NotBlank(" john_doe", 1);
    NotBlank("john_doe", 0);
    NotBlank("password123", 0);
    NotBlank("password123 ", 0);
  }

  /** A username of spaces alone counts as missing. */
  lemma SpacesAreNoUsername(password: Option<string>)
    ensures HandleLogin(Some("   "), password, true) == LoginError("Username is required")
  {
    BlankIffWhitespace("   ");
  }

  /** Only the two listed names ever get through, whatever the password. */
  lemma AcceptedNames(username: Option<string>, password: Option<string>, hasSuccessHandler: bool)
    ensures var r := HandleLogin(username, password, hasSuccessHandler);
            r.LoginAccepted? ==> r.username == "john_doe" || r.username == "admin_user"
  {
  }
}
