/** The login page's `handleSubmit`: any non-blank password and any address
    that matches the e-mail pattern log the user in. */
module LoginPage {
  import opened Interfaces
  import opened JsString
  import opened Validators
  import opened AppState

  /** What submitting the login form leads to. */
  datatype LoginCheck =
    | CredentialsRequired   // "Email and password are required."
    | InvalidEmail          // "Please enter a valid email."
    | LoggedIn              // "Login successful! Welcome back."

  /** The login checks: both fields non-blank, then the e-mail pattern. The
      blank-address check is subsumed by the pattern, so a login succeeds
      exactly when the password is not all whitespace and the address
      matches `^\S+@\S+\.\S+$`. */
  function CheckLogin(email: string, password: string): (r: LoginCheck)
    ensures r == CredentialsRequired <==> AllSpace(email) || AllSpace(password)
    ensures r == LoggedIn <==> !AllSpace(password) && MatchesEmailPattern(email)
  {
    BlankIff(email);
    BlankIff(password);
    EmailNotBlank(email);
    if IsBlank(email) || IsBlank(password) then CredentialsRequired
    else if !IsEmail(email) then InvalidEmail
    else LoggedIn
  }

  class LoginForm {
    const app: App
    var email: string
    var password: string

    constructor (root: App)
      ensures app == root && email == [] && password == []
    {
      app := root;
      email, password := [], [];
    }

    /** The fields' `onChange` handlers. */
    method Edit(e: string, p: string)
      modifies this
      ensures email == e && password == p
    {
      email, password := e, p;
    }

    /** `handleSubmit`: on success sets the login flag and opens the
        diagnosis page; the stored profile is not touched. On failure nothing
        changes. */
    method Submit() returns (r: LoginCheck)
      requires app.Valid()
      modifies app`isLoggedIn, app`currentPage
      ensures app.Valid()
      ensures r == CheckLogin(email, password)
      ensures r == LoggedIn ==> app.isLoggedIn && app.currentPage == Diagnose
      ensures r != LoggedIn ==> app.isLoggedIn == old(app.isLoggedIn)
                                && app.currentPage == old(app.currentPage)
    {
      r := CheckLogin(email, password);
      if r == LoggedIn {
        app.isLoggedIn := true;
        app.currentPage := Diagnose;
      }
    }
  }
}
