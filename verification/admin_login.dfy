/**
 * The admin login page: both fields must be filled, and the pair must equal the demo
 * credentials; a session that is already authenticated is sent straight to the menu page.
 */
module AdminLogin {

  const DemoEmail := "admin@agorarestobar.uz"
  const DemoPassword := "admin123"

  /** Where an authenticated visitor is sent. */
  const MenuPath := "/admin/menu"

  datatype Credentials = Credentials(email: string, password: string)

  /** How a submission ends: rejected for an empty field before anything else happens,
      accepted (and `onLogin` called), or refused. */
  datatype Outcome = FieldsMissing | LoggedIn | WrongCredentials

  /** The decision `handleSubmit` takes on the entered pair. */
  function Attempt(form: Credentials): (r: Outcome)
    ensures r == LoggedIn <==> form == Credentials(DemoEmail, DemoPassword)
    ensures r == FieldsMissing <==> form.email == "" || form.password == ""
    ensures r == WrongCredentials <==>
      form.email != "" && form.password != "" && form != Credentials(DemoEmail, DemoPassword)
  {
    if form.email == "" || form.password == "" then FieldsMissing
    else if form.email == DemoEmail && form.password == DemoPassword then LoggedIn
    else WrongCredentials
  }

  datatype Screen = Redirect(path: string) | LoginForm

  /** What the page renders: a redirect to the menu page when already authenticated (and
      then no form to submit), the login form otherwise. */
  function ScreenFor(isAuthenticated: bool): (r: Screen)
    ensures r.Redirect? <==> isAuthenticated
    ensures r.Redirect? ==> r.path == MenuPath
  {
    if isAuthenticated then Redirect(MenuPath) else LoginForm
  }

  /** The state of the login form. */
  class AdminLoginPage {
    var formData: Credentials
    var isLoading: bool

    constructor ()
      ensures formData == Credentials("", "") && !isLoading
    {
      formData := Credentials("", "");
      isLoading := false;
    }

    method SetEmail(value: string)
      modifies this`formData
      ensures formData == old(formData).(email := value)
    {
      formData := formData.(email := value);
    }

    method SetPassword(value: string)
      modifies this`formData
      ensures formData == old(formData).(password := value)
    {
      formData := formData.(password := value);
    }

    /** `handleSubmit`: an empty field is reported before the loading flag is touched; any
        other attempt ends with the flag cleared, and `onLogin` is called (`loginCalled`)
        exactly when the demo pair was entered. */
    method HandleSubmit() returns (outcome: Outcome, loginCalled: bool)
      modifies this`isLoading
      ensures outcome == Attempt(formData)
      ensures loginCalled <==> formData == Credentials(DemoEmail, DemoPassword)
      ensures outcome == FieldsMissing ==> isLoading == old(isLoading)
      ensures outcome != FieldsMissing ==> !isLoading
    {
      if formData.email == "" || formData.password == "" {
        return FieldsMissing, false;
      }
      isLoading := true;
      if formData.email == DemoEmail && formData.password == DemoPassword {
        outcome, loginCalled := LoggedIn, true;
      } else {
        outcome, loginCalled := WrongCredentials, false;
      }
      isLoading := false;
    }
  }
}
