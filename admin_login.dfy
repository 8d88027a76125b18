/** The admin login form: a fixed credential pair checked on the client. */
module AdminLogin {
  import opened Common

  const AdminUsername := "admin"
  const AdminPassword := "admin"
  const LoginError := "Invalid username or password."

  /** The condition `handleLogin` tests. */
  predicate Accepts(username: string, password: string)
  {
    username == AdminUsername && password == AdminPassword
  }

  /** Only the exact pair admin/admin is accepted: the form neither trims
      nor folds case, so a capital letter or a surrounding space is refused. */
  lemma CredentialsAreExact(username: string, password: string)
    ensures Accepts(username, password) <==> username == "admin" && password == "admin"
    ensures !Accepts("Admin", "admin") && !Accepts("admin", "ADMIN")
    ensures !Accepts(" admin", "admin") && !Accepts("admin", "admin ")
  {
    assert "Admin"[0] != AdminUsername[0];
    assert "ADMIN"[0] != AdminPassword[0];
    assert |" admin"| != |AdminUsername|;
    assert |"admin "| != |AdminPassword|;
  }

  class AdminLoginView {
    var username: string
    var password: string
    var error: string
    /** The argument of the last `setViewMode` call, if any. */
    var requestedView: Option<string>

    constructor ()
      ensures username == "" && password == "" && error == "" && requestedView.None?
    {
      username, password, error, requestedView := "", "", "", None;
    }

    method EnterUsername(value: string)
      modifies this`username
      ensures username == value
    {
      username := value;
    }

    method EnterPassword(value: string)
      modifies this`password
      ensures password == value
    {
      password := value;
    }

    /** `handleLogin`: the error is cleared first; the exact pair
        admin/admin asks for the admin dashboard and leaves the error empty;
        anything else sets the error and asks for no view. */
    method HandleLogin() returns (success: bool)
      modifies this`error, this`requestedView
      ensures success <==> Accepts(username, password)
      ensures success ==> error == "" && requestedView == Some("adminDashboard")
      ensures !success ==> error == LoginError && requestedView == old(requestedView)
    {
      error := "";
      success := Accepts(username, password);
      if success {
        requestedView := Some("adminDashboard");
      } else {
        error := LoginError;
      }
    }
  }
}
