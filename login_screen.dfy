/** The user login form (components/LoginScreen.tsx). Any non-empty email and
    password are accepted: there is no account check. */
module LoginScreen {

  class LoginForm {
    var email: string
    var password: string

    constructor ()
      ensures email == [] && password == []
    {
      email := [];
      password := [];
    }

    method SetEmail(value: string)
      modifies this
      ensures email == value && password == old(password)
    {
      email := value;
    }

    method SetPassword(value: string)
      modifies this
      ensures password == value && email == old(email)
    {
      password := value;
    }

    /** `handleSubmit`: `onLoginSuccess` is called exactly when both fields are non-empty. */
    method Submit() returns (loginSuccess: bool)
      ensures loginSuccess <==> |email| > 0 && |password| > 0
    {
      loginSuccess := email != [] && password != [];
    }
  }
}
