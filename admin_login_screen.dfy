/** The administrator's password gate (components/AdminLoginScreen.tsx): a single
    hard-coded password. */
module AdminLoginScreen {

  const AdminPassword := "admin123"
  const WrongPasswordError := "Contraseña incorrecta. Inténtalo de nuevo."

  class AdminLoginForm {
    var password: string
    var error: string
    var showPassword: bool

    constructor ()
      ensures password == [] && error == [] && !showPassword
    {
      password, error, showPassword := [], [], false;
    }

    method SetPassword(value: string)
      modifies this
      ensures password == value && error == old(error) && showPassword == old(showPassword)
    {
      password := value;
    }

    /** The eye button shows or hides the password. */
    method ToggleShowPassword()
      modifies this
      ensures showPassword == !old(showPassword)
      ensures password == old(password) && error == old(error)
    {
      showPassword := !showPassword;
    }

    /** `handleSubmit`: success exactly for the admin password; a wrong password sets
        the error and clears the field, so an immediate second submit fails too. */
    method Submit() returns (loginSuccess: bool)
      modifies this
      ensures loginSuccess <==> old(password) == AdminPassword
      ensures loginSuccess ==> error == [] && password == old(password)
      ensures !loginSuccess ==> error == WrongPasswordError && password == [] && password != AdminPassword
      ensures showPassword == old(showPassword)
    {
      if password == AdminPassword {
        error := [];
        loginSuccess := true;
      } else {
        error := WrongPasswordError;
        password := [];
        loginSuccess := false;
      }
    }
  }
}
