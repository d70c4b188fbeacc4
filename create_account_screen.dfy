/** The sign-up form (components/CreateAccountScreen.tsx). The only check is that
    the two passwords agree; name and email are collected but not used. */
module CreateAccountScreen {

  const MismatchError := "Las contraseñas no coinciden."

  class CreateAccountForm {
    var name: string
    var email: string
    var password: string
    var confirmPassword: string
    var error: string

    constructor ()
      ensures name == [] && email == [] && password == [] && confirmPassword == [] && error == []
    {
      name, email, password, confirmPassword, error := [], [], [], [], [];
    }

    method SetFields(name': string, email': string, password': string, confirmPassword': string)
      modifies this
      ensures name == name' && email == email' && password == password' && confirmPassword == confirmPassword'
      ensures error == old(error)
    {
      name, email, password, confirmPassword := name', email', password', confirmPassword';
    }

    /** `handleSubmit`: `onCreateSuccess` is called exactly when the passwords match;
        otherwise the mismatch error is shown. The fields are kept either way. */
    method Submit() returns (created: bool)
      modifies this
      ensures created <==> password == confirmPassword
      ensures error == if created then [] else MismatchError
      ensures name == old(name) && email == old(email)
      ensures password == old(password) && confirmPassword == old(confirmPassword)
    {
      if password != confirmPassword {
        error := MismatchError;
        return false;
      }
      error := [];
      created := true;
    }
  }
}
