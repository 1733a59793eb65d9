/** RegisterScreen: the four field checks, all run on every press of the register
    button, and the request handed to AuthViewModel.registerWithEmail only when
    every check passes. The platform's email address pattern is a parameter. */
module RegisterScreen {
  import opened Common

  const NameRequired: string := "El nombre es requerido"
  const NameTooShort: string := "El nombre debe tener al menos 3 caracteres"
  const EmailRequired: string := "El email es requerido"
  const EmailInvalid: string := "Email inválido"
  const PasswordRequired: string := "La contraseña es requerida"
  const PasswordTooShort: string := "La contraseña debe tener al menos 6 caracteres"
  const ConfirmRequired: string := "Confirma tu contraseña"
  const ConfirmMismatch: string := "Las contraseñas no coinciden"

  /** What registerWithEmail receives. */
  datatype RegisterRequest = RegisterRequest(nombre: string, email: string, password: string)

  function NameError(nombre: string): (r: Option<string>)
    ensures r.None? <==> !IsBlank(nombre) && Utf16Length(nombre) >= 3
    ensures r == Some(NameRequired) <==> IsBlank(nombre)
    ensures r.Some? ==> r.value in {NameRequired, NameTooShort}
  {
    if IsBlank(nombre) then Some(NameRequired)
    else if Utf16Length(nombre) < 3 then Some(NameTooShort)
    else None
  }

  function EmailError(email: string, emailPattern: string -> bool): (r: Option<string>)
    ensures r.None? <==> !IsBlank(email) && emailPattern(email)
    ensures r == Some(EmailRequired) <==> IsBlank(email)
    ensures r.Some? ==> r.value in {EmailRequired, EmailInvalid}
  {
    if IsBlank(email) then Some(EmailRequired)
    else if !emailPattern(email) then Some(EmailInvalid)
    else None
  }

  function PasswordError(password: string): (r: Option<string>)
    ensures r.None? <==> !IsBlank(password) && Utf16Length(password) >= 6
    ensures r == Some(PasswordRequired) <==> IsBlank(password)
    ensures r.Some? ==> r.value in {PasswordRequired, PasswordTooShort}
  {
    if IsBlank(password) then Some(PasswordRequired)
    else if Utf16Length(password) < 6 then Some(PasswordTooShort)
    else None
  }

  function ConfirmError(password: string, confirmPassword: string): (r: Option<string>)
    ensures r.None? <==> !IsBlank(confirmPassword) && confirmPassword == password
    ensures r == Some(ConfirmRequired) <==> IsBlank(confirmPassword)
    ensures r.Some? ==> r.value in {ConfirmRequired, ConfirmMismatch}
  {
    if IsBlank(confirmPassword) then Some(ConfirmRequired)
    else if password != confirmPassword then Some(ConfirmMismatch)
    else None
  }

  /** A password made of spaces is refused as missing, never as too short. */
  lemma SpacesPasswordIsMissing(n: nat)
    ensures PasswordError(seq(n, _ => ' ')) == Some(PasswordRequired)
  {
    var p := seq(n, _ => ' ');
    assert forall i :: 0 <= i < |p| ==> IsWhitespace(p[i]);
  }

  /** Once the password passes, a confirmation equal to it passes too. */
  lemma MatchingConfirmationPasses(password: string)
    requires PasswordError(password) == None
    ensures ConfirmError(password, password) == None
  {
  }

  class RegisterForm {
    var nombre: string
    var email: string
    var password: string
    var confirmPassword: string
    var nombreError: Option<string>
    var emailError: Option<string>
    var passwordError: Option<string>
    var confirmPasswordError: Option<string>

    constructor()
      ensures nombre == "" && email == "" && password == "" && confirmPassword == ""
      ensures nombreError == None && emailError == None && passwordError == None && confirmPasswordError == None
    {
      nombre, email, password, confirmPassword := "", "", "", "";
      nombreError, emailError, passwordError, confirmPasswordError := None, None, None, None;
    }

    /** Typing replaces a field's text and clears its error. */
    method OnNombreChange(text: string)
      modifies this`nombre, this`nombreError
      ensures nombre == text && nombreError == None
    {
      nombre := text;
      nombreError := None;
    }

    method OnEmailChange(text: string)
      modifies this`email, this`emailError
      ensures email == text && emailError == None
    {
      email := text;
      emailError := None;
    }

    method OnPasswordChange(text: string)
      modifies this`password, this`passwordError
      ensures password == text && passwordError == None
    {
      password := text;
      passwordError := None;
    }

    method OnConfirmPasswordChange(text: string)
      modifies this`confirmPassword, this`confirmPasswordError
      ensures confirmPassword == text && confirmPasswordError == None
    {
      confirmPassword := text;
      confirmPasswordError := None;
    }

    /** validateFields: the four checks, all of them run, each setting its own error;
        valid exactly when no error is left. */
    method ValidateFields(emailPattern: string -> bool) returns (isValid: bool)
      modifies this`nombreError, this`emailError, this`passwordError, this`confirmPasswordError
      ensures nombreError == NameError(nombre) && emailError == EmailError(email, emailPattern)
      ensures passwordError == PasswordError(password) && confirmPasswordError == ConfirmError(password, confirmPassword)
      ensures isValid <==> nombreError == None && emailError == None && passwordError == None && confirmPasswordError == None
    {
      isValid := true;
      if IsBlank(nombre) {
        nombreError := Some(NameRequired);
        isValid := false;
      } else if Utf16Length(nombre) < 3 {
        nombreError := Some(NameTooShort);
        isValid := false;
      } else {
        nombreError := None;
      }
      if IsBlank(email) {
        emailError := Some(EmailRequired);
        isValid := false;
      } else if !emailPattern(email) {
        emailError := Some(EmailInvalid);
        isValid := false;
      } else {
        emailError := None;
      }
      if IsBlank(password) {
        passwordError := Some(PasswordRequired);
        isValid := false;
      } else if Utf16Length(password) < 6 {
        passwordError := Some(PasswordTooShort);
        isValid := false;
      } else {
        passwordError := None;
      }
      if IsBlank(confirmPassword) {
        confirmPasswordError := Some(ConfirmRequired);
        isValid := false;
      } else if password != confirmPassword {
        confirmPasswordError := Some(ConfirmMismatch);
        isValid := false;
      } else {
        confirmPasswordError := None;
      }
    }

    /** The register button: the request goes out only when every check passes, and
        then it carries the texts exactly as typed. */
    method Submit(emailPattern: string -> bool) returns (request: Option<RegisterRequest>)
      modifies this`nombreError, this`emailError, this`passwordError, this`confirmPasswordError
      ensures request.Some? <==> (!IsBlank(nombre) && Utf16Length(nombre) >= 3 && !IsBlank(email) && emailPattern(email)
        && Utf16Length(password) >= 6 && !IsBlank(password) && confirmPassword == password)
      ensures request.Some? ==> request.value == RegisterRequest(nombre, email, password)
    {
      var valid := ValidateFields(emailPattern);
      request := if valid then Some(RegisterRequest(nombre, email, password)) else None;
    }
  }
}
