/**
  The registration screen (app/register.tsx): the error map built from the
  four fields, the call made once the form is clean, and the per-field
  clearing of an error while typing.
*/
module Register {
  import opened Wrappers
  import opened Entities

  const NameKey := "name"
  const EmailKey := "email"
  const PasswordKey := "password"
  const ConfirmKey := "confirmPassword"

  const NameRequired := "El nombre es requerido"
  const EmailRequired := "El email es requerido"
  const PasswordRequired := "La contraseña es requerida"
  const ConfirmRequired := "Debes confirmar la contraseña"
  const PasswordsDiffer := "Las contraseñas no coinciden"
  const FixErrorsMessage := "Por favor corrige los errores"
  const DefaultRegisterError := "Error al crear la cuenta"
  const ConnectionError := "Error de conexión"
  const HomePath := "/home"

  datatype Field = NameField | EmailField | PasswordField | ConfirmField

  function KeyOf(f: Field): (k: string)
    ensures k in {NameKey, EmailKey, PasswordKey, ConfirmKey}
  {
    match f
    case NameField => NameKey
    case EmailField => EmailKey
    case PasswordField => PasswordKey
    case ConfirmField => ConfirmKey
  }

  /** `authService.register({ name, email, password })`. */
  datatype RegisterRequest = RegisterRequest(name: string, email: string, password: string)

  /** How the call ended: a successful response carrying the new user's
      name, an unsuccessful one with its optional error, or a throw. */
  datatype RegisterOutcome = Registered(userName: string) | Refused(error: Option<string>) | Unreachable

  /** A form the validation lets through. */
  predicate IsClean(name: string, email: string, password: string, confirm: string) {
    name != "" && email != "" && password != "" && confirm != "" && password == confirm
  }

  /** The error map the form deserves: a "required" entry for each empty
      field, and the mismatch entry in place of the confirmation's when both
      passwords are given and differ. */
  predicate Reports(errors: map<string, string>, name: string, email: string, password: string, confirm: string) {
    && errors.Keys <= {NameKey, EmailKey, PasswordKey, ConfirmKey}
    && (NameKey in errors <==> name == "")
    && (EmailKey in errors <==> email == "")
    && (PasswordKey in errors <==> password == "")
    && (ConfirmKey in errors <==> confirm == "" || (password != "" && password != confirm))
    && (NameKey in errors ==> errors[NameKey] == NameRequired)
    && (EmailKey in errors ==> errors[EmailKey] == EmailRequired)
    && (PasswordKey in errors ==> errors[PasswordKey] == PasswordRequired)
    && (ConfirmKey in errors ==> errors[ConfirmKey] == if confirm == "" then ConfirmRequired else PasswordsDiffer)
  }

  /** The rules leave no freedom: one form deserves exactly one error map. */
  lemma ReportsIsUnique(e1: map<string, string>, e2: map<string, string>,
                        name: string, email: string, password: string, confirm: string)
    requires Reports(e1, name, email, password, confirm)
    requires Reports(e2, name, email, password, confirm)
    ensures e1 == e2
  {
  }

  /** The chain of checks of `handleRegister`, filling `newErrors`: the map
      it builds is the one the form deserves, and it is empty exactly when
      the form is clean. */
  method CollectErrors(name: string, email: string, password: string, confirm: string)
    returns (errors: map<string, string>)
    ensures Reports(errors, name, email, password, confirm)
    ensures errors == map[] <==> IsClean(name, email, password, confirm)
  {
    errors := map[];
    if name == "" {
      errors := errors[NameKey := NameRequired];
    }
    if email == "" {
      errors := errors[EmailKey := EmailRequired];
    }
    if password == "" {
      errors := errors[PasswordKey := PasswordRequired];
    }
    if confirm == "" {
      errors := errors[ConfirmKey := ConfirmRequired];
    }
    if password != "" && confirm != "" && password != confirm {
      errors := errors[ConfirmKey := PasswordsDiffer];
    }
    if !IsClean(name, email, password, confirm) {
      assert NameKey in errors || EmailKey in errors || PasswordKey in errors || ConfirmKey in errors;
    }
  }

  /** The registration form. */
  class Form {
    var name: string
    var email: string
    var password: string
    var confirmPassword: string
    var errors: map<string, string>
    var loading: bool

    constructor ()
      ensures name == "" && email == "" && password == "" && confirmPassword == ""
      ensures errors == map[] && !loading
    {
      name, email, password, confirmPassword := "", "", "", "";
      errors, loading := map[], false;
    }

    /** A field's `onChangeText`: the text is stored and that field's error
        entry is blanked; the other entries stay. */
    method EditField(f: Field, text: string)
      modifies this
      ensures f == NameField ==> name == text
      ensures f != NameField ==> name == old(name)
      ensures f == EmailField ==> email == text
      ensures f != EmailField ==> email == old(email)
      ensures f == PasswordField ==> password == text
      ensures f != PasswordField ==> password == old(password)
      ensures f == ConfirmField ==> confirmPassword == text
      ensures f != ConfirmField ==> confirmPassword == old(confirmPassword)
      ensures errors == old(errors)[KeyOf(f) := ""]
      ensures loading == old(loading)
    {
      match f {
        case NameField => name := text;
        case EmailField => email := text;
        case PasswordField => password := text;
        case ConfirmField => confirmPassword := text;
      }
      errors := errors[KeyOf(f) := ""];
    }

    /** `handleRegister`: an unclean form gets its error map and an alert,
        and nothing is called; a clean one clears the map and calls the
        service, then reports how that went. */
    method HandleRegister(outcome: RegisterOutcome) returns (request: Option<RegisterRequest>, alert: Alert, next: Option<string>)
      modifies this
      ensures name == old(name) && email == old(email) && password == old(password) && confirmPassword == old(confirmPassword)
      ensures request.None? <==> !IsClean(old(name), old(email), old(password), old(confirmPassword))
      ensures request.None? ==>
        && errors != map[] && Reports(errors, old(name), old(email), old(password), old(confirmPassword))
        && loading == old(loading)
        && alert == Alert("Error", FixErrorsMessage) && next.None?
      ensures request.Some? ==>
        && request.value == RegisterRequest(old(name), old(email), old(password))
        && errors == map[] && !loading
      ensures request.Some? && outcome.Registered? ==>
        && alert == Alert("¡Éxito! \U{1F389}", "Bienvenido " + outcome.userName + ". Tu cuenta ha sido creada exitosamente")
        && next == Some(HomePath)
      ensures request.Some? && outcome.Refused? ==>
        && alert == Alert("Error", if Truthy(outcome.error) then outcome.error.value else DefaultRegisterError)
        && next.None?
      ensures request.Some? && outcome.Unreachable? ==> alert == Alert("Error", ConnectionError) && next.None?
    {
      var newErrors := CollectErrors(name, email, password, confirmPassword);
      if |newErrors| > 0 {
        errors := newErrors;
        return None, Alert("Error", FixErrorsMessage), None;
      }
      errors := map[];
      loading := true;
      request := Some(RegisterRequest(name, email, password));
      match outcome {
        case Registered(userName) =>
          alert := Alert("¡Éxito! \U{1F389}", "Bienvenido " + userName + ". Tu cuenta ha sido creada exitosamente");
          next := Some(HomePath);
        case Refused(error) =>
          alert := Alert("Error", if Truthy(error) then error.value else DefaultRegisterError);
          next := None;
        case Unreachable =>
          alert := Alert("Error", ConnectionError);
          next := None;
      }
      loading := false;
    }
  }
}
