/**
 * `RegisterPage`: a four-field form validated by its schema, whose
 * submission calls the session store's `register` and, on success, sends the
 * user to the login view.
 */
module Register {
  import opened Wrappers
  import opened Ui
  import Api
  import Auth
  import Routing

  const MinUsernameLength := 3
  const MinPasswordLength := 6

  const UsernameRequired := "Username is required"
  const UsernameTooShort := "Username must be at least 3 characters"
  const EmailInvalid := "Invalid email format"
  const EmailRequired := "Email is required"
  const PasswordRequired := "Password is required"
  const PasswordTooShort := "Password must be at least 6 characters"
  const PasswordsMustMatch := "Passwords must match"
  const ConfirmRequired := "Confirm password is required"

  const Registered := "Registration successful! Please login."
  const RegistrationFailed := "Registration failed"

  datatype RegisterForm = RegisterForm(username: string, email: string, password: string, confirmPassword: string)

  /** The first message of each field, or None where the field passes. */
  datatype FieldErrors = FieldErrors(
    username: Option<string>,
    email: Option<string>,
    password: Option<string>,
    confirmPassword: Option<string>)

  const NoErrors := FieldErrors(None, None, None, None)

  /** `required` is tested before `min(3)`. */
  function UsernameError(username: string): (e: Option<string>)
    ensures e.None? <==> |username| >= MinUsernameLength
    ensures username == "" ==> e == Some(UsernameRequired)
    ensures 0 < |username| < MinUsernameLength ==> e == Some(UsernameTooShort)
  {
    if username == "" then Some(UsernameRequired)
    else if |username| < MinUsernameLength then Some(UsernameTooShort)
    else None
  }

  /** The format test lets the empty string through; `required` then refuses it. */
  function EmailError(email: string, isEmail: string -> bool): (e: Option<string>)
    ensures e.None? <==> email != "" && isEmail(email)
    ensures email == "" ==> e == Some(EmailRequired)
    ensures email != "" && !isEmail(email) ==> e == Some(EmailInvalid)
  {
    if email == "" then Some(EmailRequired)
    else if !isEmail(email) then Some(EmailInvalid)
    else None
  }

  /** `required` is tested before `min(6)`. */
  function PasswordError(password: string): (e: Option<string>)
    ensures e.None? <==> |password| >= MinPasswordLength
    ensures password == "" ==> e == Some(PasswordRequired)
    ensures 0 < |password| < MinPasswordLength ==> e == Some(PasswordTooShort)
  {
    if password == "" then Some(PasswordRequired)
    else if |password| < MinPasswordLength then Some(PasswordTooShort)
    else None
  }

  /** The `oneOf([ref("password")])` test runs before `required`. */
  function ConfirmError(password: string, confirmPassword: string): (e: Option<string>)
    ensures e.None? <==> confirmPassword == password && confirmPassword != ""
    ensures confirmPassword != password ==> e == Some(PasswordsMustMatch)
    ensures confirmPassword == password == "" ==> e == Some(ConfirmRequired)
  {
    if confirmPassword != password then Some(PasswordsMustMatch)
    else if confirmPassword == "" then Some(ConfirmRequired)
    else None
  }

  /** The whole schema; `isEmail` is the format predicate of the validation library. */
  function Validate(form: RegisterForm, isEmail: string -> bool): (e: FieldErrors)
    ensures e == NoErrors <==>
      && |form.username| >= MinUsernameLength
      && form.email != "" && isEmail(form.email)
      && |form.password| >= MinPasswordLength
      && form.confirmPassword == form.password
  {
    FieldErrors(
      UsernameError(form.username),
      EmailError(form.email, isEmail),
      PasswordError(form.password),
      ConfirmError(form.password, form.confirmPassword))
  }

  /**
   * The browser's own check on the `type="email"` input: the form has no
   * `noValidate`, so a non-empty value that is not a valid e-mail address
   * cancels the submission before the form library sees it. An empty value
   * passes, since the input is not marked `required`.
   */
  predicate BrowserBlocks(email: string, nativeEmail: string -> bool)
  {
    email != "" && !nativeEmail(email)
  }

  /** `error.response?.data?.message || "Registration failed"`: an empty message falls back too. */
  function FailureMessage(serverMessage: Option<string>): (m: string)
    ensures m != ""
    ensures serverMessage.Some? && serverMessage.value != "" ==> m == serverMessage.value
    ensures serverMessage.None? || serverMessage.value == "" ==> m == RegistrationFailed
  {
    if serverMessage.Some? && serverMessage.value != "" then serverMessage.value else RegistrationFailed
  }

  class RegisterPage {
    const session: Auth.SessionStore
    /** The email-format predicate of the validation library. */
    const isEmail: string -> bool
    /** The browser's e-mail address grammar for `type="email"` inputs. */
    const nativeEmail: string -> bool
    /** The four inputs, held by the form library. */
    var form: RegisterForm
    var errors: FieldErrors
    var isSubmitting: bool
    var toast: Option<Toast>
    var navigations: seq<string>

    constructor (session: Auth.SessionStore, isEmail: string -> bool, nativeEmail: string -> bool)
      ensures this.session == session && this.isEmail == isEmail && this.nativeEmail == nativeEmail
      ensures form == RegisterForm("", "", "", "") && errors == NoErrors
      ensures !isSubmitting && toast.None? && navigations == []
    {
      this.session, this.isEmail, this.nativeEmail := session, isEmail, nativeEmail;
      form, errors := RegisterForm("", "", "", ""), NoErrors;
      isSubmitting, toast, navigations := false, None, [];
    }

    /** Typing into the inputs. */
    method SetForm(f: RegisterForm)
      modifies this`form
      ensures form == f
    {
      form := f;
    }

    /**
     * Pressing submit: an invalid form shows its messages and sends nothing; a
     * valid one calls `register` with the username, email and password only.
     * A press on the disabled button does nothing, and so does one the
     * browser cancels for a malformed e-mail address: no schema message
     * appears then. The session is not changed.
     */
    method ClickSubmit()
      requires session.Valid()
      modifies this, session.api
      ensures session.Valid() && session.State() == old(session.State())
      ensures form == old(form) && navigations == old(navigations) && toast == old(toast)
      ensures old(isSubmitting) || BrowserBlocks(form.email, nativeEmail) ==>
        isSubmitting == old(isSubmitting) && errors == old(errors) && session.api.sent == old(session.api.sent)
      ensures !old(isSubmitting) && !BrowserBlocks(form.email, nativeEmail) ==> errors == Validate(form, isEmail)
      ensures !old(isSubmitting) && !BrowserBlocks(form.email, nativeEmail) && errors != NoErrors ==>
        !isSubmitting && session.api.sent == old(session.api.sent)
      ensures !old(isSubmitting) && !BrowserBlocks(form.email, nativeEmail) && errors == NoErrors ==>
        && isSubmitting
        && session.api.sent == old(session.api.sent) + [Api.Request(Api.POST, Auth.RegisterEndpoint,
             Api.NewUser(form.username, form.email, form.password), Api.Authorization(old(session.api.headers)))]
    {
      if isSubmitting || BrowserBlocks(form.email, nativeEmail) {
        return;
      }
      errors := Validate(form, isEmail);
      if errors != NoErrors {
        return;
      }
      isSubmitting := true;
      session.Register(form.username, form.email, form.password);
    }

    /** The pending registration settles. Success goes to `/login`; failure shows the server's message. */
    method Settle(response: Response<()>)
      requires isSubmitting
      modifies this
      ensures !isSubmitting && form == old(form) && errors == old(errors)
      ensures response.Ok? ==>
        navigations == old(navigations) + [Routing.LoginPath] && toast == Some(SuccessToast(Registered))
      ensures response.Err? ==>
        navigations == old(navigations) && toast == Some(ErrorToast(FailureMessage(response.serverMessage)))
    {
      match response {
        case Ok(_) =>
          toast := Some(SuccessToast(Registered));
          navigations := navigations + [Routing.LoginPath];
        case Err(message) =>
          toast := Some(ErrorToast(FailureMessage(message)));
      }
      isSubmitting := false;
    }
  }
}
