/** The login page: the form's two rules, the messages shown for the errors
    the authentication service reports, and the loading and error state
    that the login and register handlers set around the service call. The
    service's error codes and the e-mail syntax check are parameters. */
module Login {
  import opened Wrappers
  import opened JsString

  // ---- The form ----

  const InvalidEmail := "Invalid email address."
  const PasswordTooShort := "Password must be at least 6 characters."
  const MinPasswordLength := 6

  datatype LoginField = Email | Password

  datatype FormIssue = FormIssue(field: LoginField, message: string)

  /** A password passes when it has at least six UTF-16 code units. */
  predicate PasswordAccepted(password: string) {
    Utf16Length(password) >= MinPasswordLength
  }

  /** `loginSchema` on the form's two strings: one issue per broken rule,
      the e-mail's first. `isEmail` is the e-mail syntax check. */
  function ValidateLogin(isEmail: string -> bool, email: string, password: string): (issues: seq<FormIssue>)
    ensures issues == [] <==> isEmail(email) && PasswordAccepted(password)
    ensures FormIssue(Email, InvalidEmail) in issues <==> !isEmail(email)
    ensures FormIssue(Password, PasswordTooShort) in issues <==> !PasswordAccepted(password)
    ensures forall i :: 0 <= i < |issues| ==>
              issues[i] == FormIssue(Email, InvalidEmail) || issues[i] == FormIssue(Password, PasswordTooShort)
  {
    (if isEmail(email) then [] else [FormIssue(Email, InvalidEmail)]) +
    (if PasswordAccepted(password) then [] else [FormIssue(Password, PasswordTooShort)])
  }

  /** Six characters always pass and two never do, whatever the characters
      are; in between it depends on how many need two code units. */
  lemma PasswordLengthBounds(password: string)
    ensures |password| >= 6 ==> PasswordAccepted(password)
    ensures |password| < 3 ==> !PasswordAccepted(password)
  {
  }

  lemma PasswordExamples()
    ensures PasswordAccepted("secret")
    ensures !PasswordAccepted("12345")
  {
    PasswordLengthBounds("secret");
    PasswordLengthBounds("12345");
    assert Utf16Length("12345") == 5;
  }

  // ---- Authentication errors ----

  /** The service's named error codes, whose values the page does not fix. */
  datatype AuthCodes = AuthCodes(userDeleted: string, invalidPassword: string, emailExists: string)

  /** A thrown error: its `code` and `message`, either of which may be
      missing. */
  datatype AuthError = AuthError(code: Option<string>, message: Option<string>)

  const UserNotFound := "User not found. Please register."
  const WrongPassword := "Incorrect password. Please try again."
  const LoginFallback := "An unexpected error occurred during login."
  const EmailInUse := "This email is already in use. Please log in."
  const RegisterFallback := "An unexpected error occurred during registration."

  predicate HasCode(err: AuthError, code: string) {
    err.code == Some(code)
  }

  /** `err.message || fallback`. */
  function MessageOr(err: AuthError, fallback: string): (text: string)
    ensures err.message.Some? && err.message.value != "" ==> text == err.message.value
    ensures err.message.None? || err.message == Some("") ==> text == fallback
  {
    if err.message.Some? && Truthy(err.message.value) then err.message.value else fallback
  }

  /** The message `handleLogin` shows for an error. */
  function LoginErrorMessage(codes: AuthCodes, err: AuthError): (text: string)
    ensures text != ""
  {
    if HasCode(err, codes.userDeleted) || HasCode(err, "auth/user-not-found") then UserNotFound
    else if HasCode(err, codes.invalidPassword) || HasCode(err, "auth/wrong-password") then WrongPassword
    else MessageOr(err, LoginFallback)
  }

  /** The message `handleRegister` shows for an error. */
  function RegisterErrorMessage(codes: AuthCodes, err: AuthError): (text: string)
    ensures text != ""
  {
    if HasCode(err, codes.emailExists) then EmailInUse
    else MessageOr(err, RegisterFallback)
  }

  /** The login messages in priority order: an unknown user is reported as
      such even when the same code is also the wrong-password code; a wrong
      password next; anything else by its own message or the fallback. */
  lemma LoginErrorCases(codes: AuthCodes, err: AuthError)
    ensures HasCode(err, codes.userDeleted) || HasCode(err, "auth/user-not-found") ==>
              LoginErrorMessage(codes, err) == UserNotFound
    ensures !HasCode(err, codes.userDeleted) && !HasCode(err, "auth/user-not-found") &&
            (HasCode(err, codes.invalidPassword) || HasCode(err, "auth/wrong-password")) ==>
              LoginErrorMessage(codes, err) == WrongPassword
    ensures !HasCode(err, codes.userDeleted) && !HasCode(err, "auth/user-not-found") &&
            !HasCode(err, codes.invalidPassword) && !HasCode(err, "auth/wrong-password") ==>
              LoginErrorMessage(codes, err) == MessageOr(err, LoginFallback)
  {
  }

  /** An error without a code, or with one the page does not know, shows
      the service's message when it has one and the fallback otherwise. */
  lemma UncodedLoginError(codes: AuthCodes, message: string)
    ensures LoginErrorMessage(codes, AuthError(None, Some(message))) ==
              if message == "" then LoginFallback else message
    ensures LoginErrorMessage(codes, AuthError(None, None)) == LoginFallback
  {
  }

  /** The registration messages: an address in use first, then the
      service's message or the fallback. */
  lemma RegisterErrorCases(codes: AuthCodes, err: AuthError)
    ensures HasCode(err, codes.emailExists) ==> RegisterErrorMessage(codes, err) == EmailInUse
    ensures !HasCode(err, codes.emailExists) ==> RegisterErrorMessage(codes, err) == MessageOr(err, RegisterFallback)
  {
  }

  // ---- The page's state ----

  /** Where a handler sends the browser after the call. */
  const Home := "/"

  class LoginPage {
    var isLoading: bool
    var error: Option<string>

    constructor()
      ensures !isLoading && error == None
    {
      isLoading := false;
      error := None;
    }

    /** The start of either handler: loading, with no error shown. */
    method Begin()
      modifies this
      ensures isLoading && error == None
    {
      isLoading := true;
      error := None;
    }

    /** The end of `handleLogin`: success goes home with the error left
        cleared; a failure shows its message; loading stops either way. */
    method FinishLogin(codes: AuthCodes, outcome: Option<AuthError>) returns (redirect: Option<string>)
      modifies this
      ensures !isLoading
      ensures outcome.None? ==> redirect == Some(Home) && error == old(error)
      ensures outcome.Some? ==> redirect == None && error == Some(LoginErrorMessage(codes, outcome.value))
    {
      redirect := None;
      match outcome {
        case None => redirect := Some(Home);
        case Some(err) => error := Some(LoginErrorMessage(codes, err));
      }
      isLoading := false;
    }

    /** The end of `handleRegister`, the same way with its own messages. */
    method FinishRegister(codes: AuthCodes, outcome: Option<AuthError>) returns (redirect: Option<string>)
      modifies this
      ensures !isLoading
      ensures outcome.None? ==> redirect == Some(Home) && error == old(error)
      ensures outcome.Some? ==> redirect == None && error == Some(RegisterErrorMessage(codes, outcome.value))
    {
      redirect := None;
      match outcome {
        case None => redirect := Some(Home);
        case Some(err) => error := Some(RegisterErrorMessage(codes, err));
      }
      isLoading := false;
    }

    /** A login submit as a whole: a form that breaks a rule never reaches
        the handler and changes nothing; otherwise the service is asked and
        the page ends not loading, with no error on success and the mapped
        message on failure. `signIn` stands for the service call. */
    method HandleLogin(isEmail: string -> bool, signIn: (string, string) -> Option<AuthError>,
                       codes: AuthCodes, email: string, password: string)
      returns (redirect: Option<string>)
      modifies this
      ensures ValidateLogin(isEmail, email, password) != [] ==>
                redirect == None && isLoading == old(isLoading) && error == old(error)
      ensures ValidateLogin(isEmail, email, password) == [] ==>
                !isLoading &&
                (redirect == Some(Home) <==> signIn(email, password).None?) &&
                error == (match signIn(email, password)
                          case None => None
                          case Some(err) => Some(LoginErrorMessage(codes, err)))
    {
      if ValidateLogin(isEmail, email, password) != [] {
        return None;
      }
      Begin();
      redirect := FinishLogin(codes, signIn(email, password));
    }

    /** A register submit as a whole, like a login submit. `signUp` stands
        for the service call. */
    method HandleRegister(isEmail: string -> bool, signUp: (string, string) -> Option<AuthError>,
                          codes: AuthCodes, email: string, password: string)
      returns (redirect: Option<string>)
      modifies this
      ensures ValidateLogin(isEmail, email, password) != [] ==>
                redirect == None && isLoading == old(isLoading) && error == old(error)
      ensures ValidateLogin(isEmail, email, password) == [] ==>
                !isLoading &&
                (redirect == Some(Home) <==> signUp(email, password).None?) &&
                error == (match signUp(email, password)
                          case None => None
                          case Some(err) => Some(RegisterErrorMessage(codes, err)))
    {
      if ValidateLogin(isEmail, email, password) != [] {
        return None;
      }
      Begin();
      redirect := FinishRegister(codes, signUp(email, password));
    }
  }
}
