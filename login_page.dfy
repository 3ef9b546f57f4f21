/**
  The sign-in page (`src/app/login/page.tsx`): the length rules of the login
  and register forms, the error texts shown for a failed sign-in or sign-up,
  and the page state they set.  The backend calls `signIn` and `signUp` are
  outcome parameters, zod's email check is the parameter `emailOk`, and the
  redirect after a sign-in is not part of this model.
*/
module LoginPage {
  import opened Wrappers
  import opened Text

  /** The fields a form rejects. */
  datatype Issue = NameTooShort | EmailInvalid | PasswordTooShort

  /** `loginSchema`: a valid email and a password of at least six characters. */
  function LoginIssues(emailOk: bool, password: string): (r: seq<Issue>)
  {
    (if emailOk then [] else [EmailInvalid]) + (if |password| >= 6 then [] else [PasswordTooShort])
  }

  /** `registerSchema`: also a name of at least two characters. */
  function RegisterIssues(name: string, emailOk: bool, password: string): (r: seq<Issue>)
  {
    (if |name| >= 2 then [] else [NameTooShort]) + LoginIssues(emailOk, password)
  }

  /** Each form rejects exactly the fields that break their rule; the password rule is the same in both. */
  lemma SchemaRules(name: string, emailOk: bool, password: string)
    ensures PasswordTooShort in LoginIssues(emailOk, password) <==> |password| < 6
    ensures EmailInvalid in LoginIssues(emailOk, password) <==> !emailOk
    ensures NameTooShort !in LoginIssues(emailOk, password)
    ensures PasswordTooShort in RegisterIssues(name, emailOk, password) <==> |password| < 6
    ensures EmailInvalid in RegisterIssues(name, emailOk, password) <==> !emailOk
    ensures NameTooShort in RegisterIssues(name, emailOk, password) <==> |name| < 2
    ensures LoginIssues(emailOk, password) == [] <==> emailOk && |password| >= 6
    ensures RegisterIssues(name, emailOk, password) == [] <==> |name| >= 2 && emailOk && |password| >= 6
  {
  }

  const InvalidCredentials := "Invalid login credentials"
  const InvalidCredentialsText := "Invalid email or password. Please try again."
  const LoginFailedText := "Login failed. Please try again."
  const RegisteredText := "Registration " + "successful" + "! Please check your email to confirm your account, then log in."
  const RegistrationFailedText := "Registration failed. Please try again."
  const EmailRejectedText := "The email address format is not accepted. Please use a different email."
  const AlreadyRegisteredText := "This email is already registered. " + "Please log in or use a different email."

  /** The error of a failed `signIn`, by its message. */
  function LoginErrorText(message: string): (r: string)
    ensures Contains(message, InvalidCredentials) ==> r == InvalidCredentialsText
    ensures !Contains(message, InvalidCredentials) && message != "" ==> r == message
    ensures !Contains(message, InvalidCredentials) && message == "" ==> r == LoginFailedText
  {
    if Contains(message, InvalidCredentials) then InvalidCredentialsText
    else if message != "" then message
    else LoginFailedText
  }

  /** The error of a failed `signUp`, by its message: a rejected address first, then a known address. */
  function RegisterErrorText(message: string): (r: string)
    ensures Contains(message, "Email address") && Contains(message, "invalid") ==> r == EmailRejectedText
    ensures !(Contains(message, "Email address") && Contains(message, "invalid")) && Contains(message, "User already registered") ==> r == AlreadyRegisteredText
    ensures !(Contains(message, "Email address") && Contains(message, "invalid")) && !Contains(message, "User already registered") ==>
      r == (if message != "" then message else RegistrationFailedText)
  {
    if Contains(message, "Email address") && Contains(message, "invalid") then EmailRejectedText
    else if Contains(message, "User already registered") then AlreadyRegisteredText
    else if message != "" then message
    else RegistrationFailedText
  }

  /** Every error text is non-empty, and the fixed ones are the only texts for messages that name their case. */
  lemma ErrorTextsNonEmpty(message: string)
    ensures LoginErrorText(message) != "" && RegisterErrorText(message) != ""
    ensures LoginErrorText(message) == message || LoginErrorText(message) in {InvalidCredentialsText, LoginFailedText}
    ensures RegisterErrorText(message) == message || RegisterErrorText(message) in {EmailRejectedText, AlreadyRegisteredText, RegistrationFailedText}
  {
  }

  datatype Variant = Default | Destructive

  /** `error && <Alert variant={error.includes("successful") ? "default" : "destructive"}>`. */
  function AlertVariant(error: Option<string>): (r: Option<Variant>)
    ensures r.None? <==> error.None? || error.value == ""
    ensures r == Some(Default) <==> error.Some? && error.value != "" && Contains(error.value, "successful")
  {
    if error.None? || error.value == "" then None
    else if Contains(error.value, "successful") then Some(Default)
    else Some(Destructive)
  }

  /** The registration notice is shown as a success. */
  lemma RegisteredTextVariant()
    ensures AlertVariant(Some(RegisteredText)) == Some(Default)
  {
    var a, b, c := "Registration ", "successful", "! Please check your email to confirm your account, then log in.";
    assert |a| == 13 && |b| == 10;
    assert (a + b + c)[13..23] == b;
    OccursContained(RegisteredText, "successful", 13);
  }

  /** A text lacking a letter of "successful" is shown as an error. */
  lemma DestructiveWithout(text: string, c: char)
    requires text != "" && c in "successful" && c !in text
    ensures AlertVariant(Some(text)) == Some(Destructive)
  {
    MissingCharNotContained(text, "successful", c);
  }

  /** The friendly sign-in failure text is shown as an error. */
  lemma InvalidCredentialsVariant()
    ensures AlertVariant(Some(InvalidCredentialsText)) == Some(Destructive)
  {
    DestructiveWithout(InvalidCredentialsText, 'f');
  }

  /** The default sign-in failure text is shown as an error. */
  lemma LoginFailedVariant()
    ensures AlertVariant(Some(LoginFailedText)) == Some(Destructive)
  {
    DestructiveWithout(LoginFailedText, 'u');
  }

  /** The default sign-up failure text is shown as an error. */
  lemma RegistrationFailedVariant()
    ensures AlertVariant(Some(RegistrationFailedText)) == Some(Destructive)
  {
    DestructiveWithout(RegistrationFailedText, 'u');
  }

  /** The already-registered text is shown as an error. */
  lemma AlreadyRegisteredVariant()
    ensures AlertVariant(Some(AlreadyRegisteredText)) == Some(Destructive)
  {
    DestructiveWithout(AlreadyRegisteredText, 'c');
  }

  /** What the backend's `signIn` did. */
  datatype SignInOutcome = SignedIn | SignInFailed(message: string)

  /** What the backend's `signUp` did: a response with or without a user, or an error. */
  datatype SignUpOutcome = SignUpResponse(hasUser: bool) | SignUpFailed(message: string)

  datatype Tab = LoginTab | RegisterTab

  class LoginPage {
    var isLoading: bool
    var error: Option<string>
    var activeTab: Tab

    /** `isLoading = false`, `error = null`, `activeTab = "login"`. */
    constructor ()
      ensures !isLoading && error == None && activeTab == LoginTab
    {
      isLoading := false;
      error := None;
      activeTab := LoginTab;
    }

    /** `onLogin`: the error is cleared, then set from a failure; loading ends either way. */
    method OnLogin(outcome: SignInOutcome)
      modifies this`isLoading, this`error
      ensures !isLoading
      ensures outcome.SignedIn? ==> error == None
      ensures outcome.SignInFailed? ==> error == Some(LoginErrorText(outcome.message))
    {
      isLoading := true;
      error := None;
      if outcome.SignInFailed? {
        if Contains(outcome.message, InvalidCredentials) {
          error := Some(InvalidCredentialsText);
        } else {
          error := Some(if outcome.message != "" then outcome.message else LoginFailedText);
        }
      }
      isLoading := false;
    }

    /**
      `onRegister`: a response with a user switches to the login tab with the
      success notice, one without a user gives the failure text, and an
      error gives its mapped text; loading ends either way.
    */
    method OnRegister(outcome: SignUpOutcome)
      modifies this`isLoading, this`error, this`activeTab
      ensures !isLoading
      ensures outcome == SignUpResponse(true) ==> activeTab == LoginTab && error == Some(RegisteredText)
      ensures outcome == SignUpResponse(false) ==> activeTab == old(activeTab) && error == Some(RegistrationFailedText)
      ensures outcome.SignUpFailed? ==> activeTab == old(activeTab) && error == Some(RegisterErrorText(outcome.message))
    {
      isLoading := true;
      error := None;
      match outcome {
        case SignUpResponse(hasUser) =>
          if hasUser {
            activeTab := LoginTab;
            error := Some(RegisteredText);
          } else {
            error := Some(RegistrationFailedText);
          }
        case SignUpFailed(message) =>
          if Contains(message, "Email address") && Contains(message, "invalid") {
            error := Some(EmailRejectedText);
          } else if Contains(message, "User already registered") {
            error := Some(AlreadyRegisteredText);
          } else {
            error := Some(if message != "" then message else RegistrationFailedText);
          }
      }
      isLoading := false;
    }
  }
}
