/** The sign-in / registration page (`LoginComponent`): one reactive form
    whose validators change with the mode, and a submit handler that runs
    confirmation, sign-in or sign-up through the authentication service. */
module Login {
  import opened Results
  import opened Text
  import opened Forms
  import opened Auth

  const MinPasswordLength := 8

  const EmailRequiredMessage := "Email is required"
  const EmailInvalidMessage := "Please enter a valid email address"
  const PasswordRequiredMessage := "Password is required"
  const PasswordTooShortMessage := "Password must be at least 8 characters long"
  const PasswordPatternMessage :=
    "Password must contain at least one uppercase letter, one lowercase letter, and one number"
  const CodeRequiredMessage := "Confirmation code is required"
  const ConfirmedMessage := "Email confirmed successfully! You can now sign in."
  const ConfirmSignUpStep := "CONFIRM_SIGN_UP"

  /** The characters a regular-expression `.` does not match. */
  predicate IsLineTerminator(c: char) {
    c == '\n' || c == '\r' || c as int == 0x2028 || c as int == 0x2029
  }

  /** The sign-up password expression `^(?=.*[a-z])(?=.*[A-Z])(?=.*\d).+$`
      (no flags): one non-empty line holding a lower-case letter, an
      upper-case letter and a digit; such a line has at least three
      characters, since no character is of two of those kinds. */
  predicate MatchesComplexity(pw: string)
    ensures MatchesComplexity(pw) ==> |pw| >= 3
  {
    && pw != []
    && (forall i :: 0 <= i < |pw| ==> !IsLineTerminator(pw[i]))
    && (exists i :: 0 <= i < |pw| && IsAsciiLower(pw[i]))
    && (exists i :: 0 <= i < |pw| && IsAsciiUpper(pw[i]))
    && (exists i :: 0 <= i < |pw| && IsAsciiDigit(pw[i]))
  }

  /** The expression on a few passwords: it needs all three kinds of
      character, and a line break anywhere defeats it. */
  lemma ComplexityExamples()
    ensures MatchesComplexity("Abcdef12")
    ensures !MatchesComplexity("abcdef12") && !MatchesComplexity("ABCDEF12") && !MatchesComplexity("Abcdefgh")
    ensures !MatchesComplexity("Abc\ndef12")
  {
    var good := "Abcdef12";
    assert IsAsciiUpper(good[0]) && IsAsciiLower(good[1]) && IsAsciiDigit(good[6]);
    assert IsLineTerminator("Abc\ndef12"[3]);
  }

  /** The email control: `required` and `email`; `wellFormed` says whether
      the value matches Angular's email expression. */
  function EmailControlErrors(email: string, wellFormed: bool): set<ValidationError> {
    RequiredErrors(email) + EmailErrors(email, wellFormed)
  }

  /** The password control: `required` and `minLength(8)`, plus the
      complexity pattern while it is installed. */
  function PasswordControlErrors(password: string, pattern: bool): set<ValidationError> {
    RequiredErrors(password) + MinLengthErrors(password, MinPasswordLength)
    + (if pattern then PatternErrors(password, MatchesComplexity(password)) else {})
  }

  /** The confirmation-code control: `required` while it is installed. */
  function CodeControlErrors(code: string, required: bool): set<ValidationError> {
    if required then RequiredErrors(code) else {}
  }

  /** A password passes its control exactly when it is at least eight UTF-16
      code units long and, in registration, meets the complexity expression. */
  lemma PasswordAccepted(password: string, pattern: bool)
    ensures PasswordControlErrors(password, pattern) == {} <==>
              Utf16Length(password) >= MinPasswordLength && (pattern ==> MatchesComplexity(password))
  {
    if password == "" {
      assert Required in PasswordControlErrors(password, pattern);
    } else if Utf16Length(password) < MinPasswordLength {
      assert MinLength in PasswordControlErrors(password, pattern);
    } else if pattern && !MatchesComplexity(password) {
      assert Pattern in PasswordControlErrors(password, pattern);
    }
  }

  /** What the provider answers to each call `onSubmit` can make; the
      sign-in answer comes with the two current-user lookups that the
      service's status refresh performs. */
  datatype ProviderReplies = ProviderReplies(
    signUp: SdkResult<SignUpOutput>,
    confirmSignUp: SdkResult<ConfirmSignUpOutput>,
    signIn: SdkResult<SignInOutput>,
    lookup: SdkResult<AuthUser>,
    fetch: SdkResult<AuthUser>)

  /** The service call a submit made, with what it passed. */
  datatype AuthCall =
    | NoAuthCall
    | ConfirmSignUpCall(email: string, code: string)
    | SignInCall(email: string, password: string)
    | SignUpCall(input: SignUpInput)

  class LoginComponent {
    const auth: AmplifyService
    var isLoginMode: bool
    var needsConfirmation: bool
    var loading: bool
    var errorMessage: string
    var successMessage: string
    // The form's values.
    var email: string
    var password: string
    var confirmationCode: string
    // Which validators are installed: the complexity pattern on the
    // password, `required` on the confirmation code.
    var passwordPattern: bool
    var codeRequired: bool

    /** Registration mode never awaits a code and always checks complexity;
        a pending confirmation always requires the code; in sign-in mode the
        complexity pattern is left over exactly when the code is required
        (both are set by a sign-up that needs confirmation). */
    predicate Valid()
      reads this
    {
      && (!isLoginMode ==> !needsConfirmation && passwordPattern && !codeRequired)
      && (needsConfirmation ==> codeRequired)
      && (isLoginMode ==> passwordPattern == codeRequired)
    }

    /** The form as created: sign-in mode, empty values, `required` and
        `minLength(8)` on the password and no validator on the code. */
    constructor (auth: AmplifyService)
      ensures this.auth == auth && Valid()
      ensures isLoginMode && !needsConfirmation && !loading && errorMessage == "" && successMessage == ""
      ensures email == "" && password == "" && confirmationCode == ""
      ensures !passwordPattern && !codeRequired
    {
      this.auth := auth;
      isLoginMode, needsConfirmation, loading := true, false, false;
      errorMessage, successMessage := "", "";
      email, password, confirmationCode := "", "", "";
      passwordPattern, codeRequired := false, false;
    }

    /** The negation of `authForm.invalid`, given whether the email matches
        Angular's email expression: a well-formed email, a long enough
        password that meets the pattern while it is installed, and a code
        while it is required. */
    predicate FormValid(emailWellFormed: bool)
      reads this
      ensures FormValid(emailWellFormed) <==>
                && email != "" && emailWellFormed
                && Utf16Length(password) >= MinPasswordLength && (passwordPattern ==> MatchesComplexity(password))
                && (codeRequired ==> confirmationCode != "")
    {
      PasswordAccepted(password, passwordPattern);
      && EmailControlErrors(email, emailWellFormed) == {}
      && PasswordControlErrors(password, passwordPattern) == {}
      && CodeControlErrors(confirmationCode, codeRequired) == {}
    }

    twostate predicate FormUnchanged()
      reads this
    {
      && isLoginMode == old(isLoginMode) && needsConfirmation == old(needsConfirmation)
      && email == old(email) && password == old(password) && confirmationCode == old(confirmationCode)
      && passwordPattern == old(passwordPattern) && codeRequired == old(codeRequired)
    }

    twostate predicate AuthUnchanged()
      reads auth
    {
      auth.authStatus == old(auth.authStatus) && auth.currentUser == old(auth.currentUser)
    }

    /** `updatePasswordValidators`: the complexity pattern is installed in
        registration mode and removed in sign-in mode. A helper of
        `ToggleMode` and `OnSubmit` (private in the page), each of which
        calls it with the code validator and the pending confirmation
        cleared; from there it restores the class invariant. */
    method UpdatePasswordValidators()
      modifies this
      ensures passwordPattern == !isLoginMode
      ensures !codeRequired && !needsConfirmation ==> Valid()
      ensures isLoginMode == old(isLoginMode) && needsConfirmation == old(needsConfirmation)
      ensures loading == old(loading) && errorMessage == old(errorMessage) && successMessage == old(successMessage)
      ensures email == old(email) && password == old(password) && confirmationCode == old(confirmationCode)
      ensures codeRequired == old(codeRequired)
    {
      passwordPattern := !isLoginMode;
    }

    /** `onSubmit`. An invalid form changes nothing and calls nothing.
        Otherwise: a pending confirmation submits the code; sign-in mode
        signs in and then navigates to the task list; registration mode signs
        up and either waits for the emailed code or returns to an empty
        sign-in form. A failure shows the service's message and leaves the
        form as it was. */
    method OnSubmit(emailWellFormed: bool, replies: ProviderReplies)
      returns (call: AuthCall, navigate: Option<seq<string>>)
      requires Valid()
      modifies this, auth
      ensures Valid()
      ensures !old(FormValid(emailWellFormed)) ==>
                call == NoAuthCall && navigate == None && unchanged(this) && unchanged(auth)
      ensures old(FormValid(emailWellFormed)) ==> !loading
      // Confirming the emailed code.
      ensures old(FormValid(emailWellFormed)) && old(isLoginMode) && old(needsConfirmation) ==>
                && call == ConfirmSignUpCall(old(email), old(confirmationCode))
                && navigate == None && unchanged(auth)
                && match replies.confirmSignUp {
                     case SdkOk(_) =>
                       && successMessage == ConfirmedMessage && errorMessage == ""
                       && !needsConfirmation && confirmationCode == "" && isLoginMode
                       && email == old(email) && password == old(password)
                       && passwordPattern == old(passwordPattern) && codeRequired == old(codeRequired)
                     case SdkErr(e) =>
                       successMessage == "" && errorMessage == ErrorMessage(e) && FormUnchanged()
                   }
      // Signing in.
      ensures old(FormValid(emailWellFormed)) && old(isLoginMode) && !old(needsConfirmation) ==>
                && call == SignInCall(old(email), old(password))
                && FormUnchanged() && successMessage == ""
                && match replies.signIn {
                     case SdkOk(out) =>
                       && navigate == Some(["/tasks"]) && errorMessage == ""
                       && (out.isSignedIn ==>
                             auth.authStatus == replies.lookup.SdkOk?
                             && auth.currentUser == (if replies.lookup.SdkOk? then UserOf(replies.fetch)
                                                     else old(auth.currentUser)))
                       && (!out.isSignedIn ==> AuthUnchanged())
                     case SdkErr(e) =>
                       navigate == None && errorMessage == ErrorMessage(e) && AuthUnchanged()
                   }
      // Registering.
      ensures old(FormValid(emailWellFormed)) && !old(isLoginMode) ==>
                && call == SignUpCall(SignUpInput(old(email), old(password), old(email), true))
                && navigate == None && unchanged(auth)
                && match replies.signUp {
                     case SdkOk(out) =>
                       && successMessage == SignUpMessage && errorMessage == ""
                       && isLoginMode && confirmationCode == old(confirmationCode)
                       && (out.signUpStep == Some(ConfirmSignUpStep) ==>
                             && needsConfirmation && codeRequired && passwordPattern
                             && email == old(email) && password == old(password))
                       && (out.signUpStep != Some(ConfirmSignUpStep) ==>
                             && !needsConfirmation && !codeRequired && !passwordPattern
                             && email == "" && password == "")
                     case SdkErr(e) =>
                       successMessage == "" && errorMessage == ErrorMessage(e) && FormUnchanged()
                   }
    {
      if !FormValid(emailWellFormed) {
        return NoAuthCall, None;
      }
      loading := true;
      errorMessage, successMessage := "", "";
      navigate := None;
      if isLoginMode {
        if needsConfirmation {
          call := ConfirmSignUpCall(email, confirmationCode);
          var r := auth.ConfirmSignUp(email, confirmationCode, replies.confirmSignUp);
          match r {
            case Ok(_) =>
              successMessage := ConfirmedMessage;
              needsConfirmation := false;
              confirmationCode := "";
            case Err(message) =>
              errorMessage := message;
          }
        } else {
          call := SignInCall(email, password);
          var r := auth.SignIn(email, password, replies.signIn, replies.lookup, replies.fetch);
          match r {
            case Ok(_) =>
              navigate := Some(["/tasks"]);
            case Err(message) =>
              errorMessage := message;
          }
        }
      } else {
        var input, r := auth.SignUp(email, password, replies.signUp);
        call := SignUpCall(input);
        match r {
          case Ok(reply) =>
            successMessage := reply.message;
            if reply.signUpStep == Some(ConfirmSignUpStep) {
              needsConfirmation := true;
              isLoginMode := true;
              codeRequired := true;
            } else {
              isLoginMode := true;
              email, password := "", "";
              UpdatePasswordValidators();
            }
          case Err(message) =>
            errorMessage := message;
        }
      }
      loading := false;
    }

    /** `toggleMode`: switches between sign-in and registration, clears the
        form and both messages, drops any pending confirmation and installs
        the new mode's validators. */
    method ToggleMode()
      modifies this
      ensures isLoginMode == !old(isLoginMode) && !needsConfirmation && Valid()
      ensures errorMessage == "" && successMessage == ""
      ensures email == "" && password == "" && confirmationCode == ""
      ensures passwordPattern == !isLoginMode && !codeRequired
      ensures loading == old(loading)
    {
      isLoginMode := !isLoginMode;
      needsConfirmation := false;
      errorMessage, successMessage := "", "";
      email, password, confirmationCode := "", "", "";
      codeRequired := false;
      UpdatePasswordValidators();
    }

    /** `getEmailErrorMessage`: "required" first, then the format. */
    function GetEmailErrorMessage(emailWellFormed: bool): (m: string)
      reads this
      ensures m == "" <==> EmailControlErrors(email, emailWellFormed) == {}
      ensures email == "" ==> m == EmailRequiredMessage
      ensures email != "" && !emailWellFormed ==> m == EmailInvalidMessage
    {
      var errors := EmailControlErrors(email, emailWellFormed);
      if Required in errors then EmailRequiredMessage
      else if EmailFormat in errors then EmailInvalidMessage
      else ""
    }

    /** `getPasswordErrorMessage`: "required", then length, then complexity. */
    function GetPasswordErrorMessage(): (m: string)
      reads this
      ensures m == "" <==> PasswordControlErrors(password, passwordPattern) == {}
      ensures password == "" ==> m == PasswordRequiredMessage
      ensures password != "" && Utf16Length(password) < MinPasswordLength ==> m == PasswordTooShortMessage
      ensures Utf16Length(password) >= MinPasswordLength && passwordPattern && !MatchesComplexity(password) ==>
                m == PasswordPatternMessage
    {
      var errors := PasswordControlErrors(password, passwordPattern);
      if Required in errors then PasswordRequiredMessage
      else if MinLength in errors then PasswordTooShortMessage
      else if Pattern in errors then PasswordPatternMessage
      else ""
    }

    /** `getConfirmationCodeErrorMessage`. */
    function GetConfirmationCodeErrorMessage(): (m: string)
      reads this
      ensures m == CodeRequiredMessage <==> codeRequired && confirmationCode == ""
      ensures m != CodeRequiredMessage ==> m == ""
    {
      if Required in CodeControlErrors(confirmationCode, codeRequired) then CodeRequiredMessage else ""
    }
  }
}
