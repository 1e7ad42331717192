/** The session service that wraps the hosted identity provider's SDK. Every
    SDK call is a parameter holding the outcome the provider produced; the
    service keeps two session cells, `authStatus` and `currentUser`. */
module Auth {
  import opened Results

  datatype AuthUser = AuthUser(username: string, userId: string)

  /** An error thrown by the SDK: its `name` and `message`, "" when absent. */
  datatype SdkError = SdkError(name: string, message: string)

  /** What one SDK call produced: a value, or a thrown error. */
  datatype SdkResult<T> = SdkOk(value: T) | SdkErr(error: SdkError)

  /** The session the SDK returns; `idToken` is absent without a signed-in user. */
  datatype Session = Session(idToken: Option<string>)

  datatype SignUpOutput = SignUpOutput(isSignUpComplete: bool, userId: string, signUpStep: Option<string>)
  datatype SignInOutput = SignInOutput(isSignedIn: bool, signInStep: Option<string>)
  datatype ConfirmSignUpOutput = ConfirmSignUpOutput(isSignUpComplete: bool, signUpStep: Option<string>)
  datatype ResetPasswordOutput = ResetPasswordOutput(resetPasswordStep: string)

  /** The registration the service submits: the e-mail is both the user name
      and the `email` attribute, and automatic sign-in is requested. */
  datatype SignUpInput = SignUpInput(username: string, password: string, emailAttribute: string, autoSignIn: bool)

  datatype SignUpReply = SignUpReply(isSignUpComplete: bool, userId: string, signUpStep: Option<string>, message: string)
  datatype ConfirmSignUpReply = ConfirmSignUpReply(isSignUpComplete: bool, signUpStep: Option<string>, message: string)
  datatype SignInReply = SignInReply(isSignedIn: bool, signInStep: Option<string>, message: string)
  datatype ResetPasswordReply = ResetPasswordReply(resetPasswordStep: string, message: string)

  const SignUpMessage := "Sign-up successful! Please check your email for verification code."
  const ConfirmSignUpMessage := "Email verified successfully! You can now sign in."
  const SignInMessage := "Sign-in successful!"
  const ResetPasswordMessage := "Password reset code sent to your email."
  const ConfirmResetPasswordMessage := "Password reset successfully! You can now sign in with your new password."
  const NoAuthenticatedUser := "No authenticated user"

  /** The provider error names the service recognises, with their sentences. */
  const KnownErrors: map<string, string> := map[
    "UserNotFoundException" := "User not found. Please check your email or sign up.",
    "NotAuthorizedException" := "Incorrect password. Please try again.",
    "UserNotConfirmedException" := "Please confirm your email address before signing in.",
    "UsernameExistsException" := "An account with this email already exists.",
    "InvalidParameterException" := "Invalid email or password format.",
    "CodeMismatchException" := "Invalid verification code.",
    "ExpiredCodeException" := "Verification code has expired.",
    "LimitExceededException" := "Attempt limit exceeded. Please try again later."
  ]

  /** `getErrorMessage`: total, never empty; a recognised name gives its fixed
      sentence, anything else the error's own message or a generic fallback. */
  function ErrorMessage(error: SdkError): (m: string)
    ensures m != ""
    ensures error.name == "" ==> m == MessageOr(error.message, "An error occurred")
    ensures error.name in KnownErrors ==> m == KnownErrors[error.name]
    ensures error.name != "" && error.name !in KnownErrors ==>
              m == MessageOr(error.message, "An error occurred during authentication.")
  {
    if error.name == "" then MessageOr(error.message, "An error occurred")
    else if error.name == "UserNotFoundException" then "User not found. Please check your email or sign up."
    else if error.name == "NotAuthorizedException" then "Incorrect password. Please try again."
    else if error.name == "UserNotConfirmedException" then "Please confirm your email address before signing in."
    else if error.name == "UsernameExistsException" then "An account with this email already exists."
    else if error.name == "InvalidParameterException" then "Invalid email or password format."
    else if error.name == "CodeMismatchException" then "Invalid verification code."
    else if error.name == "ExpiredCodeException" then "Verification code has expired."
    else if error.name == "LimitExceededException" then "Attempt limit exceeded. Please try again later."
    else MessageOr(error.message, "An error occurred during authentication.")
  }

  /** The user a lookup produced, or none when it threw. */
  function UserOf(lookup: SdkResult<AuthUser>): Option<AuthUser> {
    if lookup.SdkOk? then Some(lookup.value) else None
  }

  /** `isAuthenticated`: a current-user lookup that never throws and writes
      no session state. */
  function IsAuthenticated(lookup: SdkResult<AuthUser>): (b: bool)
    ensures b <==> UserOf(lookup).Some?
  {
    match lookup
    case SdkOk(_) => true
    case SdkErr(_) => false
  }

  /** `getJwtToken`: the session's id token when there is a non-empty one;
      every failure, a missing token included, is "No authenticated user". */
  function GetJwtToken(session: SdkResult<Session>): (r: Result<string>)
    ensures r.Ok? <==> session.SdkOk? && session.value.idToken.Some? && session.value.idToken.value != ""
    ensures r.Ok? ==> r.value != "" && session.value.idToken == Some(r.value)
    ensures r.Err? ==> r.error == NoAuthenticatedUser
  {
    match session
    case SdkErr(_) => Err(NoAuthenticatedUser)
    case SdkOk(s) =>
      match s.idToken
      case None => Err(NoAuthenticatedUser)
      case Some(token) => if token == "" then Err(NoAuthenticatedUser) else Ok(token)
  }

  class AmplifyService {
    var authStatus: bool
    var currentUser: Option<AuthUser>

    /** The cells start signed out. (The constructor's own status check runs
        later, as `CheckAuthStatus`.) */
    constructor ()
      ensures !authStatus && currentUser == None
    {
      authStatus := false;
      currentUser := None;
    }

    /** `signUp`: submits the registration; writes no session state and
        rethrows provider errors through `ErrorMessage`. */
    method SignUp(email: string, password: string, sdk: SdkResult<SignUpOutput>)
      returns (input: SignUpInput, r: Result<SignUpReply>)
      ensures input == SignUpInput(email, password, email, true)
      ensures sdk.SdkOk? ==> r == Ok(SignUpReply(sdk.value.isSignUpComplete, sdk.value.userId,
                                                 sdk.value.signUpStep, SignUpMessage))
      ensures sdk.SdkErr? ==> r == Err(ErrorMessage(sdk.error))
    {
      input := SignUpInput(email, password, email, true);
      match sdk {
        case SdkOk(out) =>
          r := Ok(SignUpReply(out.isSignUpComplete, out.userId, out.signUpStep, SignUpMessage));
        case SdkErr(e) =>
          r := Err(ErrorMessage(e));
      }
    }

    /** `confirmSignUp`: submits the code; does not sign the user in. */
    method ConfirmSignUp(email: string, confirmationCode: string, sdk: SdkResult<ConfirmSignUpOutput>)
      returns (r: Result<ConfirmSignUpReply>)
      ensures sdk.SdkOk? ==> r == Ok(ConfirmSignUpReply(sdk.value.isSignUpComplete, sdk.value.signUpStep,
                                                        ConfirmSignUpMessage))
      ensures sdk.SdkErr? ==> r == Err(ErrorMessage(sdk.error))
    {
      match sdk {
        case SdkOk(out) =>
          r := Ok(ConfirmSignUpReply(out.isSignUpComplete, out.signUpStep, ConfirmSignUpMessage));
        case SdkErr(e) =>
          r := Err(ErrorMessage(e));
      }
    }

    /** `signIn`: on a signed-in answer the session cells are refreshed from
        two current-user lookups (`lookup` for the check, `fetch` for the
        user); otherwise the cells are untouched. */
    method SignIn(email: string, password: string, sdk: SdkResult<SignInOutput>,
                  lookup: SdkResult<AuthUser>, fetch: SdkResult<AuthUser>)
      returns (r: Result<SignInReply>)
      modifies this
      ensures sdk.SdkErr? ==> r == Err(ErrorMessage(sdk.error))
      ensures sdk.SdkOk? ==> r == Ok(SignInReply(sdk.value.isSignedIn, sdk.value.signInStep, SignInMessage))
      ensures sdk.SdkOk? && sdk.value.isSignedIn ==>
                authStatus == lookup.SdkOk?
                && currentUser == (if lookup.SdkOk? then UserOf(fetch) else old(currentUser))
      ensures !(sdk.SdkOk? && sdk.value.isSignedIn) ==>
                authStatus == old(authStatus) && currentUser == old(currentUser)
    {
      match sdk {
        case SdkOk(out) =>
          if out.isSignedIn {
            UpdateAuthStatus(lookup, fetch);
          }
          r := Ok(SignInReply(out.isSignedIn, out.signInStep, SignInMessage));
        case SdkErr(e) =>
          r := Err(ErrorMessage(e));
      }
    }

    /** `signOut`: both cells are cleared only after the provider call
        succeeds; on failure they keep their values and the mapped error is
        thrown. */
    method SignOut(sdk: SdkResult<()>) returns (r: Result<()>)
      modifies this
      ensures sdk.SdkOk? ==> r == Ok(()) && !authStatus && currentUser == None
      ensures sdk.SdkErr? ==> r == Err(ErrorMessage(sdk.error))
                              && authStatus == old(authStatus) && currentUser == old(currentUser)
    {
      match sdk {
        case SdkOk(_) =>
          authStatus := false;
          currentUser := None;
          r := Ok(());
        case SdkErr(e) =>
          r := Err(ErrorMessage(e));
      }
    }

    /** `getCurrentUser`: never throws; stores and returns the user found, or
        null when the lookup fails. */
    method GetCurrentUser(lookup: SdkResult<AuthUser>) returns (user: Option<AuthUser>)
      modifies this
      ensures user == UserOf(lookup) && currentUser == user
      ensures authStatus == old(authStatus)
    {
      match lookup {
        case SdkOk(u) => user := Some(u);
        case SdkErr(_) => user := None;
      }
      currentUser := user;
    }

    /** `updateAuthStatus`: the flag becomes the lookup's verdict; the user is
        fetched only when that verdict is true, and otherwise left as it was.
        (Its catch branch is unreachable: neither call it makes throws.) */
    method UpdateAuthStatus(lookup: SdkResult<AuthUser>, fetch: SdkResult<AuthUser>)
      modifies this
      ensures authStatus == lookup.SdkOk?
      ensures currentUser == (if lookup.SdkOk? then UserOf(fetch) else old(currentUser))
    {
      var isAuth := IsAuthenticated(lookup);
      authStatus := isAuth;
      if isAuth {
        var _ := GetCurrentUser(fetch);
      }
    }

    /** `checkAuthStatus`, started by the service's constructor. */
    method CheckAuthStatus(lookup: SdkResult<AuthUser>, fetch: SdkResult<AuthUser>)
      modifies this
      ensures authStatus == lookup.SdkOk?
      ensures currentUser == (if lookup.SdkOk? then UserOf(fetch) else old(currentUser))
    {
      UpdateAuthStatus(lookup, fetch);
    }

    /** `resetPassword`: starts the reset challenge; no session state is written. */
    method ResetPassword(email: string, sdk: SdkResult<ResetPasswordOutput>)
      returns (r: Result<ResetPasswordReply>)
      ensures sdk.SdkOk? ==> r == Ok(ResetPasswordReply(sdk.value.resetPasswordStep, ResetPasswordMessage))
      ensures sdk.SdkErr? ==> r == Err(ErrorMessage(sdk.error))
    {
      match sdk {
        case SdkOk(out) => r := Ok(ResetPasswordReply(out.resetPasswordStep, ResetPasswordMessage));
        case SdkErr(e) => r := Err(ErrorMessage(e));
      }
    }

    /** `confirmResetPassword`: completes the challenge; no session state is written. */
    method ConfirmResetPassword(email: string, confirmationCode: string, newPassword: string, sdk: SdkResult<()>)
      returns (r: Result<string>)
      ensures sdk.SdkOk? ==> r == Ok(ConfirmResetPasswordMessage)
      ensures sdk.SdkErr? ==> r == Err(ErrorMessage(sdk.error))
    {
      match sdk {
        case SdkOk(_) => r := Ok(ConfirmResetPasswordMessage);
        case SdkErr(e) => r := Err(ErrorMessage(e));
      }
    }
  }

  /** Every rejected provider call surfaces a non-empty message, and the eight
      recognised names give eight different sentences. */
  lemma KnownErrorsDistinct(a: string, b: string, ma: string, mb: string)
    requires a in KnownErrors && b in KnownErrors && a != b
    ensures ErrorMessage(SdkError(a, ma)) != ErrorMessage(SdkError(b, mb))
  {
  }
}
