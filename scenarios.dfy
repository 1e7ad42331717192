/** Traces with concrete inputs, verified against the contracts: the sign-in
    and registration flows of the login page, the route guard, the list
    filters and the create form. */
module Scenarios {
  import opened Results
  import opened Text
  import opened TaskModel
  import opened Auth
  import opened AuthGuard
  import opened TaskService
  import opened TaskList
  import opened Login

  /** No SDK call in these runs fails unless a scenario says so. */
  const Unused := SdkError("NotUsedException", "")
  const Alice := AuthUser("a@b.com", "user-1")

  /** Signing in with "a@b.com" / "Abcdef12": the provider accepts, the
      session is marked authenticated with the fetched user, and the page
      then asks for the task view. */
  method LoginHappyPath() returns (call: AuthCall, navigate: Option<seq<string>>, authenticated: bool,
                                   user: Option<AuthUser>)
    ensures call == SignInCall("a@b.com", "Abcdef12")
    ensures navigate == Some(["/tasks"])
    ensures authenticated && user == Some(Alice)
  {
    var auth := new AmplifyService();
    var page := new LoginComponent(auth);
    page.email, page.password := "a@b.com", "Abcdef12";
    var replies := ProviderReplies(SdkErr(Unused), SdkErr(Unused),
                                   SdkOk(SignInOutput(true, None)), SdkOk(Alice), SdkOk(Alice));
    call, navigate := page.OnSubmit(true, replies);
    authenticated, user := auth.authStatus, auth.currentUser;
  }

  const NewUser := "new@b.com"
  const NewPassword := "Abcdef12"
  const Code := "123456"

  /** The provider answers for a registration that needs the emailed code. */
  const RegistrationReplies := ProviderReplies(SdkOk(SignUpOutput(false, "user-2", Some(ConfirmSignUpStep))),
                                               SdkOk(ConfirmSignUpOutput(true, None)),
                                               SdkOk(SignInOutput(true, None)), SdkOk(Alice), SdkOk(Alice))

  /** A fresh page that switches to registration and signs up; the provider
      asks for the emailed code. */
  method SignedUpPage() returns (page: LoginComponent, signUp: AuthCall)
    ensures fresh(page) && fresh(page.auth) && page.Valid()
    ensures signUp == SignUpCall(SignUpInput(NewUser, NewPassword, NewUser, true))
    ensures page.isLoginMode && page.needsConfirmation && page.codeRequired && page.passwordPattern
    ensures page.email == NewUser && page.password == NewPassword
  {
    var auth := new AmplifyService();
    page := new LoginComponent(auth);
    page.ToggleMode();
    page.email, page.password := NewUser, NewPassword;
    assert MatchesComplexity(page.password) by {
      assert IsAsciiUpper(page.password[0]) && IsAsciiLower(page.password[1]) && IsAsciiDigit(page.password[6]);
    }
    var navigate;
    signUp, navigate := page.OnSubmit(true, RegistrationReplies);
  }

  /** That page then confirms the emailed code. */
  method RegisterAndConfirm()
    returns (page: LoginComponent, signUp: AuthCall, confirm: AuthCall, awaitingAfterSignUp: bool)
    ensures fresh(page) && fresh(page.auth) && page.Valid()
    ensures signUp == SignUpCall(SignUpInput(NewUser, NewPassword, NewUser, true))
    ensures awaitingAfterSignUp
    ensures confirm == ConfirmSignUpCall(NewUser, Code)
    ensures page.isLoginMode && !page.needsConfirmation && page.confirmationCode == "" && page.codeRequired
  {
    page, signUp := SignedUpPage();
    awaitingAfterSignUp := page.needsConfirmation;
    page.confirmationCode := Code;
    assert MatchesComplexity(page.password) by {
      assert IsAsciiUpper(page.password[0]) && IsAsciiLower(page.password[1]) && IsAsciiDigit(page.password[6]);
    }
    var navigate;
    confirm, navigate := page.OnSubmit(true, RegistrationReplies);
  }

  /** Registration that needs the emailed code. The sign-up leaves the page in
      sign-in mode awaiting the code; submitting "123456" confirms it and
      clears the flag and the field. */
  method RegistrationWithConfirmation()
    returns (signUp: AuthCall, confirm: AuthCall, awaitingAfterSignUp: bool, awaitingAfterConfirm: bool,
             codeAfterConfirm: string, loginMode: bool)
    ensures signUp == SignUpCall(SignUpInput("new@b.com", "Abcdef12", "new@b.com", true))
    ensures awaitingAfterSignUp
    ensures confirm == ConfirmSignUpCall("new@b.com", "123456")
    ensures !awaitingAfterConfirm && codeAfterConfirm == "" && loginMode
  {
    var page;
    page, signUp, confirm, awaitingAfterSignUp := RegisterAndConfirm();
    awaitingAfterConfirm, codeAfterConfirm, loginMode := page.needsConfirmation, page.confirmationCode, page.isLoginMode;
  }

  /** After that confirmation the next sign-in submit is stopped by the form
      itself, because the code field keeps its `required` validator while now
      being empty: no provider call is made. Switching mode twice removes that
      validator, and the same sign-in then goes through. */
  method ConfirmedUserIsBlocked() returns (blocked: AuthCall, retried: AuthCall, loginMode: bool)
    ensures blocked == NoAuthCall
    ensures retried == SignInCall("new@b.com", "Abcdef12")
    ensures loginMode
  {
    var page, _, _, _ := RegisterAndConfirm();
    page.email, page.password := NewUser, NewPassword;
    var navigate;
    blocked, navigate := page.OnSubmit(true, RegistrationReplies);
    page.ToggleMode();
    page.ToggleMode();
    page.email, page.password := NewUser, NewPassword;
    PasswordAccepted(page.password, false);
    retried, navigate := page.OnSubmit(true, RegistrationReplies);
    loginMode := page.isLoginMode;
  }

  /** Four emoji are four characters but eight UTF-16 code units, so they
      pass the sign-in password's length check. */
  lemma AstralPasswordIsLongEnough()
    ensures |"\U{1F600}\U{1F600}\U{1F600}\U{1F600}"| == 4
    ensures PasswordControlErrors("\U{1F600}\U{1F600}\U{1F600}\U{1F600}", false) == {}
  {
    var pw := "\U{1F600}\U{1F600}\U{1F600}\U{1F600}";
    assert pw[1..][1..][1..][1..] == [];
    assert Utf16Length(pw) == 8;
  }

  /** Switching mode twice comes back to the mode the page started in. */
  method ToggleTwiceRestoresMode() returns (before: bool, after: bool)
    ensures before == after
  {
    var auth := new AmplifyService();
    var page := new LoginComponent(auth);
    before := page.isLoginMode;
    page.ToggleMode();
    page.ToggleMode();
    after := page.isLoginMode;
  }

  /** A signed-out visitor who opens the task view is sent to the login page. */
  lemma GuardRedirectsSignedOutVisitor()
    ensures CanActivate(Resolved(IsAuthenticated(SdkErr(SdkError("UserUnAuthenticatedException", "")))))
            == Decision(false, Some(["/login"]))
  {
  }

  const Fresh := Task("t1", "u", "write report", Pending, 2000, 0, None)
  const Overdue := Task("t2", "u", "pay bill", Pending, 500, 0, None)
  const Done := Task("t3", "u", "buy milk", Completed, 3000, 0, None)

  /** Three tasks at time 1000: a pending one still in time, a pending one
      past its deadline and a completed one. "expired" selects only the
      overdue task, although its status still says pending. */
  lemma ExpiredFilterScenario()
    ensures FilteredTasks([Fresh, Overdue, Done], "expired", 1000) == [Overdue]
  {
    var c := ExpiredAt(1000);
    assert [Done][1..] == [];
    assert FilterBy([Done], c) == [];
    assert [Overdue, Done][1..] == [Done];
    assert FilterBy([Overdue, Done], c) == [Overdue];
    assert [Fresh, Overdue, Done][1..] == [Overdue, Done];
  }

  /** The same tasks under "pending": only the one still in time. */
  lemma PendingFilterScenario()
    ensures FilteredTasks([Fresh, Overdue, Done], "pending", 1000) == [Fresh]
  {
    var c := PendingAt(1000);
    assert [Done][1..] == [];
    assert FilterBy([Done], c) == [];
    assert [Overdue, Done][1..] == [Done];
    assert FilterBy([Overdue, Done], c) == [];
    assert [Fresh, Overdue, Done][1..] == [Overdue, Done];
  }

  /** The same tasks under "completed": only the finished one. */
  lemma CompletedFilterScenario()
    ensures FilteredTasks([Fresh, Overdue, Done], "completed", 1000) == [Done]
  {
    assert [Done][1..] == [];
    assert FilterBy([Done], CompletedOnly) == [Done];
    assert [Overdue, Done][1..] == [Done];
    assert FilterBy([Overdue, Done], CompletedOnly) == [Done];
    assert [Fresh, Overdue, Done][1..] == [Overdue, Done];
  }

  /** A description of blanks passes the form's checks and is sent trimmed,
      that is empty; no date was entered, so none is sent. */
  method BlankDescriptionIsSentEmpty(created: Task) returns (call: TaskCall, listed: seq<Task>)
    ensures call == CreateCall(CreateTaskRequest("", None))
    ensures listed == [created]
  {
    var page := new TaskListComponent();
    page.description := "   ";
    TrimAllWhitespace(page.description);
    call := page.CreateTask(Ok(created));
    listed := page.tasks;
  }

  /** Ninety minutes and a few seconds before the deadline the list shows
      "1h 30m remaining"; one second before it, "0m remaining". */
  lemma RemainingTimeText()
    ensures GetTimeRemaining(5_405_000, 0) == "1h 30m remaining"
    ensures GetTimeRemaining(1_000, 0) == "0m remaining"
  {
    assert DecimalText(1) == "1" && DecimalText(30) == "30";
  }
}
