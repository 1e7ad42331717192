# A verified model of the Angular to-do client

The client is a single-page Angular application. Users sign in or register
through AWS Amplify Auth (Cognito). They then list, create, edit, complete
and delete tasks through a REST API that expects a Bearer token. This
project models the client's local logic in Dafny and proves what that logic
promises.

What the model covers:

- **Task presentation and expiry** (`TaskService`, `task_service.dfy`):
  - the case-insensitive badge class of a status;
  - the expiry test over the server's status and the deadline;
  - the "time remaining" text, with `Date.now()` passed in as `now`;
  - how each of the four CRUD calls is authorised and addressed. The
    transport is abstracted into an `Exchange` value: the request that
    would be sent, and how the call settled.
- **The task-list page** (`TaskList.TaskListComponent`, `task_list.dfy`):
  - a class whose fields are the list, the loading flag, the error message,
    the filter, the edit state and the two forms' values;
  - each handler is a method that takes the server's answer as an input;
  - filters and counts are functions over the list.
- **The login page** (`Login.LoginComponent`, `login.dfy`):
  - the mode, the confirmation flag and the two messages;
  - the form's values, and which validators are installed at any moment;
  - `onSubmit`, `toggleMode`, `updatePasswordValidators` and the three
    error getters.
- **Session state and error mapping** (`Auth`, `auth.dfy`):
  - the two session cells `authStatus` and `currentUser` as fields of
    `AmplifyService`;
  - every SDK answer (`SdkResult`) as an input;
  - `getErrorMessage` as a total function.
- **The route guard** (`AuthGuard`, `auth_guard.dfy`): allow, or redirect to
  `/login`.

Supporting modules:

- `Results`: Option and Result, and JavaScript's `message || fallback`.
- `Text`: JavaScript's `trim`, `toLowerCase` and decimal rendering of
  numbers, with parsers used to state round trips.
- `TaskModel`: the task and request shapes from
  `src/app/models/task.model.ts`.
- `Forms`: the Angular validators the pages use. Every validator except
  `required` ignores an empty value.
- `Scenarios`: traces with concrete inputs, verified against the contracts.

Behaviour of the code worth knowing, as the model states it:

- Sign-up that needs a code installs `required` on the confirmation-code
  field. After a successful confirmation that validator stays, while the
  field is cleared. The next sign-in submit is therefore rejected by the
  form itself, and no provider call is made. Switching mode, which clears
  the validator, lets it through (`Scenarios.ConfirmedUserIsBlocked`).
- A description made only of blanks passes `required` and `minLength(1)`.
  It is sent trimmed, that is as the empty string
  (`Scenarios.BlankDescriptionIsSentEmpty`).
- In the filter scenario (three tasks at time 1000: one pending and in
  time, one pending and overdue, one completed), "pending" selects the
  first task (`Scenarios.PendingFilterScenario`).
- Lengths are counted as JavaScript counts them, in UTF-16 code units
  (`Text.Utf16Length`): a character beyond U+FFFF counts twice toward
  `minLength` (`Scenarios.AstralPasswordIsLongEnough`).
- A completed task whose deadline has passed is listed both under
  "completed" and under "expired".

## Model

| member | source | states |
|---|---|---|
| TaskModel.StatusName | src/app/models/task.model.ts:5 | each status has a non-empty API spelling |
| TaskModel.StatusNamesDistinct | src/app/models/task.model.ts:5 | different statuses have different API spellings |
| Results.MessageOr | src/app/components/task-list-component/task-list-component.ts:68 | `message \|\| fallback` is the message when it is non-empty and the fallback otherwise, so never empty when the fallback is not |
| Text.Trim | src/app/components/task-list-component/task-list-component.ts:87 | `trim()` is empty exactly when the text is all white space; otherwise it is the slice from the first to the last non-white character, and only white space follows it |
| Text.Utf16Length | src/app/components/login-component/login-component.ts:39 | the length JavaScript reports: the number of characters plus one for each character beyond U+FFFF, so between one and two code units per character, and equal to the character count iff no character lies beyond U+FFFF |
| Text.ToLowerEqualIff | src/app/services/task-service.ts:45 | two strings lower-case to the same text iff they are equal ignoring letter case |
| Text.DecimalText | src/app/services/task-service.ts:73-75 | a number's decimal text is non-empty, all digits, with no leading zero |
| Text.DecimalRoundTrip | src/app/services/task-service.ts:73-75 | the decimal text of a number reads back as that number |
| Text.SpanDigitsOf | src/app/services/task-service.ts:73-75 | splitting digits followed by a non-digit tail recovers both parts |
| TaskService.GetStatusBadgeClass | src/app/services/task-service.ts:44-53 | "completed" in any case gives badge-success, "expired" in any case gives badge-danger, everything else gives badge-warning, each as an iff |
| TaskService.BadgeIgnoresCase | src/app/services/task-service.ts:45 | statuses equal ignoring case get the same badge |
| TaskService.BadgeOfStatus | src/app/services/task-service.ts:44-53 | Completed, Expired and Pending, as the API spells them, get success, danger and warning |
| TaskService.IsTaskExpired | src/app/services/task-service.ts:59-61 | an "Expired" status is always expired; otherwise a task is expired iff its remaining-time text says "Expired", except at the deadline's own millisecond, which that text already calls expired while the task is still in time |
| TaskService.ExpiryIsMonotone | src/app/services/task-service.ts:59-61 | once a task is expired at some time, it stays expired at every later time |
| TaskService.GetTimeRemaining | src/app/services/task-service.ts:63-77 | "Expired" iff no time is left; under a minute left gives "0m remaining" |
| TaskService.TimeRemainingReadsBack | src/app/services/task-service.ts:69-76 | the text reads back as the time left rounded down to whole minutes: hours only when at least an hour is left, with minutes below 60 beside them |
| TaskService.ParseHoursText | src/app/services/task-service.ts:73 | an "Hh Mm remaining" text reads back as its two numbers |
| TaskService.ParseMinutesText | src/app/services/task-service.ts:75 | an "Mm remaining" text reads back as its number |
| TaskService.MinuteSplit | src/app/services/task-service.ts:69-70 | floor division brackets the time left and splits it into hours and minutes |
| TaskService.GetAuthHeaders | src/app/services/task-service.ts:16-22 | headers exist iff a token was obtained; the Authorization header parses back as a Bearer credential (section 2.1 of RFC 6750) carrying exactly that token; otherwise the error is "No authenticated user" |
| TaskService.ItemUrlRoundTrip | src/app/services/task-service.ts:24-42 | the item URL addresses its own task id, and the collection URL addresses the collection |
| TaskService.GetTasks | src/app/services/task-service.ts:24-27 | without a token nothing is sent and the error is "No authenticated user"; with one, a GET of the collection URL carrying the token as Bearer credential and a JSON content type, settling as the server answers |
| TaskService.CreateTask | src/app/services/task-service.ts:29-32 | the same, as a POST of the collection URL whose body is the request |
| TaskService.UpdateTask | src/app/services/task-service.ts:34-37 | the same, as a PUT of that task's item URL whose body is the update |
| TaskService.DeleteTask | src/app/services/task-service.ts:39-42 | the same, as a DELETE of that task's item URL with no body |
| Auth.ErrorMessage | src/app/services/amplify-service.ts:223-246 | never empty; no name gives the message or "An error occurred"; each of the eight names gives its sentence; any other name gives the message or the authentication fallback |
| Auth.KnownErrorsDistinct | src/app/services/amplify-service.ts:226-242 | the eight named errors map to eight different sentences |
| Auth.IsAuthenticated | src/app/services/amplify-service.ts:154-161 | true iff the current-user lookup succeeds |
| Auth.GetJwtToken | src/app/services/amplify-service.ts:138-151 | a token iff the session holds a non-empty id token, which is returned; every failure is "No authenticated user" |
| Auth.AmplifyService.constructor | src/app/services/amplify-service.ts:29-32 | both cells start signed out |
| Auth.AmplifyService.SignUp | src/app/services/amplify-service.ts:40-65 | sends the email as username and email attribute with auto sign-in; returns the provider's answer with the sign-up message, or the mapped error; writes no session state |
| Auth.AmplifyService.ConfirmSignUp | src/app/services/amplify-service.ts:68-86 | returns the answer with the verified message, or the mapped error; writes no session state |
| Auth.AmplifyService.SignIn | src/app/services/amplify-service.ts:89-111 | refreshes the cells only when the provider says signed in; otherwise leaves them; errors are mapped |
| Auth.AmplifyService.SignOut | src/app/services/amplify-service.ts:114-123 | clears both cells only after the provider succeeds; on failure they keep their values and the mapped error is returned |
| Auth.AmplifyService.GetCurrentUser | src/app/services/amplify-service.ts:126-135 | never fails; stores and returns the user, or null |
| Auth.AmplifyService.UpdateAuthStatus | src/app/services/amplify-service.ts:203-215 | the status is the lookup's result; the user is fetched only when it is true, and otherwise left as it was |
| Auth.AmplifyService.CheckAuthStatus | src/app/services/amplify-service.ts:218-220 | the same effect as the status refresh |
| Auth.AmplifyService.ResetPassword | src/app/services/amplify-service.ts:164-180 | returns the next step with the reset message, or the mapped error; writes no session state |
| Auth.AmplifyService.ConfirmResetPassword | src/app/services/amplify-service.ts:183-200 | returns the success message, or the mapped error; writes no session state |
| AuthGuard.CanActivate | src/app/guards/auth-guard.ts:11-26 | allows iff the check resolves true, then with no redirect; a false or thrown check redirects to ['/login'] |
| AuthGuard.GuardFollowsLookup | src/app/guards/auth-guard.ts:13-19 | behind the session service's check, access is allowed iff the current-user lookup succeeds |
| TaskList.NewTaskRequest | src/app/components/task-list-component/task-list-component.ts:86-89 | the date is sent iff one was entered, and then as entered; the description sent is the trimmed text, so it is empty iff the input was all white space, and otherwise neither starts nor ends with white space |
| TaskList.FilterBy | src/app/components/task-list-component/task-list-component.ts:181-185 | `filter` keeps exactly the matching tasks, each as often as before, in order |
| TaskList.FilteredTasks | src/app/components/task-list-component/task-list-component.ts:178-189 | "completed", "pending" and "expired" each give the list filtered by their criterion, keeping every matching task as often as it occurs and in order; any other value keeps the whole list |
| TaskList.PendingIsDisjoint | src/app/components/task-list-component/task-list-component.ts:181-185 | no task is both "pending" and "completed" or "expired" |
| TaskList.CompletedOverdueInBoth | src/app/components/task-list-component/task-list-component.ts:181-185 | a completed task past its deadline is both "completed" and "expired" |
| TaskList.FiltersCoverTasks | src/app/components/task-list-component/task-list-component.ts:178-189 | every task is under at least one of the three filters |
| TaskList.CountsCoverTasks | src/app/components/task-list-component/task-list-component.ts:192-204 | pending plus expired is at most the list's length, and the three counts together are at least that |
| TaskList.WithoutTask | src/app/components/task-list-component/task-list-component.ts:117 | keeps every task with another id, as often as before and in order, and none with this id |
| TaskList.FindTask | src/app/components/task-list-component/task-list-component.ts:146 | the position of the first task with the id, or none when no task has it |
| TaskList.EditFirst | src/app/components/task-list-component/task-list-component.ts:146-150 | only the first task with the id changes, and only its description and status |
| TaskList.TaskListComponent.constructor | src/app/components/task-list-component/task-list-component.ts:18-22 | empty list, not loading, no error, filter "all", no edit |
| TaskList.TaskListComponent.LoadTasks | src/app/components/task-list-component/task-list-component.ts:61-73 | the server's list replaces the old one on success; on failure the old list stays and the error is shown; ends not loading |
| TaskList.TaskListComponent.CreateTask | src/app/components/task-list-component/task-list-component.ts:75-98 | an invalid form calls nothing and changes nothing; otherwise the trimmed description and the date, or none when empty, are sent; only on success is the new task put first and the form reset; ends not loading |
| TaskList.TaskListComponent.UpdateTaskStatus | src/app/components/task-list-component/task-list-component.ts:100-110 | sends the new status; only on success does that task take it; on failure the list is untouched and the error is shown |
| TaskList.TaskListComponent.DeleteTask | src/app/components/task-list-component/task-list-component.ts:112-124 | an unconfirmed prompt changes nothing; on success every task with the id leaves the list and the rest stay in order; on failure the list is untouched and the error is shown |
| TaskList.TaskListComponent.StartEditTask | src/app/components/task-list-component/task-list-component.ts:126-132 | the edit form takes the task's id, description and status; nothing else changes |
| TaskList.TaskListComponent.SaveEditTask | src/app/components/task-list-component/task-list-component.ts:134-158 | an invalid form changes nothing; on success only the first task with the id takes the new description and status and the edit ends; on failure the list and the edit stay |
| TaskList.TaskListComponent.CancelEdit | src/app/components/task-list-component/task-list-component.ts:160-163 | ends the edit and resets the edit form; nothing else changes |
| TaskList.TaskListComponent.SetFilter | src/app/components/task-list-component/task-list-component.ts:174-176 | sets the filter; nothing else changes |
| TaskList.TaskListComponent.GetFilteredTasks | src/app/components/task-list-component/task-list-component.ts:178-189 | the list filtered by the chosen criterion, every matching task kept as often as it occurs and in order, or the whole list when no criterion is chosen |
| TaskList.TaskListComponent.GetCompletedTasksCount | src/app/components/task-list-component/task-list-component.ts:192-194 | the length of the "completed" filter's result |
| TaskList.TaskListComponent.GetPendingTasksCount | src/app/components/task-list-component/task-list-component.ts:196-199 | the length of the "pending" filter's result; with the expired count it never exceeds the list |
| TaskList.TaskListComponent.GetExpiredTasksCount | src/app/components/task-list-component/task-list-component.ts:201-204 | the length of the "expired" filter's result; the three counts together cover the list |
| TaskList.TaskListComponent.GetDescriptionErrorMessage | src/app/components/task-list-component/task-list-component.ts:223-231 | "required" exactly when the description is empty, "" otherwise; the too-short message can never appear |
| Forms.FirstMessage | src/app/components/task-list-component/task-list-component.ts:223-231 | the message of the first listed error the control has, with no earlier one present; "" iff it has none |
| Login.PasswordAccepted | src/app/components/login-component/login-component.ts:45-59 | a password passes iff it is at least 8 UTF-16 code units long and, while the pattern is installed, has a lower-case letter, an upper-case letter and a digit on one line |
| Login.MatchesComplexity | src/app/components/login-component/login-component.ts:54 | a password meeting the complexity expression has at least three characters |
| Login.ComplexityExamples | src/app/components/login-component/login-component.ts:54 | "Abcdef12" meets the expression; leaving out the upper-case letters, the lower-case letters or the digits fails it, and so does a line break |
| Login.LoginComponent.constructor | src/app/components/login-component/login-component.ts:36-43 | sign-in mode, empty form and messages, no pattern and no code validator |
| Login.LoginComponent.FormValid | src/app/components/login-component/login-component.ts:74 | the form is valid iff the email is present and well formed, the password is at least 8 UTF-16 code units long and meets the pattern while it is installed, and the code is present while it is required |
| Login.LoginComponent.UpdatePasswordValidators | src/app/components/login-component/login-component.ts:45-59 | the pattern is installed exactly in registration mode; nothing else changes; called, as both its callers do, with no code validator and no pending confirmation, it leaves the class invariant holding |
| Login.LoginComponent.OnSubmit | src/app/components/login-component/login-component.ts:73-121 | an invalid form calls nothing and changes nothing; a pending confirmation calls confirmSignUp only and on success clears the flag and the code; sign-in navigates to /tasks only on success; registration always ends in sign-in mode, awaiting the code with validators kept, or with a cleared form and recomputed validators; a failure shows the mapped error; every valid submit clears both messages first and ends not loading; the class invariant is kept |
| Login.LoginComponent.ToggleMode | src/app/components/login-component/login-component.ts:123-141 | flips the mode, drops any pending confirmation, clears both messages and all three fields, and installs the new mode's validators |
| Login.LoginComponent.GetEmailErrorMessage | src/app/components/login-component/login-component.ts:160-168 | "" iff the email control has no error; "required" before the format message |
| Login.LoginComponent.GetPasswordErrorMessage | src/app/components/login-component/login-component.ts:170-181 | "" iff the password control has no error; "required", then length, then complexity |
| Login.LoginComponent.GetConfirmationCodeErrorMessage | src/app/components/login-component/login-component.ts:183-188 | the required message iff the validator is installed and the code is empty; "" otherwise |
| Scenarios.LoginHappyPath | src/app/components/login-component/login-component.ts:92-95 | "a@b.com" / "Abcdef12" signs in, marks the session authenticated with the fetched user, and navigates to /tasks |
| Scenarios.RegistrationWithConfirmation | src/app/components/login-component/login-component.ts:96-114 | sign-up in registration mode asks the provider for the code and leaves the page in sign-in mode awaiting it; submitting the code confirms it, clears the flag and the field |
| Scenarios.ConfirmedUserIsBlocked | src/app/components/login-component/login-component.ts:73-77 | after that confirmation the next sign-in is blocked by the form, since the code stays required while empty, and makes no provider call; after two mode switches the same sign-in goes through |
| Scenarios.AstralPasswordIsLongEnough | src/app/components/login-component/login-component.ts:39 | four emoji, four characters but eight UTF-16 code units, pass the sign-in password's length check |
| Scenarios.ToggleTwiceRestoresMode | src/app/components/login-component/login-component.ts:123-124 | switching mode twice restores the mode |
| Scenarios.GuardRedirectsSignedOutVisitor | src/app/guards/auth-guard.ts:17-19 | a signed-out visitor is denied and redirected to ['/login'] |
| Scenarios.ExpiredFilterScenario | src/app/components/task-list-component/task-list-component.ts:184-185 | of three tasks, "expired" selects only the overdue one |
| Scenarios.PendingFilterScenario | src/app/components/task-list-component/task-list-component.ts:182-183 | of the same tasks, "pending" selects only the one still in time |
| Scenarios.CompletedFilterScenario | src/app/components/task-list-component/task-list-component.ts:180-181 | of the same tasks, "completed" selects only the finished one |
| Scenarios.BlankDescriptionIsSentEmpty | src/app/components/task-list-component/task-list-component.ts:86-91 | a blank description is sent as "" with no date, and the created task heads the list |
| Scenarios.RemainingTimeText | src/app/services/task-service.ts:69-76 | 90 minutes and 5 seconds left reads "1h 30m remaining"; one second left reads "0m remaining" |

## Left out

- HTTP transport (`HttpClient`, `firstValueFrom`): each call is an input that succeeds with a value or fails with a message.
- The Amplify SDK internals: every SDK call's outcome is an input.
- `formatDeadline`: it depends on the locale through `toLocaleString`.
- `Date.now()`: the current time is the parameter `now`.
- The browser `confirm()` prompt: it is the boolean `confirmed`.
- `Validators.email`'s regular expression: whether the email matches it is the boolean `emailWellFormed`.
- Touched/untouched marking and the `forEach` loops that do it: they only affect what the page displays.
- The `valueChanges` subscription in `ngOnInit` of the login page: it only re-runs `updatePasswordValidators` when a patch sets the mode control, and the model runs that call at the same points.
- rxjs `BehaviorSubject` broadcast: the two session cells are plain fields, and subscribers are not modelled.
- Races between overlapping async handlers: each handler runs to completion as one atomic step.
- `console.error` logging and `resendConfirmationCode`, which only sets a message.
- `signOut` of the task-list page: it only forwards to the session service's `signOut`, which is modelled, and shows its error.
- The constructor of the session service starts `checkAuthStatus` without waiting for it: the model has it as the separate `CheckAuthStatus` call.
- `form.reset()` sets the values to null: the model resets them to the initial "" and Pending, which the validators and the getters treat the same way.
- TaskList.TaskListComponent.UpdateTaskStatus: the source assigns the status on the task object it was given; the model names that task by its position in the list, so aliasing of a task object outside the list is not modelled.
- Text.ToLower: lower-cases ASCII letters only; a non-ASCII character never lower-cases into "completed" or "expired", so the badge is unaffected.
- Text.DecimalText: JavaScript numbers are unbounded integers here, and numbers from 1e21 up, which JavaScript writes in exponent form, are written in full.
- URL encoding of task ids: the id is appended to the URL as it is, as the source does.
- The session service's configuration (`aws-config.ts`), dependency-injection wiring, the CORS interceptor, the route table and the polyfills: they hold no behaviour to verify.
