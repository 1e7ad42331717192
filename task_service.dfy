/** The task client: presentation helpers over tasks, and how each of the four
    CRUD calls is addressed and authorised before it is handed to the HTTP
    transport. `Date.now()` is the parameter `now`. */
module TaskService {
  import opened Results
  import opened Text
  import opened TaskModel
  import Auth

  /** `getStatusBadgeClass`: "completed" in any letter case gives the success
      badge, "expired" in any case the danger badge, everything else the
      warning badge. */
  function GetStatusBadgeClass(status: string): (r: string)
    ensures r == "badge-success" <==> EqualsIgnoringCase(status, "completed")
    ensures r == "badge-danger" <==> EqualsIgnoringCase(status, "expired")
    ensures r == "badge-warning" <==> !EqualsIgnoringCase(status, "completed") && !EqualsIgnoringCase(status, "expired")
  {
    ToLowerEqualIff(status, "completed");
    ToLowerEqualIff(status, "expired");
    var lower := ToLower(status);
    if lower == "completed" then "badge-success"
    else if lower == "expired" then "badge-danger"
    else "badge-warning"
  }

  /** Status strings that are equal ignoring case get the same badge. */
  lemma BadgeIgnoresCase(a: string, b: string)
    requires EqualsIgnoringCase(a, b)
    ensures GetStatusBadgeClass(a) == GetStatusBadgeClass(b)
  {
    ToLowerEqualIff(a, b);
    ToLowerEqualIff(a, "completed");
    ToLowerEqualIff(b, "completed");
    ToLowerEqualIff(a, "expired");
    ToLowerEqualIff(b, "expired");
  }

  /** The badges of the three statuses as the API spells them. */
  lemma BadgeOfStatus(s: Status)
    ensures GetStatusBadgeClass(StatusName(s)) ==
              match s
              case Completed => "badge-success"
              case Expired => "badge-danger"
              case Pending => "badge-warning"
  {
    match s
    case Completed =>
      assert EqualsIgnoringCase("Completed", "completed");
    case Expired =>
      assert EqualsIgnoringCase("Expired", "expired");
    case Pending =>
      assert !SameIgnoringCase("Pending"[0], "expired"[0]);
  }

  /** `isTaskExpired`: the server says so, or the deadline has passed. For a
      task the server has not expired, this agrees with the time-remaining
      text except at the deadline's own millisecond, which the text already
      calls "Expired" while the task still counts as pending. */
  predicate IsTaskExpired(task: Task, now: int)
    ensures task.status == Expired ==> IsTaskExpired(task, now)
    ensures task.status != Expired ==>
              (IsTaskExpired(task, now) <==> GetTimeRemaining(task.deadline, now) == "Expired" && now != task.deadline)
  {
    task.status == Expired || now > task.deadline
  }

  /** Expiry is monotone in time: once expired, a task stays expired. */
  lemma ExpiryIsMonotone(task: Task, now: int, later: int)
    requires IsTaskExpired(task, now) && now <= later
    ensures IsTaskExpired(task, later)
  {
  }

  const MillisPerMinute := 1000 * 60
  const HoursSeparator := "h "
  const MinutesSuffix := "m remaining"

  /** `getTimeRemaining`: "Expired" exactly when the deadline is not in the
      future; otherwise whole hours and minutes, or minutes alone under an
      hour (so a deadline less than a minute away reads "0m remaining"). */
  function GetTimeRemaining(deadline: int, now: int): (r: string)
    ensures r == "Expired" <==> deadline - now <= 0
    ensures 0 < deadline - now < MillisPerMinute ==> r == "0m remaining"
  {
    var diff := deadline - now;
    if diff <= 0 then "Expired"
    else
      var minutes := diff / MillisPerMinute;
      var hours := minutes / 60;
      var r := if hours > 0 then DecimalText(hours) + HoursSeparator + DecimalText(minutes % 60) + MinutesSuffix
               else DecimalText(minutes) + MinutesSuffix;
      assert r[0] != 'E' by {
        if hours > 0 {
          assert r[0] == DecimalText(hours)[0];
        } else {
          assert r[0] == DecimalText(minutes)[0];
        }
      }
      r
  }

  /** What a time-remaining text says. */
  datatype Remaining = Overdue | HoursAndMinutes(hours: nat, minutes: nat) | MinutesOnly(minutes: nat)

  /** Reads a time-remaining text back. */
  function ParseRemaining(text: string): Option<Remaining> {
    if text == "Expired" then Some(Overdue) else ParseCount(SpanDigits(text))
  }

  /** The text after the leading number: minutes alone, or hours then minutes. */
  function ParseCount(split: (string, string)): Option<Remaining>
    requires AllDigits(split.0)
  {
    var (lead, rest) := split;
    if lead == [] then None
    else if rest == MinutesSuffix then Some(MinutesOnly(DecimalValue(lead)))
    else if |rest| >= 2 && rest[..2] == HoursSeparator then
      match ParseMinutes(SpanDigits(rest[2..]))
      case Some(m) => Some(HoursAndMinutes(DecimalValue(lead), m))
      case None => None
    else None
  }

  /** The minutes after the hours. */
  function ParseMinutes(split: (string, string)): Option<nat>
    requires AllDigits(split.0)
  {
    if split.0 != [] && split.1 == MinutesSuffix then Some(DecimalValue(split.0)) else None
  }

  /** The floor of a positive duration in whole minutes, and that split into
      hours and minutes. */
  lemma MinuteSplit(diff: int)
    requires diff > 0
    ensures var m := diff / MillisPerMinute;
            m * MillisPerMinute <= diff < (m + 1) * MillisPerMinute
            && (m / 60) * 60 * MillisPerMinute + (m % 60) * MillisPerMinute == m * MillisPerMinute
            && (m / 60 > 0 <==> diff >= 60 * MillisPerMinute)
  {
    var m := diff / MillisPerMinute;
    assert m * MillisPerMinute <= diff < (m + 1) * MillisPerMinute;
    assert (m / 60) * 60 + m % 60 == m;
    assert (m / 60) * 60 * MillisPerMinute + (m % 60) * MillisPerMinute == ((m / 60) * 60 + m % 60) * MillisPerMinute;
  }

  /** After the hours: the separator, the minutes, and the suffix. */
  lemma ParseCountHours(lead: string, m: string)
    requires AllDigits(lead) && lead != [] && AllDigits(m) && m != []
    ensures ParseCount((lead, HoursSeparator + m + MinutesSuffix))
            == Some(HoursAndMinutes(DecimalValue(lead), DecimalValue(m)))
  {
    var tail := HoursSeparator + m + MinutesSuffix;
    assert tail != MinutesSuffix by { assert tail[0] == 'h'; }
    assert tail[..2] == HoursSeparator;
    assert tail[2..] == m + MinutesSuffix;
    SpanDigitsOf(m, MinutesSuffix);
  }

  /** An hours-and-minutes text reads back as its two numbers. */
  lemma ParseHoursText(hours: nat, minutes: nat)
    ensures ParseRemaining(DecimalText(hours) + HoursSeparator + DecimalText(minutes) + MinutesSuffix)
            == Some(HoursAndMinutes(hours, minutes))
  {
    var h, m := DecimalText(hours), DecimalText(minutes);
    var tail := HoursSeparator + m + MinutesSuffix;
    var text := h + tail;
    assert text == DecimalText(hours) + HoursSeparator + DecimalText(minutes) + MinutesSuffix;
    assert text != "Expired" by { assert text[0] == h[0]; }
    assert tail[0] == 'h';
    SpanDigitsOf(h, tail);
    ParseCountHours(h, m);
    DecimalRoundTrip(hours);
    DecimalRoundTrip(minutes);
  }

  /** A minutes-only text reads back as its number. */
  lemma ParseMinutesText(minutes: nat)
    ensures ParseRemaining(DecimalText(minutes) + MinutesSuffix) == Some(MinutesOnly(minutes))
  {
    var m := DecimalText(minutes);
    assert (m + MinutesSuffix)[0] == m[0];
    SpanDigitsOf(m, MinutesSuffix);
    DecimalRoundTrip(minutes);
  }

  /** The time-remaining text reads back as the time left rounded down to
      whole minutes: "Expired" when none is left, hours only when at least
      one whole hour is left, and minutes below 60 beside the hours. */
  lemma TimeRemainingReadsBack(deadline: int, now: int)
    ensures var diff := deadline - now;
            match ParseRemaining(GetTimeRemaining(deadline, now))
            case Some(Overdue) => diff <= 0
            case Some(HoursAndMinutes(h, m)) =>
              diff >= 60 * MillisPerMinute && 0 < h && m < 60
              && (h * 60 + m) * MillisPerMinute <= diff < (h * 60 + m + 1) * MillisPerMinute
            case Some(MinutesOnly(m)) =>
              0 < diff < 60 * MillisPerMinute
              && m * MillisPerMinute <= diff < (m + 1) * MillisPerMinute
            case None => false
  {
    var diff := deadline - now;
    if diff > 0 {
      MinuteSplit(diff);
      var minutes := diff / MillisPerMinute;
      var hours := minutes / 60;
      if hours > 0 {
        ParseHoursText(hours, minutes % 60);
      } else {
        ParseMinutesText(minutes);
      }
    }
  }

  // ---- Requests ----------------------------------------------------------

  datatype Verb = Get | Post | Put | Delete

  datatype Headers = Headers(authorization: string, contentType: string)

  datatype Body = NoBody | CreateBody(create: CreateTaskRequest) | UpdateBody(update: UpdateTaskRequest)

  datatype Request = Request(verb: Verb, url: string, headers: Headers, body: Body)

  /** One CRUD call: the request handed to the transport (none when the token
      could not be obtained) and how the call settled. */
  datatype Exchange<T> = Exchange(sent: Option<Request>, outcome: Result<T>)

  /** The credentials of an `Authorization: Bearer` header (section 2.1 of
      RFC 6750): the non-empty token after the scheme and one space. */
  function BearerToken(authorization: string): Option<string> {
    if |authorization| > 7 && authorization[..7] == "Bearer " then Some(authorization[7..]) else None
  }

  /** `getAuthHeaders`: obtains the token first; the Authorization header
      carries exactly that token as a Bearer credential. A failed token fetch
      fails with the session service's error. */
  function GetAuthHeaders(session: Auth.SdkResult<Auth.Session>): (r: Result<Headers>)
    ensures r.Ok? <==> Auth.GetJwtToken(session).Ok?
    ensures r.Ok? ==> BearerToken(r.value.authorization) == Some(Auth.GetJwtToken(session).value)
                      && r.value.contentType == "application/json"
    ensures r.Err? ==> r.error == Auth.NoAuthenticatedUser
  {
    match Auth.GetJwtToken(session)
    case Ok(token) => Ok(Headers("Bearer " + token, "application/json"))
    case Err(e) => Err(e)
  }

  /** Where a URL points under the API root. */
  datatype Route = Collection | Item(taskId: string)

  function CollectionUrl(apiUrl: string): string { apiUrl + "/tasks" }
  function ItemUrl(apiUrl: string, taskId: string): string { apiUrl + "/tasks/" + taskId }

  function RouteOf(apiUrl: string, url: string): Option<Route> {
    var prefix := apiUrl + "/tasks/";
    if url == apiUrl + "/tasks" then Some(Collection)
    else if |url| >= |prefix| && url[..|prefix|] == prefix then Some(Item(url[|prefix|..]))
    else None
  }

  /** Item URLs address their own task, and never the collection. */
  lemma ItemUrlRoundTrip(apiUrl: string, taskId: string)
    ensures RouteOf(apiUrl, ItemUrl(apiUrl, taskId)) == Some(Item(taskId))
    ensures RouteOf(apiUrl, CollectionUrl(apiUrl)) == Some(Collection)
  {
    var url := ItemUrl(apiUrl, taskId);
    assert |url| != |apiUrl + "/tasks"|;
    assert url[..|apiUrl + "/tasks/"|] == apiUrl + "/tasks/";
  }

  /** Sends `request` once the headers are available; otherwise nothing is
      sent and the call fails with the header error. */
  function Send<T>(headers: Result<Headers>, request: Headers -> Request, response: Result<T>): (x: Exchange<T>)
    ensures headers.Err? ==> x == Exchange(None, Err(headers.error))
    ensures headers.Ok? ==> x == Exchange(Some(request(headers.value)), response)
  {
    match headers
    case Ok(h) => Exchange(Some(request(h)), response)
    case Err(e) => Exchange(None, Err(e))
  }

  /** What every CRUD call promises: the token is obtained first. Without
      one nothing is sent and the call fails with "No authenticated user";
      with one, a single request with the given verb, address and body goes
      out carrying the token as its Bearer credential, and the call settles
      as the transport did. */
  predicate Dispatched<T(==)>(x: Exchange<T>, apiUrl: string, session: Auth.SdkResult<Auth.Session>,
                          verb: Verb, route: Route, body: Body, response: Result<T>)
  {
    match Auth.GetJwtToken(session)
    case Err(_) => x == Exchange(None, Err(Auth.NoAuthenticatedUser))
    case Ok(token) =>
      && x.sent.Some? && x.outcome == response
      && x.sent.value.verb == verb && RouteOf(apiUrl, x.sent.value.url) == Some(route)
      && BearerToken(x.sent.value.headers.authorization) == Some(token)
      && x.sent.value.headers.contentType == "application/json"
      && x.sent.value.body == body
  }

  /** `getTasks`: GET on the collection. */
  function GetTasks(apiUrl: string, session: Auth.SdkResult<Auth.Session>, response: Result<seq<Task>>)
    : (x: Exchange<seq<Task>>)
    ensures Dispatched(x, apiUrl, session, Get, Collection, NoBody, response)
  {
    ItemUrlRoundTrip(apiUrl, "");
    Send(GetAuthHeaders(session), h => Request(Get, CollectionUrl(apiUrl), h, NoBody), response)
  }

  /** `createTask`: POST of the request body on the collection. */
  function CreateTask(apiUrl: string, session: Auth.SdkResult<Auth.Session>, taskData: CreateTaskRequest,
                      response: Result<Task>): (x: Exchange<Task>)
    ensures Dispatched(x, apiUrl, session, Post, Collection, CreateBody(taskData), response)
  {
    ItemUrlRoundTrip(apiUrl, "");
    Send(GetAuthHeaders(session), h => Request(Post, CollectionUrl(apiUrl), h, CreateBody(taskData)), response)
  }

  /** `updateTask`: PUT of the partial update on the task's URL. */
  function UpdateTask(apiUrl: string, session: Auth.SdkResult<Auth.Session>, taskId: string,
                      updates: UpdateTaskRequest, response: Result<()>): (x: Exchange<()>)
    ensures Dispatched(x, apiUrl, session, Put, Item(taskId), UpdateBody(updates), response)
  {
    ItemUrlRoundTrip(apiUrl, taskId);
    Send(GetAuthHeaders(session), h => Request(Put, ItemUrl(apiUrl, taskId), h, UpdateBody(updates)), response)
  }

  /** `deleteTask`: DELETE on the task's URL. */
  function DeleteTask(apiUrl: string, session: Auth.SdkResult<Auth.Session>, taskId: string,
                      response: Result<()>): (x: Exchange<()>)
    ensures Dispatched(x, apiUrl, session, Delete, Item(taskId), NoBody, response)
  {
    ItemUrlRoundTrip(apiUrl, taskId);
    Send(GetAuthHeaders(session), h => Request(Delete, ItemUrl(apiUrl, taskId), h, NoBody), response)
  }
}
