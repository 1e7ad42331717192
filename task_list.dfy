/** The task list view: an in-memory copy of the user's tasks, a filter
    selection, and at most one task being edited. Each handler runs to
    completion with the task service's answer given as a parameter, and
    reports which service call it made. */
module TaskList {
  import opened Results
  import opened Text
  import opened TaskModel
  import opened Forms
  import TaskService

  // ---- Derived views ------------------------------------------------------

  /** The three filters that select tasks; expiry is the client-side time
      check laid over the server's status. */
  datatype Criterion = CompletedOnly | PendingAt(now: int) | ExpiredAt(now: int)

  predicate Matches(c: Criterion, t: Task) {
    match c
    case CompletedOnly => t.status == Completed
    case PendingAt(now) => t.status == Pending && !TaskService.IsTaskExpired(t, now)
    case ExpiredAt(now) => TaskService.IsTaskExpired(t, now) || t.status == Expired
  }

  /** `s` is what is left of `t` after deleting some elements. */
  predicate IsSubsequence(s: seq<Task>, t: seq<Task>) {
    s == [] || (t != [] && ((s[0] == t[0] && IsSubsequence(s[1..], t[1..])) || IsSubsequence(s, t[1..])))
  }

  lemma {:induction false} SubsequenceOfSelf(s: seq<Task>)
    ensures IsSubsequence(s, s)
  {
    if s != [] {
      SubsequenceOfSelf(s[1..]);
    }
  }

  /** `tasks.filter(...)`: exactly the matching tasks, each as often as in
      `tasks`, in their original order. */
  function FilterBy(tasks: seq<Task>, c: Criterion): (r: seq<Task>)
    ensures forall t :: t in r <==> t in tasks && Matches(c, t)
    ensures forall t :: multiset(r)[t] == if Matches(c, t) then multiset(tasks)[t] else 0
    ensures IsSubsequence(r, tasks)
    ensures |r| <= |tasks|
  {
    if tasks == [] then []
    else
      var rest := FilterBy(tasks[1..], c);
      assert tasks == [tasks[0]] + tasks[1..];
      if Matches(c, tasks[0]) then
        assert ([tasks[0]] + rest)[1..] == rest;
        [tasks[0]] + rest
      else
        rest
  }

  /** The filter a `filterStatus` value selects; other values, "all"
      included, select none. */
  function CriterionFor(filterStatus: string, now: int): Option<Criterion> {
    if filterStatus == "completed" then Some(CompletedOnly)
    else if filterStatus == "pending" then Some(PendingAt(now))
    else if filterStatus == "expired" then Some(ExpiredAt(now))
    else None
  }

  /** `getFilteredTasks`: an order-preserving selection of the list, which is
      the whole list unless one of the three filters is chosen. */
  function FilteredTasks(tasks: seq<Task>, filterStatus: string, now: int): (r: seq<Task>)
    ensures IsSubsequence(r, tasks)
    ensures CriterionFor(filterStatus, now).Some? ==> r == FilterBy(tasks, CriterionFor(filterStatus, now).value)
    ensures filterStatus == "completed" ==> forall t :: t in r <==> t in tasks && t.status == Completed
    ensures filterStatus == "pending" ==>
              forall t :: t in r <==> t in tasks && t.status == Pending && !TaskService.IsTaskExpired(t, now)
    ensures filterStatus == "expired" ==>
              forall t :: t in r <==> t in tasks && (TaskService.IsTaskExpired(t, now) || t.status == Expired)
    ensures filterStatus !in {"completed", "pending", "expired"} ==> r == tasks
  {
    match CriterionFor(filterStatus, now)
    case Some(c) => FilterBy(tasks, c)
    case None => SubsequenceOfSelf(tasks); tasks
  }

  /** "pending" shares no task with "completed" or "expired". */
  lemma PendingIsDisjoint(tasks: seq<Task>, now: int)
    ensures forall t :: t in FilteredTasks(tasks, "pending", now) ==>
              t !in FilteredTasks(tasks, "completed", now) && t !in FilteredTasks(tasks, "expired", now)
  {
  }

  /** A completed task whose deadline has passed is listed both as completed
      and as expired. */
  lemma CompletedOverdueInBoth(tasks: seq<Task>, t: Task, now: int)
    requires t in tasks && t.status == Completed && now > t.deadline
    ensures t in FilteredTasks(tasks, "completed", now) && t in FilteredTasks(tasks, "expired", now)
  {
  }

  /** Every task shows up under at least one of the three filters. */
  lemma FiltersCoverTasks(tasks: seq<Task>, t: Task, now: int)
    requires t in tasks
    ensures t in FilteredTasks(tasks, "pending", now) || t in FilteredTasks(tasks, "completed", now)
            || t in FilteredTasks(tasks, "expired", now)
  {
  }

  /** The counts: pending and expired never add up to more than the list,
      and the three together never to less. */
  lemma {:induction false} CountsCoverTasks(tasks: seq<Task>, now: int)
    ensures |FilterBy(tasks, PendingAt(now))| + |FilterBy(tasks, ExpiredAt(now))| <= |tasks|
    ensures |tasks| <= |FilterBy(tasks, PendingAt(now))| + |FilterBy(tasks, ExpiredAt(now))|
                       + |FilterBy(tasks, CompletedOnly)|
  {
    if tasks != [] {
      CountsCoverTasks(tasks[1..], now);
    }
  }

  // ---- Local mutations ----------------------------------------------------

  /** `tasks.filter(task => task.taskId !== taskId)`: every task with another
      id, each as often as before and in order; none with this id. */
  function WithoutTask(tasks: seq<Task>, taskId: string): (r: seq<Task>)
    ensures forall t :: t in r <==> t in tasks && t.taskId != taskId
    ensures forall t :: multiset(r)[t] == if t.taskId != taskId then multiset(tasks)[t] else 0
    ensures IsSubsequence(r, tasks)
  {
    if tasks == [] then []
    else
      var rest := WithoutTask(tasks[1..], taskId);
      assert tasks == [tasks[0]] + tasks[1..];
      if tasks[0].taskId != taskId then
        assert ([tasks[0]] + rest)[1..] == rest;
        [tasks[0]] + rest
      else
        rest
  }

  /** `j` is the position `tasks.find` stops at for `taskId`. */
  predicate IsFirstWithId(tasks: seq<Task>, j: int, taskId: string) {
    0 <= j < |tasks| && tasks[j].taskId == taskId && forall k :: 0 <= k < j ==> tasks[k].taskId != taskId
  }

  /** `tasks.find(t => t.taskId === taskId)`, as a position. */
  function FindTask(tasks: seq<Task>, taskId: string): (r: Option<nat>)
    ensures r.Some? ==> IsFirstWithId(tasks, r.value, taskId)
    ensures r.None? ==> forall j :: 0 <= j < |tasks| ==> tasks[j].taskId != taskId
  {
    if tasks == [] then None
    else if tasks[0].taskId == taskId then Some(0)
    else
      match FindTask(tasks[1..], taskId)
      case Some(j) => Some(j + 1)
      case None => None
  }

  /** Assigning description and status on the task `find` returns: only that
      task changes, and only in those two fields. */
  function EditFirst(tasks: seq<Task>, taskId: string, description: string, status: Status): (r: seq<Task>)
    ensures |r| == |tasks|
    ensures forall j :: 0 <= j < |tasks| ==>
              r[j] == if IsFirstWithId(tasks, j, taskId) then tasks[j].(description := description, status := status)
                      else tasks[j]
  {
    match FindTask(tasks, taskId)
    case None => tasks
    case Some(i) => tasks[i := tasks[i].(description := description, status := status)]
  }

  /** Which task-service call a handler made. */
  datatype TaskCall =
    | NoCall
    | ListCall
    | CreateCall(request: CreateTaskRequest)
    | UpdateCall(taskId: string, updates: UpdateTaskRequest)
    | DeleteCall(taskId: string)

  /** The body `createTask` sends for the create form: the description
      trimmed, and the date only when one was entered. */
  function NewTaskRequest(description: string, date: string): (r: CreateTaskRequest)
    ensures r.date.None? <==> date == ""
    ensures r.date.Some? ==> r.date.value == date
    ensures r.description == Trim(description)
    ensures r.description == "" <==> forall i :: 0 <= i < |description| ==> IsJsWhitespace(description[i])
    ensures r.description != "" ==>
              !IsJsWhitespace(r.description[0]) && !IsJsWhitespace(r.description[|r.description| - 1])
  {
    CreateTaskRequest(Trim(description), if date == "" then None else Some(date))
  }

  const DescriptionRequiredMessage := "Task description is required"
  const DescriptionTooShortMessage := "Task description is too short"

  /** The description control: `Validators.required` and `Validators.minLength(1)`. */
  function DescriptionErrors(description: string): set<ValidationError> {
    RequiredErrors(description) + MinLengthErrors(description, 1)
  }

  class TaskListComponent {
    var tasks: seq<Task>
    var loading: bool
    var errorMessage: string
    var filterStatus: string
    var editingTaskId: Option<string>
    // The create form.
    var description: string
    var date: string
    // The edit form.
    var editDescription: string
    var editStatus: Status

    constructor ()
      ensures tasks == [] && !loading && errorMessage == "" && filterStatus == "all" && editingTaskId == None
      ensures description == "" && date == "" && editDescription == "" && editStatus == Pending
    {
      tasks := [];
      loading := false;
      errorMessage := "";
      filterStatus := "all";
      editingTaskId := None;
      description, date := "", "";
      editDescription, editStatus := "", Pending;
    }

    twostate predicate CreateFormUnchanged()
      reads this
    {
      description == old(description) && date == old(date)
    }

    twostate predicate EditUnchanged()
      reads this
    {
      editingTaskId == old(editingTaskId) && editDescription == old(editDescription) && editStatus == old(editStatus)
    }

    /** `loadTasks`: replaces the list with the server's on success, keeps the
        previous one on failure. */
    method LoadTasks(response: Result<seq<Task>>) returns (call: TaskCall)
      modifies this
      ensures call == ListCall && !loading
      ensures response.Ok? ==> tasks == response.value && errorMessage == ""
      ensures response.Err? ==> tasks == old(tasks) && errorMessage == MessageOr(response.error, "Failed to load tasks")
      ensures filterStatus == old(filterStatus) && CreateFormUnchanged() && EditUnchanged()
    {
      loading := true;
      errorMessage := "";
      call := ListCall;
      match response {
        case Ok(listed) => tasks := listed;
        case Err(e) => errorMessage := MessageOr(e, "Failed to load tasks");
      }
      loading := false;
    }

    /** `createTask`: with an empty description nothing happens; otherwise the
        trimmed description (and the date, or nothing when it is empty) is
        sent, and only on success is the new task put in front of the list
        and the form cleared. */
    method CreateTask(response: Result<Task>) returns (call: TaskCall)
      modifies this
      ensures DescriptionErrors(old(description)) != {} ==>
                call == NoCall && tasks == old(tasks) && loading == old(loading)
                && errorMessage == old(errorMessage) && CreateFormUnchanged()
      ensures DescriptionErrors(old(description)) == {} ==>
                && call == CreateCall(NewTaskRequest(old(description), old(date)))
                && !loading
                && (response.Ok? ==> tasks == [response.value] + old(tasks) && errorMessage == ""
                                     && description == "" && date == "")
                && (response.Err? ==> tasks == old(tasks) && CreateFormUnchanged()
                                      && errorMessage == MessageOr(response.error, "Failed to create task"))
      ensures filterStatus == old(filterStatus) && EditUnchanged()
    {
      if DescriptionErrors(description) != {} {
        return NoCall;
      }
      var request := NewTaskRequest(description, date);
      loading := true;
      errorMessage := "";
      call := CreateCall(request);
      match response {
        case Ok(created) =>
          tasks := [created] + tasks;
          description, date := "", "";
        case Err(e) =>
          errorMessage := MessageOr(e, "Failed to create task");
      }
      loading := false;
    }

    /** `updateTaskStatus` on the task at position `i`: the status is assigned
        only after the server accepted it; on failure the list is untouched
        and the error is shown. */
    method UpdateTaskStatus(i: nat, newStatus: Status, response: Result<()>) returns (call: TaskCall)
      requires i < |tasks| && newStatus != Expired
      modifies this
      ensures call == UpdateCall(old(tasks[i].taskId), UpdateTaskRequest(None, Some(StatusName(newStatus))))
      ensures !loading
      ensures response.Ok? ==> tasks == old(tasks[i := tasks[i].(status := newStatus)])
                               && errorMessage == old(errorMessage)
      ensures response.Err? ==> tasks == old(tasks)
                                && errorMessage == MessageOr(response.error, "Failed to update task")
      ensures filterStatus == old(filterStatus) && CreateFormUnchanged() && EditUnchanged()
    {
      loading := true;
      call := UpdateCall(tasks[i].taskId, UpdateTaskRequest(None, Some(StatusName(newStatus))));
      match response {
        case Ok(_) => tasks := tasks[i := tasks[i].(status := newStatus)];
        case Err(e) => errorMessage := MessageOr(e, "Failed to update task");
      }
      loading := false;
    }

    /** `deleteTask`: nothing at all unless the prompt was confirmed; then the
        tasks with that id leave the list only after the server deleted it. */
    method DeleteTask(taskId: string, confirmed: bool, response: Result<()>) returns (call: TaskCall)
      modifies this
      ensures !confirmed ==> call == NoCall && unchanged(this)
      ensures confirmed ==>
                && call == DeleteCall(taskId) && !loading
                && (response.Ok? ==> tasks == WithoutTask(old(tasks), taskId) && errorMessage == old(errorMessage))
                && (response.Err? ==> tasks == old(tasks)
                                      && errorMessage == MessageOr(response.error, "Failed to delete task"))
      ensures filterStatus == old(filterStatus) && CreateFormUnchanged() && EditUnchanged()
    {
      if !confirmed {
        return NoCall;
      }
      loading := true;
      call := DeleteCall(taskId);
      match response {
        case Ok(_) => tasks := WithoutTask(tasks, taskId);
        case Err(e) => errorMessage := MessageOr(e, "Failed to delete task");
      }
      loading := false;
    }

    /** `startEditTask`: the edit form takes the task's description and status. */
    method StartEditTask(task: Task)
      modifies this
      ensures editingTaskId == Some(task.taskId) && editDescription == task.description && editStatus == task.status
      ensures tasks == old(tasks) && loading == old(loading) && errorMessage == old(errorMessage)
      ensures filterStatus == old(filterStatus) && CreateFormUnchanged()
    {
      editingTaskId := Some(task.taskId);
      editDescription, editStatus := task.description, task.status;
    }

    /** `saveEditTask`: with an empty description nothing happens; otherwise
        the edit form is sent, and only on success does the first task with
        that id take the new description and status and the edit end. On
        failure the edit stays open. */
    method SaveEditTask(taskId: string, response: Result<()>) returns (call: TaskCall)
      modifies this
      ensures DescriptionErrors(old(editDescription)) != {} ==>
                call == NoCall && tasks == old(tasks) && loading == old(loading)
                && errorMessage == old(errorMessage) && EditUnchanged()
      ensures DescriptionErrors(old(editDescription)) == {} ==>
                && call == UpdateCall(taskId, UpdateTaskRequest(Some(old(editDescription)),
                                                                Some(StatusName(old(editStatus)))))
                && !loading
                && (response.Ok? ==> tasks == EditFirst(old(tasks), taskId, old(editDescription), old(editStatus))
                                     && editingTaskId == None && editDescription == "" && editStatus == Pending
                                     && errorMessage == old(errorMessage))
                && (response.Err? ==> tasks == old(tasks) && EditUnchanged()
                                      && errorMessage == MessageOr(response.error, "Failed to update task"))
      ensures filterStatus == old(filterStatus) && CreateFormUnchanged()
    {
      if DescriptionErrors(editDescription) != {} {
        return NoCall;
      }
      loading := true;
      var updatedDescription, updatedStatus := editDescription, editStatus;
      call := UpdateCall(taskId, UpdateTaskRequest(Some(updatedDescription), Some(StatusName(updatedStatus))));
      match response {
        case Ok(_) =>
          tasks := EditFirst(tasks, taskId, updatedDescription, updatedStatus);
          CancelEdit();
        case Err(e) =>
          errorMessage := MessageOr(e, "Failed to update task");
      }
      loading := false;
    }

    /** `cancelEdit`: ends the edit and resets the edit form. */
    method CancelEdit()
      modifies this
      ensures editingTaskId == None && editDescription == "" && editStatus == Pending
      ensures tasks == old(tasks) && loading == old(loading) && errorMessage == old(errorMessage)
      ensures filterStatus == old(filterStatus) && CreateFormUnchanged()
    {
      editingTaskId := None;
      editDescription, editStatus := "", Pending;
    }

    /** `setFilter`. */
    method SetFilter(status: string)
      modifies this
      ensures filterStatus == status
      ensures tasks == old(tasks) && loading == old(loading) && errorMessage == old(errorMessage)
      ensures CreateFormUnchanged() && EditUnchanged()
    {
      filterStatus := status;
    }

    /** `getFilteredTasks` at time `now`. */
    function GetFilteredTasks(now: int): (r: seq<Task>)
      reads this
      ensures IsSubsequence(r, tasks)
      ensures CriterionFor(filterStatus, now).Some? ==>
                forall t :: t in r <==> t in tasks && Matches(CriterionFor(filterStatus, now).value, t)
      ensures CriterionFor(filterStatus, now).Some? ==>
                r == FilterBy(tasks, CriterionFor(filterStatus, now).value)
      ensures CriterionFor(filterStatus, now).None? ==> r == tasks
    {
      FilteredTasks(tasks, filterStatus, now)
    }

    /** `getCompletedTasksCount`: the size of the "completed" view. */
    function GetCompletedTasksCount(): (n: nat)
      reads this
      ensures n == |FilteredTasks(tasks, "completed", 0)|
      ensures n <= |tasks|
    {
      |FilterBy(tasks, CompletedOnly)|
    }

    /** `getPendingTasksCount` at time `now`: the size of the "pending" view. */
    function GetPendingTasksCount(now: int): (n: nat)
      reads this
      ensures n == |FilteredTasks(tasks, "pending", now)|
      ensures n + GetExpiredTasksCount(now) <= |tasks|
    {
      CountsCoverTasks(tasks, now);
      |FilterBy(tasks, PendingAt(now))|
    }

    /** `getExpiredTasksCount` at time `now`: the size of the "expired" view. */
    function GetExpiredTasksCount(now: int): (n: nat)
      reads this
      ensures n == |FilteredTasks(tasks, "expired", now)|
      ensures |tasks| <= |FilterBy(tasks, PendingAt(now))| + n + GetCompletedTasksCount()
    {
      CountsCoverTasks(tasks, now);
      |FilterBy(tasks, ExpiredAt(now))|
    }

    /** `getDescriptionErrorMessage`: "required" for an empty description and
        nothing otherwise; the too-short message can never show, because
        `minLength(1)` only fails on the empty value, which `minLength`
        leaves to `required`. */
    function GetDescriptionErrorMessage(): (r: string)
      reads this
      ensures r == DescriptionRequiredMessage <==> description == ""
      ensures r == "" <==> description != ""
      ensures r != DescriptionTooShortMessage
    {
      FirstMessage(DescriptionErrors(description),
                   [(Required, DescriptionRequiredMessage), (MinLength, DescriptionTooShortMessage)])
    }
  }
}
