/** The task record exchanged with the task API, and the bodies of the create
    and update requests. */
module TaskModel {
  import opened Results

  datatype Status = Pending | Completed | Expired

  /** The status as it travels in JSON. */
  function StatusName(s: Status): (name: string)
    ensures name != ""
  {
    match s
    case Pending => "Pending"
    case Completed => "Completed"
    case Expired => "Expired"
  }

  /** The three statuses are told apart on the wire. */
  lemma StatusNamesDistinct(a: Status, b: Status)
    ensures StatusName(a) == StatusName(b) ==> a == b
  {
    if a != b {
      assert StatusName(a)[0] != StatusName(b)[0];
    }
  }

  /** A task; `deadline` and `expireAt` are epoch milliseconds. */
  datatype Task = Task(
    taskId: string,
    userId: string,
    description: string,
    status: Status,
    deadline: int,
    expireAt: int,
    date: Option<string>)

  datatype CreateTaskRequest = CreateTaskRequest(description: string, date: Option<string>)

  /** A partial update: an absent field is not sent. */
  datatype UpdateTaskRequest = UpdateTaskRequest(description: Option<string>, status: Option<string>)
}
