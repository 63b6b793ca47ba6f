/** The records of the to-do backend: the task document and its enumerations,
    the caller identity that the token middleware yields, the request body the
    task handlers read, the events broadcast on the `taskUpdate` channel and
    the ways a handler can fail. */
module TaskSchema {

  /** Store-assigned task identifier. Identifiers are handed out in increasing
      order, so their order is the order of creation. */
  type TaskId = nat
  type UserId = string
  type Email = string
  /** Dates (`dueDate`, `createdAt`) are opaque instants; they are only copied. */
  type Date = int

  datatype Option<T> = None | Some(value: T) {
    function GetOr(default: T): T {
      if Some? then value else default
    }
  }

  datatype Priority = Low | Medium | High
  datatype Status = InProgress | Completed

  /** The string stored for a priority by the task schema. */
  function PriorityName(p: Priority): string {
    match p
    case Low => "Low"
    case Medium => "Medium"
    case High => "High"
  }

  /** The string stored for a status by the task schema. */
  function StatusName(s: Status): string {
    match s
    case InProgress => "In Progress"
    case Completed => "Completed"
  }

  /** Enum check of the schema and of the create validators: accepts exactly
      the names of the three priorities. */
  function ParsePriority(s: string): (r: Option<Priority>)
    ensures r.Some? ==> PriorityName(r.value) == s
    ensures r.None? ==> forall p: Priority :: PriorityName(p) != s
  {
    if s == "Low" then Some(Low)
    else if s == "Medium" then Some(Medium)
    else if s == "High" then Some(High)
    else None
  }

  /** Enum check for status: accepts exactly "In Progress" and "Completed". */
  function ParseStatus(s: string): (r: Option<Status>)
    ensures r.Some? ==> StatusName(r.value) == s
    ensures r.None? ==> forall st: Status :: StatusName(st) != s
  {
    if s == "In Progress" then Some(InProgress)
    else if s == "Completed" then Some(Completed)
    else None
  }

  /** Every enumerated value is accepted under its own name and no other:
      names and parsing are inverse. */
  lemma EnumNamesRoundTrip(p: Priority, st: Status, s: string)
    ensures ParsePriority(PriorityName(p)) == Some(p)
    ensures ParseStatus(StatusName(st)) == Some(st)
    ensures ParsePriority(s) == Some(p) <==> s == PriorityName(p)
    ensures ParseStatus(s) == Some(st) <==> s == StatusName(st)
  {
  }

  /** A stored task document. `userId` is the owner; `sharedWith` lists the
      e-mails of shared members, duplicates allowed. */
  datatype Task = Task(
    id: TaskId,
    title: string,
    description: Option<string>,
    priority: Priority,
    status: Status,
    dueDate: Option<Date>,
    userId: UserId,
    sharedWith: seq<Email>,
    createdAt: Date)

  /** The verified token payload `{ id, email }`. */
  datatype Caller = Caller(id: UserId, email: Email)

  /** A JSON request body for create and update: every field may be absent.
      Enumerated fields arrive as raw strings and are checked later. */
  datatype Body = Body(
    title: Option<string>,
    description: Option<string>,
    priority: Option<string>,
    status: Option<string>,
    dueDate: Option<Date>,
    userId: Option<UserId>,
    sharedWith: Option<seq<Email>>)

  /** A `taskUpdate` broadcast: the whole task after a create, update or
      share, or the deletion marker `{ _id, deleted: true }`. */
  datatype Event = TaskChanged(task: Task) | TaskDeleted(deletedId: TaskId)

  /** How a handler ends without success: 400 with the validator messages,
      403, 404, or a rejected promise that sends no response at all. */
  datatype Failure = BadRequest(errors: seq<string>) | Forbidden | NotFound | Unhandled

  datatype Result<T> = Ok(value: T) | Err(failure: Failure)

  /** Identifiers strictly increase along the sequence, so no two tasks share one. */
  predicate IdsIncreasing(s: seq<Task>) {
    forall i, j :: 0 <= i < j < |s| ==> s[i].id < s[j].id
  }
}
