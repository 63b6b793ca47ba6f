/** The task handlers of the backend: create, update, delete and share change
    the stored task documents in place and broadcast a `taskUpdate` event;
    list only reads. The store keeps the tasks in creation order, the e-mails
    of the registered users and the log of every event broadcast so far. */
module Backend {
  import opened TaskSchema
  import opened Policy
  import opened Query

  const TitleRequired := "Title is required"
  const InvalidPriority := "Invalid priority"
  const InvalidStatus := "Invalid status"
  const InvalidEmail := "Invalid email"

  /** The `title` validator: present and not the empty string. */
  predicate TitleGiven(b: Body) {
    b.title.Some? && b.title.value != ""
  }

  /** The `isIn` validators: present and one of the enumerated names. */
  predicate PriorityGiven(b: Body) {
    b.priority.Some? && ParsePriority(b.priority.value).Some?
  }

  predicate StatusGiven(b: Body) {
    b.status.Some? && ParseStatus(b.status.value).Some?
  }

  /** The messages the create validators report, in the order they are declared. */
  function CreateErrors(b: Body): (r: seq<string>)
    ensures r == [] <==> TitleGiven(b) && PriorityGiven(b) && StatusGiven(b)
    ensures TitleRequired in r <==> !TitleGiven(b)
    ensures InvalidPriority in r <==> !PriorityGiven(b)
    ensures InvalidStatus in r <==> !StatusGiven(b)
  {
    (if TitleGiven(b) then [] else [TitleRequired]) +
    (if PriorityGiven(b) then [] else [InvalidPriority]) +
    (if StatusGiven(b) then [] else [InvalidStatus])
  }

  /** The document built from a validated create body: the body's fields, with
      the owner taken from the caller whatever the body says. */
  function NewTask(id: TaskId, c: Caller, b: Body, now: Date): (t: Task)
    requires CreateErrors(b) == []
    ensures t.id == id && t.createdAt == now
    ensures t.userId == c.id
    ensures t.title == b.title.value && t.title != ""
    ensures PriorityName(t.priority) == b.priority.value && StatusName(t.status) == b.status.value
    ensures t.description == b.description && t.dueDate == b.dueDate
    ensures t.sharedWith == b.sharedWith.GetOr([])
  {
    Task(id, b.title.value, b.description,
         ParsePriority(b.priority.value).value, ParseStatus(b.status.value).value,
         b.dueDate, c.id, b.sharedWith.GetOr([]), now)
  }

  /** Every field present in the body replaces the stored one; then the save
      checks the enumerations again. An invalid priority or status rejects
      the save, and the handler ends without a reply. */
  function Assign(t: Task, b: Body): (r: Result<Task>)
    ensures r.Ok? <==> (b.priority.Some? ==> ParsePriority(b.priority.value).Some?) &&
                       (b.status.Some? ==> ParseStatus(b.status.value).Some?)
    ensures r.Err? ==> r.failure == Unhandled
    ensures r.Ok? ==> r.value.id == t.id && r.value.createdAt == t.createdAt
    ensures r.Ok? ==> r.value.title == b.title.GetOr(t.title) && r.value.userId == b.userId.GetOr(t.userId)
    ensures r.Ok? ==> r.value.sharedWith == b.sharedWith.GetOr(t.sharedWith)
    ensures r.Ok? ==> (b.priority.Some? ==> PriorityName(r.value.priority) == b.priority.value) &&
                      (b.priority.None? ==> r.value.priority == t.priority)
    ensures r.Ok? ==> (b.status.Some? ==> StatusName(r.value.status) == b.status.value) &&
                      (b.status.None? ==> r.value.status == t.status)
    ensures r.Ok? ==> r.value.description == (if b.description.Some? then b.description else t.description)
    ensures r.Ok? ==> r.value.dueDate == (if b.dueDate.Some? then b.dueDate else t.dueDate)
  {
    var priority := if b.priority.Some? then ParsePriority(b.priority.value) else Some(t.priority);
    var status := if b.status.Some? then ParseStatus(b.status.value) else Some(t.status);
    if priority.None? || status.None? then Err(Unhandled)
    else Ok(t.(title := b.title.GetOr(t.title),
               description := if b.description.Some? then b.description else t.description,
               priority := priority.value,
               status := status.value,
               dueDate := if b.dueDate.Some? then b.dueDate else t.dueDate,
               userId := b.userId.GetOr(t.userId),
               sharedWith := b.sharedWith.GetOr(t.sharedWith)))
  }

  /** After a successful assignment, who may see and change the task is
      decided by the owner and share list the body names, or the stored ones
      where the body names none. In particular an update whose body names
      neither leaves every caller's access as it was. */
  lemma AssignAccess(c: Caller, t: Task, b: Body)
    requires Assign(t, b).Ok?
    ensures var u := Assign(t, b).value;
            (OwnerOrShared(c, u) <==> b.userId.GetOr(t.userId) == c.id || c.email in b.sharedWith.GetOr(t.sharedWith)) &&
            (IsOwner(c, u) <==> b.userId.GetOr(t.userId) == c.id)
    ensures b.userId.None? && b.sharedWith.None? ==>
              (OwnerOrShared(c, Assign(t, b).value) <==> OwnerOrShared(c, t)) &&
              (IsOwner(c, Assign(t, b).value) <==> IsOwner(c, t))
  {
  }

  /** `findById`: the position of the task with the given identifier. */
  function FindIndex(s: seq<Task>, id: TaskId): (r: Option<nat>)
    ensures r.Some? ==> r.value < |s| && s[r.value].id == id
    ensures r.None? <==> forall t :: t in s ==> t.id != id
  {
    if s == [] then None
    else if s[0].id == id then Some(0)
    else match FindIndex(s[1..], id)
      case None => None
      case Some(i) => Some(i + 1)
  }

  /** The sequence without its element at position i. */
  function RemoveAt(s: seq<Task>, i: nat): (r: seq<Task>)
    requires i < |s|
    ensures |r| == |s| - 1
    ensures forall k :: 0 <= k < i ==> r[k] == s[k]
    ensures forall k :: i <= k < |r| ==> r[k] == s[k + 1]
  {
    s[..i] + s[i + 1..]
  }

  /** With increasing identifiers, removing the task found for `id` leaves
      exactly the tasks with another identifier, still increasing. */
  lemma RemoveFound(s: seq<Task>, id: TaskId)
    requires IdsIncreasing(s) && FindIndex(s, id).Some?
    ensures var r := RemoveAt(s, FindIndex(s, id).value);
            IdsIncreasing(r) && forall t :: t in r <==> t in s && t.id != id
  {
  }

  /** With increasing identifiers, a replacement that keeps the identifier
      keeps them increasing. */
  lemma ReplaceKeepsIds(s: seq<Task>, i: nat, t: Task)
    requires IdsIncreasing(s) && i < |s| && t.id == s[i].id
    ensures IdsIncreasing(s[i := t])
  {
  }

  class TaskStore {
    /** Task documents, oldest first. */
    var tasks: seq<Task>
    /** E-mails of the registered users. */
    var users: set<Email>
    /** Every `taskUpdate` broadcast, in order. */
    var events: seq<Event>
    /** The identifier the next created task receives. */
    var nextId: TaskId
    /** The `isEmail` syntax check of the share validator. */
    const isEmail: string -> bool

    /** Identifiers increase in creation order and stay below `nextId`, and
        every stored title is non-empty, as the schema requires. */
    ghost predicate Valid()
      reads this
    {
      IdsIncreasing(tasks) &&
      forall t :: t in tasks ==> t.id < nextId && t.title != ""
    }

    constructor (registered: set<Email>, emailCheck: string -> bool)
      ensures Valid()
      ensures tasks == [] && events == [] && users == registered && isEmail == emailCheck
    {
      tasks := [];
      users := registered;
      events := [];
      nextId := 0;
      isEmail := emailCheck;
    }

    /** GET /api/tasks */
    method List(c: Caller, q: ListQuery) returns (r: Result<seq<Task>>)
      requires Valid()
      ensures r == ListTasks(tasks, c, q)
      ensures r.Ok? ==> forall t :: t in r.value ==> t in tasks && OwnerOrShared(c, t) && MatchesFilter(t, q.filter)
    {
      r := ListTasks(tasks, c, q);
    }

    /** POST /api/tasks */
    method Create(c: Caller, b: Body, now: Date) returns (r: Result<Task>)
      requires Valid()
      modifies this`tasks, this`events, this`nextId
      ensures Valid() && users == old(users)
      ensures r.Err? <==> CreateErrors(b) != []
      ensures r.Err? ==> r.failure == BadRequest(CreateErrors(b)) &&
                         tasks == old(tasks) && events == old(events) && nextId == old(nextId)
      ensures r.Ok? ==> r.value == NewTask(old(nextId), c, b, now) &&
                        (forall t :: t in old(tasks) ==> t.id != r.value.id) &&
                        tasks == old(tasks) + [r.value] &&
                        events == old(events) + [TaskChanged(r.value)]
    {
      var errors := CreateErrors(b);
      if errors != [] {
        return Err(BadRequest(errors));
      }
      var t := NewTask(nextId, c, b, now);
      tasks := tasks + [t];
      nextId := nextId + 1;
      events := events + [TaskChanged(t)];
      r := Ok(t);
    }

    /** PUT /api/tasks/:id. A missing task and a caller that is neither owner
        nor shared member both get 403. */
    method Update(c: Caller, id: TaskId, b: Body) returns (r: Result<Task>)
      requires Valid()
      modifies this`tasks, this`events
      ensures Valid() && users == old(users) && nextId == old(nextId)
      ensures !TitleGiven(b) ==> r == Err(BadRequest([TitleRequired]))
      ensures TitleGiven(b) && FindIndex(old(tasks), id).None? ==> r == Err(Forbidden)
      ensures (TitleGiven(b) && FindIndex(old(tasks), id).Some? &&
               !OwnerOrShared(c, old(tasks)[FindIndex(old(tasks), id).value])) ==> r == Err(Forbidden)
      ensures (TitleGiven(b) && FindIndex(old(tasks), id).Some? &&
               OwnerOrShared(c, old(tasks)[FindIndex(old(tasks), id).value])) ==>
              r == Assign(old(tasks)[FindIndex(old(tasks), id).value], b)
      ensures r.Err? ==> tasks == old(tasks) && events == old(events)
      ensures r.Ok? <==> TitleGiven(b) && FindIndex(old(tasks), id).Some? &&
                         OwnerOrShared(c, old(tasks)[FindIndex(old(tasks), id).value]) &&
                         Assign(old(tasks)[FindIndex(old(tasks), id).value], b).Ok?
      ensures r.Ok? ==> var i := FindIndex(old(tasks), id).value;
                        r == Assign(old(tasks)[i], b) &&
                        tasks == old(tasks)[i := r.value] &&
                        events == old(events) + [TaskChanged(r.value)]
    {
      if !TitleGiven(b) {
        return Err(BadRequest([TitleRequired]));
      }
      var found := FindIndex(tasks, id);
      if found.None? || !OwnerOrShared(c, tasks[found.value]) {
        return Err(Forbidden);
      }
      var i := found.value;
      r := Assign(tasks[i], b);
      if r.Err? {
        return;
      }
      ReplaceKeepsIds(tasks, i, r.value);
      tasks := tasks[i := r.value];
      events := events + [TaskChanged(r.value)];
    }

    /** DELETE /api/tasks/:id. Shared members may delete too; a missing task
        gets 403. */
    method Delete(c: Caller, id: TaskId) returns (r: Result<TaskId>)
      requires Valid()
      modifies this`tasks, this`events
      ensures Valid() && users == old(users) && nextId == old(nextId)
      ensures r.Ok? <==> FindIndex(old(tasks), id).Some? &&
                         OwnerOrShared(c, old(tasks)[FindIndex(old(tasks), id).value])
      ensures r.Err? ==> r == Err(Forbidden) && tasks == old(tasks) && events == old(events)
      ensures r.Ok? ==> r.value == id &&
                        tasks == RemoveAt(old(tasks), FindIndex(old(tasks), id).value) &&
                        (forall t :: t in tasks <==> t in old(tasks) && t.id != id) &&
                        events == old(events) + [TaskDeleted(id)]
    {
      var found := FindIndex(tasks, id);
      if found.None? || !OwnerOrShared(c, tasks[found.value]) {
        return Err(Forbidden);
      }
      RemoveFound(tasks, id);
      tasks := RemoveAt(tasks, found.value);
      events := events + [TaskDeleted(id)];
      r := Ok(id);
    }

    /** POST /api/tasks/:id/share. Checked in order: e-mail syntax (400),
        task present and owned by the caller (403), target user registered
        (404). The e-mail is appended even when it is already listed. */
    method Share(c: Caller, id: TaskId, email: Email) returns (r: Result<Task>)
      requires Valid()
      modifies this`tasks, this`events
      ensures Valid() && users == old(users) && nextId == old(nextId)
      ensures !isEmail(email) ==> r == Err(BadRequest([InvalidEmail]))
      ensures isEmail(email) && FindIndex(old(tasks), id).None? ==> r == Err(Forbidden)
      ensures (isEmail(email) && FindIndex(old(tasks), id).Some? &&
               !IsOwner(c, old(tasks)[FindIndex(old(tasks), id).value])) ==> r == Err(Forbidden)
      ensures (isEmail(email) && FindIndex(old(tasks), id).Some? &&
               IsOwner(c, old(tasks)[FindIndex(old(tasks), id).value]) && email !in users) ==> r == Err(NotFound)
      ensures r.Ok? <==> isEmail(email) && FindIndex(old(tasks), id).Some? &&
                         IsOwner(c, old(tasks)[FindIndex(old(tasks), id).value]) && email in users
      ensures r.Err? ==> tasks == old(tasks) && events == old(events)
      ensures r.Ok? ==> var i := FindIndex(old(tasks), id).value;
                        r.value == old(tasks)[i].(sharedWith := old(tasks)[i].sharedWith + [email]) &&
                        tasks == old(tasks)[i := r.value] &&
                        events == old(events) + [TaskChanged(r.value)]
    {
      if !isEmail(email) {
        return Err(BadRequest([InvalidEmail]));
      }
      var found := FindIndex(tasks, id);
      if found.None? || !IsOwner(c, tasks[found.value]) {
        return Err(Forbidden);
      }
      if email !in users {
        return Err(NotFound);
      }
      var i := found.value;
      var t := tasks[i].(sharedWith := tasks[i].sharedWith + [email]);
      ReplaceKeepsIds(tasks, i, t);
      tasks := tasks[i := t];
      events := events + [TaskChanged(t)];
      r := Ok(t);
    }
  }

  const AliceMail := "a@example.org"
  const BobMail := "b@example.org"

  /** The body of the create form: title "Buy milk", Low, In Progress. */
  function MilkBody(): Body {
    Body(Some("Buy milk"), None, Some("Low"), Some("In Progress"), None, None, None)
  }

  /** A creates a task; B, neither owner nor shared member, lists nothing. */
  method ScenarioOthersSeeNothing()
  {
    var store := new TaskStore({AliceMail, BobMail}, e => e != "");
    var a, b := Caller("A", AliceMail), Caller("B", BobMail);
    var everything := ListQuery(Filter("", ""), None, None);
    assert CreateErrors(MilkBody()) == [];
    var created := store.Create(a, MilkBody(), 0);
    var t := created.value;
    assert t.userId == "A" && t.sharedWith == [] && store.tasks == [t];

    var seen := store.List(b, everything);
    assert Skip(everything) == 0 && !OwnerOrShared(b, t);
    var m := Select(store.tasks, b, everything.filter);
    assert m == [];
    assert seen == Ok([]);
  }

  /** After A shares the task with B, B's unfiltered listing shows it. */
  method ScenarioShareThenList()
  {
    var store := new TaskStore({AliceMail, BobMail}, e => e != "");
    var a, b := Caller("A", AliceMail), Caller("B", BobMail);
    var everything := ListQuery(Filter("", ""), None, None);
    assert CreateErrors(MilkBody()) == [];
    var created := store.Create(a, MilkBody(), 0);
    var t := created.value;
    assert store.tasks == [t];

    var shared := store.Share(a, t.id, BobMail);
    assert FindIndex([t], t.id) == Some(0);
    assert shared.Ok? && shared.value.sharedWith == [BobMail];
    assert store.tasks == [shared.value];
    var seen := store.List(b, everything);
    assert Skip(everything) == 0;
    assert OwnerOrShared(b, shared.value) && Select(store.tasks, b, everything.filter) == [shared.value];
    assert seen == Ok([shared.value]);
  }

  /** B, a shared member, cannot toggle the status alone (no title), but a
      full update goes through and keeps A as owner. */
  method ScenarioSharedMemberUpdates()
  {
    var store := new TaskStore({AliceMail, BobMail}, e => e != "");
    var a, b := Caller("A", AliceMail), Caller("B", BobMail);
    assert CreateErrors(MilkBody()) == [];
    var created := store.Create(a, MilkBody(), 0);
    var t := created.value;
    var shared := store.Share(a, t.id, BobMail);
    assert FindIndex([t], t.id) == Some(0);
    var t1 := shared.value;
    assert store.tasks == [t1] && t1.sharedWith == [BobMail];

    var toggled := store.Update(b, t.id, Body(None, None, None, Some("Completed"), None, None, None));
    assert toggled == Err(BadRequest([TitleRequired])) && store.tasks == [t1];

    var updated := store.Update(b, t.id, Body(Some("Buy milk"), None, None, Some("Completed"), None, None, None));
    assert FindIndex([t1], t.id) == Some(0);
    assert updated.Ok? && updated.value.status == Completed && updated.value.userId == "A";
    assert store.tasks == [updated.value];
  }

  /** Sharing twice lists the e-mail twice; the shared member may delete the
      task, and deleting it again gets 403. */
  method ScenarioShareTwiceThenDelete()
  {
    var store := new TaskStore({AliceMail, BobMail}, e => e != "");
    var a, b := Caller("A", AliceMail), Caller("B", BobMail);
    assert CreateErrors(MilkBody()) == [];
    var created := store.Create(a, MilkBody(), 0);
    var t := created.value;
    var shared := store.Share(a, t.id, BobMail);
    assert FindIndex([t], t.id) == Some(0);
    var t1 := shared.value;
    assert store.tasks == [t1];
    var again := store.Share(a, t.id, BobMail);
    assert FindIndex([t1], t.id) == Some(0);
    assert again.Ok? && again.value.sharedWith == [BobMail, BobMail];
    var t2 := again.value;
    assert store.tasks == [t2];

    var deleted := store.Delete(b, t.id);
    assert FindIndex([t2], t.id) == Some(0) && OwnerOrShared(b, t2);
    assert deleted == Ok(t.id) && store.tasks == [];
    assert store.events[|store.events| - 1] == TaskDeleted(t.id);

    var missing := store.Delete(a, t.id);
    assert missing == Err(Forbidden);
  }
}
