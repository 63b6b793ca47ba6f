/** The dashboard's handler for `taskUpdate` events: a pure update of the
    task list it shows. A deletion marker filters the identifier out; a task
    whose identifier is already listed replaces it in place; any other task
    is put in front. */
module Dashboard {
  import opened TaskSchema

  /** The lookup the handler makes before deciding between replacing and
      prepending: a scan from the front for a task with the identifier. It
      succeeds exactly when some position holds that identifier. */
  function HasId(s: seq<Task>, id: TaskId): (r: bool)
    ensures r <==> exists i :: 0 <= i < |s| && s[i].id == id
  {
    if s == [] then false
    else s[0].id == id || HasId(s[1..], id)
  }

  /** The list with every task of the given identifier dropped, the others
      kept in order. */
  function WithoutId(s: seq<Task>, id: TaskId): (r: seq<Task>)
    ensures |r| <= |s|
    ensures forall t :: t in r ==> t in s && t.id != id
    ensures forall t :: t in s && t.id != id ==> t in r
  {
    if s == [] then []
    else (if s[0].id == id then [] else [s[0]]) + WithoutId(s[1..], id)
  }

  /** The list with every task of the event task's identifier swapped for the
      event task, position by position. */
  function Replaced(s: seq<Task>, task: Task): (r: seq<Task>)
    ensures |r| == |s|
    ensures forall i :: 0 <= i < |s| ==> r[i] == if s[i].id == task.id then task else s[i]
  {
    if s == [] then []
    else [if s[0].id == task.id then task else s[0]] + Replaced(s[1..], task)
  }

  /** The list after one `taskUpdate` event. A deletion can only shrink the
      list and leaves no task of that identifier; a task event leaves the
      task listed and grows the list by one exactly when its identifier was
      new. */
  function ApplyEvent(s: seq<Task>, e: Event): (r: seq<Task>)
    ensures e.TaskDeleted? ==> !HasId(r, e.deletedId) && |r| <= |s|
    ensures e.TaskChanged? ==> e.task in r
    ensures e.TaskChanged? ==> |r| == if HasId(s, e.task.id) then |s| else |s| + 1
  {
    match e
    case TaskDeleted(id) => WithoutId(s, id)
    case TaskChanged(task) => if HasId(s, task.id) then Replaced(s, task) else [task] + s
  }

  /** Filtering distributes over concatenation, so the tasks that stay keep
      their relative order. */
  lemma {:induction false} WithoutIdKeepsOrder(a: seq<Task>, b: seq<Task>, id: TaskId)
    ensures WithoutId(a + b, id) == WithoutId(a, id) + WithoutId(b, id)
  {
    if a == [] {
      assert a + b == b;
    } else {
      var ab := a + b;
      assert ab[0] == a[0] && ab[1..] == a[1..] + b;
      WithoutIdKeepsOrder(a[1..], b, id);
      var head := if a[0].id == id then [] else [a[0]];
      assert WithoutId(ab, id) == head + (WithoutId(a[1..], id) + WithoutId(b, id));
      assert head + (WithoutId(a[1..], id) + WithoutId(b, id))
          == (head + WithoutId(a[1..], id)) + WithoutId(b, id);
    }
  }

  /** Filtering a list with no task of that identifier returns it unchanged. */
  lemma {:induction false} WithoutAbsentId(s: seq<Task>, id: TaskId)
    requires !HasId(s, id)
    ensures WithoutId(s, id) == s
  {
    if s != [] {
      assert !HasId(s[1..], id);
      WithoutAbsentId(s[1..], id);
    }
  }

  /** A deletion event removes every task with the identifier and keeps the
      others, in their original relative order. */
  lemma DeletionRemoves(s: seq<Task>, id: TaskId)
    ensures var r := ApplyEvent(s, TaskDeleted(id));
            !HasId(r, id) && (forall t :: t in r <==> t in s && t.id != id)
    ensures forall a, b :: s == a + b ==>
              ApplyEvent(s, TaskDeleted(id)) == WithoutId(a, id) + WithoutId(b, id)
  {
    forall a, b | s == a + b ensures WithoutId(s, id) == WithoutId(a, id) + WithoutId(b, id) {
      WithoutIdKeepsOrder(a, b, id);
    }
  }

  /** A deletion event for an identifier that is not listed changes nothing. */
  lemma DeletionOfAbsentId(s: seq<Task>, id: TaskId)
    requires !HasId(s, id)
    ensures ApplyEvent(s, TaskDeleted(id)) == s
  {
    WithoutAbsentId(s, id);
  }

  /** A task whose identifier is listed replaces it in place: the length and
      every element with another identifier stay as they were. */
  lemma ChangeOfListedTask(s: seq<Task>, task: Task)
    requires HasId(s, task.id)
    ensures var r := ApplyEvent(s, TaskChanged(task));
            |r| == |s| &&
            (forall i :: 0 <= i < |s| && s[i].id == task.id ==> r[i] == task) &&
            (forall i :: 0 <= i < |s| && s[i].id != task.id ==> r[i] == s[i])
  {
  }

  /** A task with a new identifier is put in front of the unchanged list. */
  lemma ChangeOfNewTask(s: seq<Task>, task: Task)
    requires !HasId(s, task.id)
    ensures var r := ApplyEvent(s, TaskChanged(task));
            |r| == |s| + 1 && r[0] == task && r[1..] == s
  {
  }

  /** After a task event the list shows that task. */
  lemma ChangeShowsTask(s: seq<Task>, task: Task)
    ensures task in ApplyEvent(s, TaskChanged(task))
  {
  }

  /** Receiving the same event twice leaves the list as receiving it once. */
  lemma ApplyEventIdempotent(s: seq<Task>, e: Event)
    ensures ApplyEvent(ApplyEvent(s, e), e) == ApplyEvent(s, e)
  {
    match e
    case TaskDeleted(id) =>
      DeletionRemoves(s, id);
      WithoutAbsentId(WithoutId(s, id), id);
    case TaskChanged(task) =>
      var r := ApplyEvent(s, e);
      ChangeShowsTask(s, task);
      var i :| 0 <= i < |r| && r[i] == task;
      assert HasId(r, task.id);
      var r2 := Replaced(r, task);
      assert |r2| == |r|;
      forall k | 0 <= k < |r| ensures r2[k] == r[k] {
        if !HasId(s, task.id) && k > 0 {
          assert r[k] == s[k - 1];
        }
      }
  }
}
