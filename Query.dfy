/** The list handler `GET /api/tasks`: a store-level query that keeps the
    tasks the caller may see, narrows them by the optional status and priority
    filters, and returns one page in creation order. */
module Query {
  import opened TaskSchema
  import opened Policy

  /** The `status` and `priority` query parameters; the empty string (or an
      absent parameter) is falsy and imposes no condition. */
  datatype Filter = Filter(status: string, priority: string)

  /** The query string of a list request. Absent `page` and `limit` take the
      defaults 1 and 10. */
  datatype ListQuery = ListQuery(filter: Filter, page: Option<int>, limit: Option<int>)

  function PageNumber(q: ListQuery): int { q.page.GetOr(1) }

  function PageSize(q: ListQuery): int { q.limit.GetOr(10) }

  /** Number of matching tasks skipped before the page starts. */
  function Skip(q: ListQuery): int { (PageNumber(q) - 1) * PageSize(q) }

  function Abs(x: int): nat { if x < 0 then -x else x }

  function Min(a: int, b: int): int { if a < b then a else b }

  /** The status and priority conditions of the query. Empty filters match
      every task; a given filter matches exactly the tasks whose field parses
      from it. */
  predicate MatchesFilter(t: Task, f: Filter): (r: bool)
    ensures f.status == "" && f.priority == "" ==> r
    ensures r <==> (f.status == "" || ParseStatus(f.status) == Some(t.status)) &&
                   (f.priority == "" || ParsePriority(f.priority) == Some(t.priority))
  {
    (f.status == "" || StatusName(t.status) == f.status) &&
    (f.priority == "" || PriorityName(t.priority) == f.priority)
  }

  /** The whole query predicate: visibility conjoined with the filters. */
  predicate Selected(c: Caller, f: Filter, t: Task) {
    OwnerOrShared(c, t) && MatchesFilter(t, f)
  }

  /** The tasks the query matches, in store order. */
  function Select(s: seq<Task>, c: Caller, f: Filter): (r: seq<Task>)
    ensures |r| <= |s|
    ensures forall t :: t in r ==> t in s && Selected(c, f, t)
    ensures forall t :: t in s && Selected(c, f, t) ==> t in r
    ensures IdsIncreasing(s) ==> IdsIncreasing(r)
  {
    if s == [] then []
    else
      var rest := Select(s[1..], c, f);
      if Selected(c, f, s[0]) then
        assert IdsIncreasing(s) ==> forall t :: t in rest ==> s[0].id < t.id by {
          if IdsIncreasing(s) {
            forall t | t in rest ensures s[0].id < t.id {
              var j :| 0 <= j < |s[1..]| && s[1..][j] == t;
              assert s[j + 1] == t;
            }
          }
        }
        [s[0]] + rest
      else rest
  }

  /** A cursor with `skip` and `limit` as MongoDB runs it: a limit of 0 means
      no limit, and a negative limit is taken by its absolute value. */
  function Window(s: seq<Task>, skip: nat, limit: int): (r: seq<Task>)
    ensures |r| == if skip >= |s| then 0
                   else if limit == 0 then |s| - skip
                   else Min(Abs(limit), |s| - skip)
    ensures forall k :: 0 <= k < |r| ==> r[k] == s[skip + k]
  {
    var from := Min(skip, |s|);
    var to := if limit == 0 then |s| else Min(skip + Abs(limit), |s|);
    s[from..to]
  }

  /** The reply of the list handler. A negative skip (a page below 1 with a
      positive limit, or a page above 1 with a negative limit) makes MongoDB
      reject the query, and the handler then sends no reply. */
  function ListTasks(s: seq<Task>, c: Caller, q: ListQuery): (r: Result<seq<Task>>)
    ensures r.Ok? <==> Skip(q) >= 0
    ensures r.Err? ==> r.failure == Unhandled
    ensures r.Ok? ==> forall t :: t in r.value ==> t in s && Selected(c, q.filter, t)
    ensures r.Ok? && PageSize(q) != 0 ==> |r.value| <= Abs(PageSize(q))
  {
    if Skip(q) < 0 then Err(Unhandled)
    else Ok(Window(Select(s, c, q.filter), Skip(q), PageSize(q)))
  }

  /** Every task in the reply is visible to the caller: it owns the task or
      its e-mail is in `sharedWith`. */
  lemma ListOnlyVisible(s: seq<Task>, c: Caller, q: ListQuery, t: Task)
    requires ListTasks(s, c, q).Ok? && t in ListTasks(s, c, q).value
    ensures t.userId == c.id || c.email in t.sharedWith
  {
  }

  /** A non-empty filter holds of every returned task; an empty one restricts nothing. */
  lemma ListHonoursFilters(s: seq<Task>, c: Caller, q: ListQuery, t: Task)
    requires ListTasks(s, c, q).Ok? && t in ListTasks(s, c, q).value
    ensures q.filter.status != "" ==> StatusName(t.status) == q.filter.status
    ensures q.filter.priority != "" ==> PriorityName(t.priority) == q.filter.priority
  {
  }

  /** With no filters and on the first page, the query is exactly visibility:
      every visible task within the page size is returned. */
  lemma UnfilteredFirstPage(s: seq<Task>, c: Caller, size: int)
    requires size > 0
    ensures var r := ListTasks(s, c, ListQuery(Filter("", ""), Some(1), Some(size)));
            r.Ok? && |r.value| == Min(size, |Select(s, c, Filter("", ""))|)
    ensures var r := ListTasks(s, c, ListQuery(Filter("", ""), Some(1), Some(size)));
            forall t :: t in r.value ==> t in s && OwnerOrShared(c, t)
  {
  }

  /** The reply is the run of the matching sequence that starts at the skip
      position: element k of the page is element `Skip + k` of the matches.
      A page past the end is empty, and a limit of 0 takes all the rest. */
  lemma ListIsSlice(s: seq<Task>, c: Caller, q: ListQuery)
    requires Skip(q) >= 0
    ensures var m := Select(s, c, q.filter);
            var r := ListTasks(s, c, q).value;
            (Skip(q) >= |m| ==> r == []) &&
            (Skip(q) < |m| && PageSize(q) == 0 ==> |r| == |m| - Skip(q)) &&
            (Skip(q) < |m| && PageSize(q) != 0 ==> |r| == Min(Abs(PageSize(q)), |m| - Skip(q))) &&
            (forall k :: 0 <= k < |r| ==> r[k] == m[Skip(q) + k])
  {
  }

  /** A caller listed in a task's share list finds it among the matches of an
      unfiltered query. */
  lemma SharedMemberSelects(s: seq<Task>, c: Caller, t: Task)
    requires t in s && c.email in t.sharedWith
    ensures t in Select(s, c, Filter("", ""))
  {
  }

  /** Pages numbered from 1 start at a non-negative offset. */
  lemma PageStartNonNegative(p: int, size: int)
    requires 1 <= p && size > 0
    ensures 0 <= (p - 1) * size
  {
  }

  /** Page p2 starts no earlier than page p1 ends, when p1 < p2. */
  lemma {:induction false} PageStartsAfterEarlierPage(p1: int, p2: int, size: int)
    requires 1 <= p1 < p2 && size > 0
    ensures (p1 - 1) * size + size <= (p2 - 1) * size
    decreases p2 - p1
  {
    if p2 > p1 + 1 {
      PageStartsAfterEarlierPage(p1, p2 - 1, size);
    }
    assert (p2 - 1) * size == (p2 - 2) * size + size;
  }

  /** Two windows of one size over a sequence with increasing identifiers,
      the second starting where the first has ended, share no identifier. */
  lemma WindowsDisjoint(m: seq<Task>, sk1: nat, sk2: nat, size: int)
    requires IdsIncreasing(m) && size > 0 && sk1 + size <= sk2
    ensures forall x, y :: x in Window(m, sk1, size) && y in Window(m, sk2, size) ==> x.id != y.id
  {
  }

  /** Two different pages of the same positive size and the same filters,
      taken from an unchanged store, have no task in common. */
  lemma PagesDisjoint(s: seq<Task>, c: Caller, q1: ListQuery, q2: ListQuery)
    requires IdsIncreasing(s)
    requires q1.filter == q2.filter && PageSize(q1) == PageSize(q2) > 0
    requires PageNumber(q1) >= 1 && PageNumber(q2) >= 1 && PageNumber(q1) != PageNumber(q2)
    ensures ListTasks(s, c, q1).Ok? && ListTasks(s, c, q2).Ok?
    ensures forall x, y :: x in ListTasks(s, c, q1).value && y in ListTasks(s, c, q2).value ==> x.id != y.id
  {
    var size := PageSize(q1);
    var sk1, sk2 := Skip(q1), Skip(q2);
    PageStartNonNegative(PageNumber(q1), size);
    PageStartNonNegative(PageNumber(q2), size);
    var m := Select(s, c, q1.filter);
    assert ListTasks(s, c, q1) == Ok(Window(m, sk1, size));
    assert ListTasks(s, c, q2) == Ok(Window(m, sk2, size));
    if PageNumber(q1) < PageNumber(q2) {
      PageStartsAfterEarlierPage(PageNumber(q1), PageNumber(q2), size);
      WindowsDisjoint(m, sk1, sk2, size);
    } else {
      PageStartsAfterEarlierPage(PageNumber(q2), PageNumber(q1), size);
      WindowsDisjoint(m, sk2, sk1, size);
    }
  }
}
