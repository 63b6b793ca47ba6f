# To-do task store, modelled in Dafny

A model of the core of a small collaborative to-do web application: the
backend's task store with its REST handlers (`GET`, `POST`, `PUT`, `DELETE
/api/tasks` and `POST /api/tasks/:id/share`) and the dashboard's reducer that
applies `taskUpdate` broadcasts to the task list a client shows.

- `TaskSchema.dfy` — the task document (title, description, priority
  Low/Medium/High, status "In Progress"/"Completed", due date, owner
  `userId`, `sharedWith` e-mails, creation date), the verified caller
  `(id, email)`, request bodies with optional fields, the broadcast events,
  and the failures a handler can end in.
- `Policy.dfy` — the two access checks written inline in the handlers:
  owner-or-shared (list, update, delete) and owner-only (share).
- `Query.dfy` — the list handler as a pure query: visibility, optional
  status/priority equality filters, then MongoDB's `skip`/`limit`.
- `Backend.dfy` — class `TaskStore`: the stored tasks in creation order, the
  registered users' e-mails, and the log of every broadcast event. One method
  per route; each mutating route appends exactly one event on success and
  leaves tasks and log untouched on failure.
- `Dashboard.dfy` — the client's `taskUpdate` reducer as a pure function.

`Backend.dfy` ends with four scenario methods that replay a session using only
the store's contracts. A creates a task that B cannot list. After A shares it,
B can list it. B's status-only toggle is rejected, but B's full update goes
through. Sharing twice lists the e-mail twice. B deletes the task, and a second
delete gets 403.

The store keeps tasks in insertion order, and identifiers are handed out in
increasing order; `TaskStore.Valid()` keeps them strictly increasing and every
stored title non-empty. The list handler sorts by `createdAt`, and the model
takes insertion order for that sort. The two agree only when creation times are
distinct and increase with insertion (see "Left out").

The model follows the code where it departs from the intended design:
- A missing task gets 403, not 404, from update, delete and share.
- Shared members may delete a task, not only its owner.
- Share appends the e-mail even when it is already listed, so duplicates occur.
- Every update must carry a non-empty title, so the dashboard's status-only
  toggle (`frontend/src/components/frontend_src_components_TaskList.jsx:42`) is
  rejected with 400.
- Update copies every field of the body onto the task, including `userId`
  and `sharedWith`, so a shared member can change the owner or the share list;
  create likewise takes `sharedWith` from the body (only `userId` is forced to
  the caller's id).
- An update whose priority or status is not an enumerated name passes the
  route's validators but fails the schema check on save; the async handler
  then rejects and no reply is sent (`Unhandled`). A page/limit combination
  giving a negative skip is rejected by MongoDB the same way. A limit of 0
  means no limit, and a negative limit counts by its absolute value.

## Model

| member | source | states |
|---|---|---|
| TaskSchema.ParsePriority | backend/backend_index.js:45 | a priority string is accepted exactly when it names one of Low, Medium, High, and then names the parsed value |
| TaskSchema.ParseStatus | backend/backend_index.js:46 | a status string is accepted exactly when it is "In Progress" or "Completed", and then names the parsed value |
| TaskSchema.EnumNamesRoundTrip | backend/backend_index.js:45-46 | names and parsing of both enumerations are inverse, in both directions |
| Policy.ShareGrantsAccess | backend/backend_index.js:165 | appending an e-mail to the share list keeps every caller's access to the task, grants it to exactly the holder of that e-mail besides, and changes nobody's ownership |
| Policy.AccessIgnoresContent | backend/backend_index.js:134 | access is decided by the owner and the share list alone: tasks agreeing on both give every caller the same owner-or-shared and owner rights |
| Policy.IsOwner | backend/backend_index.js:160 | an owner has every right of a shared member, and ownership is exactly the access left when the share list is empty |
| Query.MatchesFilter | backend/backend_index.js:106-107 | empty filters match every task; a given status or priority filter matches exactly the tasks whose field parses from it |
| Query.Select | backend/backend_index.js:105-107 | the matching tasks are exactly the stored tasks that are visible to the caller and pass the filters; order (increasing ids) is kept |
| Query.Window | backend/backend_index.js:110-111 | the page has the length MongoDB's skip/limit give (0 = no limit, negative = absolute value) and its k-th element is element skip+k |
| Query.ListTasks | backend/backend_index.js:103-113 | the reply succeeds exactly when the skip is non-negative; every returned task is stored, visible and passes the filters; at most the limit many are returned |
| Query.ListOnlyVisible | backend/backend_index.js:105 | every listed task is owned by the caller or lists the caller's e-mail in sharedWith |
| Query.ListHonoursFilters | backend/backend_index.js:106-107 | a non-empty status or priority filter equals the field of every returned task |
| Query.UnfilteredFirstPage | backend/backend_index.js:104-111 | with no filters, page 1 and a positive limit the reply holds min(limit, number of visible tasks) visible tasks |
| Query.ListIsSlice | backend/backend_index.js:108-111 | the reply is the run of the matching sequence starting at (page-1)*limit: empty when that start is past the end, everything from the start when the limit is 0, and otherwise of length min(abs(limit), what remains) |
| Query.SharedMemberSelects | backend/backend_index.js:105 | a caller whose e-mail is in a stored task's share list finds that task among the matches of an unfiltered query |
| Query.WindowsDisjoint | backend/backend_index.js:110-111 | two windows of one size, the second starting where the first ends, over increasing ids share no id |
| Query.PagesDisjoint | backend/backend_index.js:108-111 | distinct pages (numbered from 1, same positive limit and filters) of an unchanged store share no task |
| Backend.CreateErrors | backend/backend_index.js:115-121 | create is rejected exactly when the title is absent or empty, or the priority or status is absent or not an enumerated name; each message appears exactly when its check fails |
| Backend.NewTask | backend/backend_index.js:122 | a created task's owner is the caller whatever the body says; title, priority, status, description, due date and sharedWith come from the body |
| Backend.Assign | backend/backend_index.js:137-138 | every field present in the body overwrites the stored one, id and createdAt are kept, and an invalid priority or status makes the save fail |
| Backend.AssignAccess | backend/backend_index.js:137 | after a successful assignment the caller has access exactly when it is the owner or listed by the body's userId and sharedWith (the stored ones where absent); a body naming neither leaves every caller's access unchanged |
| Backend.FindIndex | backend/backend_index.js:133 | the lookup finds a position holding the id, or reports none exactly when no stored task has it |
| Backend.RemoveFound | backend/backend_index.js:148 | removing the found task leaves exactly the tasks with another id, ids still increasing |
| Backend.TaskStore.List | backend/backend_index.js:103-113 | list reads the store through the query and returns only stored, visible, filter-passing tasks |
| Backend.TaskStore.Create | backend/backend_index.js:115-126 | invalid body: 400 with the validator messages, nothing changes; otherwise exactly one task with a fresh id and the caller as owner is appended and one event carrying it is logged |
| Backend.TaskStore.Update | backend/backend_index.js:128-141 | empty title: 400; missing task or caller neither owner nor shared: 403; found and allowed: the reply is the assignment's outcome, so an invalid priority or status ends without a reply; store and log unchanged on every failure; on success only that task changes, to the body assigned onto it, and one event is logged |
| Backend.TaskStore.Delete | backend/backend_index.js:143-151 | succeeds exactly when the task exists and the caller is owner or shared member; otherwise 403 and nothing changes; on success exactly that task is removed, the rest keep their order, and the deletion marker is logged |
| Backend.TaskStore.Share | backend/backend_index.js:154-169 | checks in order: bad e-mail 400, missing task or non-owner 403, unknown user 404, nothing changing on failure; on success sharedWith gets the e-mail appended (duplicates kept), only that task changes and one event is logged |
| Dashboard.HasId | frontend/src/components/frontend_src_components_Dashboard.jsx:19 | the scan from the front succeeds exactly when some position holds the identifier |
| Dashboard.ApplyEvent | frontend/src/components/frontend_src_components_Dashboard.jsx:14-25 | after a deletion no task has the identifier and the list did not grow; after a task event the task is listed and the list grew by one exactly when its identifier was new |
| Dashboard.WithoutId | frontend/src/components/frontend_src_components_Dashboard.jsx:16 | the filtered list holds exactly the tasks with another id |
| Dashboard.Replaced | frontend/src/components/frontend_src_components_Dashboard.jsx:21 | the mapped list has the same length and swaps in the event's task exactly at positions with its id |
| Dashboard.WithoutIdKeepsOrder | frontend/src/components/frontend_src_components_Dashboard.jsx:16 | filtering distributes over concatenation, so kept tasks stay in their relative order |
| Dashboard.WithoutAbsentId | frontend/src/components/frontend_src_components_Dashboard.jsx:16 | filtering out an id that is not listed returns the list unchanged |
| Dashboard.DeletionRemoves | frontend/src/components/frontend_src_components_Dashboard.jsx:15-16 | after a deletion event no task has the id, every other task remains, and order is kept |
| Dashboard.DeletionOfAbsentId | frontend/src/components/frontend_src_components_Dashboard.jsx:16 | a deletion event for an unlisted id leaves the list unchanged |
| Dashboard.ChangeOfListedTask | frontend/src/components/frontend_src_components_Dashboard.jsx:19-21 | a task event for a listed id replaces it in place; length and all other elements are unchanged |
| Dashboard.ChangeOfNewTask | frontend/src/components/frontend_src_components_Dashboard.jsx:23 | a task event for a new id puts the task in front of the unchanged list |
| Dashboard.ChangeShowsTask | frontend/src/components/frontend_src_components_Dashboard.jsx:18-24 | after a task event the list contains that task |
| Dashboard.ApplyEventIdempotent | frontend/src/components/frontend_src_components_Dashboard.jsx:14-25 | applying the same event twice gives the same list as applying it once |

## Left out

- Google OAuth strategy, user creation on first login and session
  (de)serialisation (backend/backend_index.js:55-75, 89-94): identity-provider
  callbacks; the registered users are a set of e-mails given to the store's
  constructor.
- Token verification and signing (backend/backend_index.js:78-86, 92): the
  caller is an already verified `(id, email)`; 401 replies are not modelled.
- `GET /api/user` (backend/backend_index.js:97-100): a plain lookup of the
  caller's own profile.
- Rate limiting, CORS, the MongoDB connection, server start-up and socket
  connection logging: framework and I/O wiring.
- The `sort` query parameter: only the default sort is modelled.
- Query.PagesDisjoint: the source sorts by `createdAt`, which is a
  millisecond clock reading, and the model sorts by insertion order instead.
  Two tasks created in the same millisecond tie, and MongoDB fixes no order
  among ties, so in the source two pages may overlap or skip a task. A clock
  that goes backwards also makes the orders differ. The model's listing
  order, and so page disjointness, holds of the source only when creation
  times are distinct and increase with insertion. `Create` does not
  constrain its `now` parameter.
- The end of the server process after `Unhandled`: an async handler's
  rejected promise is not caught by the framework, and on a Node.js runtime
  that ends the process on unhandled rejections the whole service stops for
  every client. The model only says that no reply is sent and the store is
  unchanged, and keeps serving later requests.
- `createdAt` and `_id` sent in a request body: the model ignores them; a
  client-supplied `createdAt` would reorder the default listing.
- Casting by MongoDB: non-numeric `page`/`limit`, malformed ObjectIds and
  non-string field values are not modelled; ids are natural numbers and
  page/limit integers.
- Dates are opaque integers; the clock reading for `createdAt` is a parameter.
- The `isEmail` syntax check is an arbitrary predicate fixed when the store is
  built.
- Concurrency between requests and the delivery of broadcasts: the model is
  sequential and the event log records what was emitted, not who receives it.
- The client's fetch, pagination buttons, re-emits of events and all rendering
  (TaskForm, TaskList, FilterBar, Login, App, useAuth): UI and network code.
