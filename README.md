# Task manager: store, list view and form, in Dafny

This project models the core of a small task-management web application
and proves properties of the model.

* **The store** (back end). It keeps an in-memory list of task records
  `{id, nom, description, done}`, seeded with three tasks, and serves five
  handlers under `/api/tasks`:
  * POST appends a record with id `length + 1` and `done` defaulting to false;
  * PATCH negates `done`;
  * PUT shallow-merges the request body over the record;
  * DELETE splices the record out;
  * GET returns the list.

  Each keyed handler acts on the *first* record with the id, or answers 404
  and changes nothing. It is the class `TaskServer.TaskStore`, holding a
  `seq<Task>`. Each method's new state is given by a specification function
  (`Created`, `Toggled`, `Replaced`, `Deleted`), and the lemmas are stated
  about these functions.
* **The task-list view** (front end). It covers:
  * the normalisation of the loaded list;
  * the optimistic delete and toggle: take a snapshot, apply the change,
    then keep it on status 200 or 204 or restore the snapshot exactly;
  * the merge of a task saved by the form: replace on edit, prepend on create;
  * the counts and the filter-and-search projection.

  It is the class `TaskListView.TaskList` plus pure functions for the
  transforms.
* **The task form** (front end). Its submit trims and validates `nom` and
  `description`. It then sends PUT `/tasks/{id}` or POST `/tasks` with
  exactly those two fields, and on failure picks the error text by
  priority. It is the class `TaskFormView.TaskForm`. The decisions are the
  pure functions `Validate`, `RequestFor` and `ErrorMessage`.

The network is a parameter. A request's result is an `Outcome`: either
`Resolved(status, data)` or `Rejected(thrown value)`. Each async handler is
modelled as one atomic step. The confirm prompt is a boolean parameter, and
the alert text is returned. `Scenarios` joins the store and the views
through the JSON form of a record and proves five end-to-end scenarios.

Files: `common.dfy` (Option), `text.dfy` (trim, lower-case, includes),
`sequences.dfy` (filter and the subsequence relation), `task_server.dfy`,
`client_types.dfy`, `task_list.dfy`, `task_form.dfy`, `scenarios.dfy`.

## Model

| member | source | states |
|---|---|---|
| TaskServer.Seed | back-end/index.js:18-22 | three records with ids 1 to 3 (canonical, hence unique); only id 3 is done |
| TaskServer.NewTask | back-end/index.js:30-32 | the record POST makes: the assigned id replaces any body id, `nom` and `description` come from the body, `done` is true only if the body says true |
| TaskServer.FindIndex | back-end/index.js:50 | -1 exactly when no record has the id; otherwise the index of the first record with it |
| TaskServer.Created | back-end/index.js:28-35 | one record longer; earlier records unchanged; new record has id `length + 1`, the body's `nom` and `description`, and `done` true only if the body says true (absent gives false) |
| TaskServer.Toggled | back-end/index.js:37-46 | unknown id leaves the list unchanged; otherwise only the first match changes, and only its `done`, which is negated |
| TaskServer.Merge | back-end/index.js:54 | each field present in the body overwrites; each absent field keeps the record's value |
| TaskServer.Replaced | back-end/index.js:48-56 | unknown id leaves the list unchanged; otherwise the first match becomes its merge with the body and every other record is unchanged |
| TaskServer.Deleted | back-end/index.js:62-70 | unknown id leaves the list unchanged; otherwise one shorter, records before the first match in place, records after it shifted down by one |
| TaskServer.DeletedIsSubseq | back-end/index.js:68 | deletion keeps the remaining records in their original order |
| TaskServer.ToggleTwiceRestores | back-end/index.js:44 | toggling the same id twice restores the original list |
| TaskServer.OnlyEarliestDuplicateReached | back-end/index.js:40-68 | when two records share an id, toggle, replace and delete never touch the later one, and after delete the id is still present |
| TaskServer.KeyedOperationsKeepUnique | back-end/index.js:37-70 | toggle, delete, and replace with a body that does not change the id, keep ids unique |
| TaskServer.DeleteRemovesId | back-end/index.js:62-70 | with unique ids, after delete no record has the deleted id |
| TaskServer.CreateAllCanonical | back-end/index.js:31 | any sequence of creates keeps record `i` at id `i + 1` |
| TaskServer.CreateOnlyKeepsUnique | back-end/index.js:18-35 | from the seed, any sequence of creates alone keeps all ids unique |
| TaskServer.DeleteThenCreateDuplicatesId | back-end/index.js:31 | deleting id 1 from the seed and then creating gives ids 2, 3, 3: no longer unique |
| TaskServer.MaxId | back-end/index.js:31 | a non-negative bound on every id, reached by some id when positive |
| TaskServer.CreatedFresh | back-end/index.js:28-35 | corrected create: appends one record with a positive id that no existing record has, the body's `nom` and `description`, and `done` true only if the body says true; earlier records unchanged |
| TaskServer.FreshCreateKeepsUnique | back-end/index.js:31 | corrected create keeps ids unique after any history |
| TaskServer.FreshAgreesOnCanonical | back-end/index.js:31 | on a canonical list (record `i` has id `i + 1`), the corrected create is identical to the original |
| TaskServer.PutIdThenCreateDuplicatesId | back-end/index.js:28-56 | from the seed, PUT /api/tasks/1 with `{id: 4}` keeps ids unique but not canonical; a following POST gives a second record with id 4, while the corrected create gives id 5 and keeps ids unique |
| TaskServer.TaskStore.constructor | back-end/index.js:18-22 | the store starts as the seed |
| TaskServer.TaskStore.Create | back-end/index.js:28-35 | new list is `Created(old list, body)`; reply 201 with the appended record |
| TaskServer.TaskStore.Toggle | back-end/index.js:37-46 | new list is `Toggled`; reply 404 with the message when the id is unknown, else 200 with the toggled record |
| TaskServer.TaskStore.Replace | back-end/index.js:48-56 | new list is `Replaced`; reply 404 with the message when the id is unknown, else 200 with the merged record |
| TaskServer.TaskStore.List | back-end/index.js:58-60 | reply 200 with the current list unchanged |
| TaskServer.TaskStore.Delete | back-end/index.js:62-70 | new list is `Deleted`; reply 204 with no body, or 404 with the message when the id is unknown |
| Text.Trim | front-end/src/views/taskform.tsx:30-31 | result is the infix left after removing ECMAScript whitespace at both ends; it is empty exactly when the input is blank |
| Text.TrimIdempotent | front-end/src/views/tasklist.tsx:139 | trimming twice equals trimming once |
| Text.Lower | front-end/src/views/tasklist.tsx:139 | same length, each character lower-cased |
| Text.Contains | front-end/src/views/tasklist.tsx:143-144 | true exactly when the needle occurs at some position of the haystack |
| Text.ContainsEmpty | front-end/src/views/tasklist.tsx:143-144 | every string contains ""; "" contains only "" |
| Sequences.Filter | front-end/src/views/tasklist.tsx:135-136 | a subsequence of the input holding exactly the elements that satisfy the predicate, each as many times as it occurs in the input |
| Sequences.FilterPartition | front-end/src/views/tasklist.tsx:128-129 | filtering by a predicate and by its negation gives lengths that add up to the whole |
| TaskListView.NormalizeTask | front-end/src/views/tasklist.tsx:26-29 | id, `nom` and `description` kept; a present `done` kept; a missing `done` becomes false |
| TaskListView.NormalizeAll | front-end/src/views/tasklist.tsx:26-29 | same length, each task normalised in place |
| TaskListView.Normalize | front-end/src/views/tasklist.tsx:24-30 | a non-array becomes []; an array keeps its length and order; every task gets a definite `done` (missing becomes false) and keeps its other fields |
| TaskListView.NormalizeIdempotent | front-end/src/views/tasklist.tsx:26-29 | normalising a loaded list again changes nothing |
| TaskListView.LoadErrorText | front-end/src/views/tasklist.tsx:33 | `err.message` for an `Error`, the network-error text otherwise |
| TaskListView.WithoutId | front-end/src/views/tasklist.tsx:55 | a subsequence in which no task has the id, and every task with another id is kept as many times as it occurs |
| TaskListView.SetDoneWhere | front-end/src/views/tasklist.tsx:90 | same length; tasks with the id get the given `done` and keep every other field; all other tasks untouched |
| TaskListView.ReplaceWhere | front-end/src/views/tasklist.tsx:110 | same length; tasks with the saved id become the saved task; all others untouched |
| TaskListView.Merged | front-end/src/views/tasklist.tsx:107-117 | edit: same length, entries with the saved id replaced by the normalised saved task; create: the normalised task at index 0, followed by the old list |
| TaskListView.FirstWithId | front-end/src/views/tasklist.tsx:77 | none exactly when no task has the id; otherwise the first task with it |
| TaskListView.CountsOf | front-end/src/views/tasklist.tsx:126-131 | `done + todo == total == length`; `done` is the number of done tasks, `todo` the number of not-done tasks |
| TaskListView.Base | front-end/src/views/tasklist.tsx:135-137 | a subsequence holding exactly the tasks that pass the `done` filter, each as many times as in the list; `all` gives the list itself |
| TaskListView.Matches | front-end/src/views/tasklist.tsx:142-145 | the empty query matches every task; a matching query is no longer than the `nom` or the `description` it occurs in |
| TaskListView.Selected | front-end/src/views/tasklist.tsx:134-145 | a shown task always passes the `done` filter; with a blank search, exactly the tasks passing the filter are shown |
| TaskListView.NormalQuery | front-end/src/views/tasklist.tsx:139-140 | empty exactly when the search text is blank |
| TaskListView.Filtered | front-end/src/views/tasklist.tsx:134-146 | a subsequence of the list, in the original order, holding exactly the tasks that pass the filter and (for a non-blank search) whose lower-cased `nom` or `description` contains the trimmed, lower-cased search; a missing field counts as ""; each kept as many times as it occurs in the list; `all` with a blank search gives the list itself |
| TaskListView.NoMatchEmptyView | front-end/src/views/tasklist.tsx:139-145 | a search that no task passing the filter matches gives an empty view |
| TaskListView.ViewsMatchCounts | front-end/src/views/tasklist.tsx:126-146 | with a blank search, the lengths of the `done`, `todo` and `all` views equal the counts |
| TaskListView.TaskList.constructor | front-end/src/views/tasklist.tsx:11-17 | empty list, loading, no error, form closed, no task being edited, the stored filter, empty search |
| TaskListView.TaskList.Load | front-end/src/views/tasklist.tsx:19-39 | resolved: list is the normalised data, no error; rejected: list unchanged, error text set; loading ends false |
| TaskListView.TaskList.DeleteTask | front-end/src/views/tasklist.tsx:45-69 | a request is made exactly when there is an id and the user confirmed; the list ends as `WithoutId` only if that request resolved with 200 or 204, otherwise it equals the snapshot |
| TaskListView.TaskList.EditTask | front-end/src/views/tasklist.tsx:71-81 | with an id that some task has, the form opens on the first such task; otherwise nothing changes |
| TaskListView.TaskList.ToggleDone | front-end/src/views/tasklist.tsx:83-105 | a request is made exactly when the task has an id; the tasks with that id get the negated `done` only if the request resolved with 200 or 204, otherwise the list equals the snapshot |
| TaskListView.TaskList.FormSaved | front-end/src/views/tasklist.tsx:107-118 | list becomes `Merged(old list, saved, editing)`; no task being edited; form closed |
| TaskListView.TaskList.OpenCreate | front-end/src/views/tasklist.tsx:120-123 | form open with no task being edited |
| TaskListView.TaskList.CloseForm | front-end/src/views/tasklist.tsx:179 | form closed with no task being edited |
| TaskListView.TaskList.SetFilter | front-end/src/views/tasklist.tsx:158 | the filter becomes the chosen one |
| TaskListView.TaskList.SetQuery | front-end/src/views/tasklist.tsx:170 | the search text becomes the typed one |
| TaskListView.TaskList.Visible | front-end/src/views/tasklist.tsx:189 | what is shown is a subsequence of the list |
| ClientTypes.Committed | front-end/src/views/tasklist.tsx:58 | the test shared by delete and toggle (also line 94): only a resolved reply commits, and only with a 2xx status; status 200 and 204 always commit |
| TaskFormView.IsEdit | front-end/src/views/taskform.tsx:41 | `isEdit` (also line 92): editing only when the form was opened on a task with an id; a form opened on nothing or on the empty task creates |
| TaskFormView.Validate | front-end/src/views/taskform.tsx:30-36 | rejects exactly when `nom` or `description` is missing or blank; otherwise gives the two trimmed, non-empty strings |
| TaskFormView.RequestFor | front-end/src/views/taskform.tsx:41-47 | no request exactly when validation rejects; the payload is exactly the trimmed `{nom, description}`; PUT exactly when `isEdit`, to `/tasks/{id}` of the initial task; POST to `/tasks` otherwise |
| TaskFormView.ErrorMessage | front-end/src/views/taskform.tsx:67-85 | never empty; a non-empty `response.data.message` wins, then a non-empty `err.message`, then the default text |
| TaskFormView.TaskForm.constructor | front-end/src/views/taskform.tsx:16-17 | fields start from the initial task or the empty task; not loading |
| TaskFormView.TaskForm.ReceiveInitialTask | front-end/src/views/taskform.tsx:19-21 | a new initial task resets the fields to it, or to the empty task |
| TaskFormView.TaskForm.Change | front-end/src/views/taskform.tsx:23-26 | the edited input's field takes the typed value; the other fields stay |
| TaskFormView.TaskForm.Submit | front-end/src/views/taskform.tsx:28-90 | sends `RequestFor(fields, initial task)`. Invalid: nothing is saved, closed or alerted, and fields and loading are unchanged. Success: `onSaved` receives the response data, the fields reset to the empty task and the form closes. Failure: nothing is saved, the alert shows `ErrorMessage`, the form stays open. Loading ends false after any request |
| Scenarios.Serialize | back-end/index.js:34 | the JSON form of a stored record carries its id and its `done` |
| Scenarios.BodyOf | front-end/src/views/taskform.tsx:43-46 | the body the server receives from the form carries exactly `nom` and `description`, with no `id` and no `done` |
| Scenarios.SeedDoneViewIsTaskThree | front-end/src/views/tasklist.tsx:134-146 | loading the seed with the `done` filter and no search shows exactly task 3 |
| Scenarios.CreatedFromFormComesFirst | front-end/src/views/taskform.tsx:44-50 | a valid creation POSTs to `/tasks`; the server stores id `length + 1`, the trimmed fields and `done` false; the view shows it first, then the old list |
| Scenarios.EditKeepsIdAndDone | front-end/src/views/taskform.tsx:41-43 | a valid edit PUTs to the initial task's id; every stored id and `done` is unchanged and ids stay unique |
| Scenarios.ToggleTwoPersists | back-end/index.js:37-46 | toggling id 2 on the seed makes task 2 done and leaves tasks 1 and 3 as they were |
| Scenarios.DeleteUnknownChangesNothing | front-end/src/views/tasklist.tsx:54-68 | deleting id 99 from the seed: the server has no such id and keeps its list; removing id 99 from the view leaves it unchanged, so with `TaskList.DeleteTask` the view keeps its list whatever the reply |

## Findings

| source | as written | input that shows it | evidently intended | confidence | as-written member | corrected member |
|---|---|---|---|---|---|---|
| back-end/index.js:31 | the new id is `tasks.length + 1` | from the seed: DELETE id 1, then POST. The new record gets id 3, which "Task 3" already has. Later PATCH, PUT and DELETE of id 3 reach only the earlier record | a new id that no record in the store has | not executed | TaskServer.DeleteThenCreateDuplicatesId | TaskServer.FreshCreateKeepsUnique |
| back-end/index.js:31 | the new id is `tasks.length + 1`, while PUT (line 54) copies a body `id` into the record | from the seed, with no deletion: PUT /api/tasks/1 with `{id: 4}`, then POST. The new record gets id 4, which the updated record already has | a new id that no record in the store has | not executed | TaskServer.PutIdThenCreateDuplicatesId | TaskServer.FreshCreateKeepsUnique |

The corrected rule is `TaskServer.CreatedFresh`: the new id is the largest
id in use plus one. `TaskServer.FreshAgreesOnCanonical` proves it agrees
with the original rule on canonical lists, where record `i` has id `i + 1`.
The seed is canonical and POST keeps it so. DELETE, and a PUT whose body
carries an `id`, can make a list non-canonical, and then the two rules can
differ.
`TaskStore.Create` keeps the original rule, because that is what the
server does. `TaskServer.OnlyEarliestDuplicateReached` shows what happens
to the keyed handlers once ids are duplicated.

## Left out

- Express wiring is not modelled: routing, CORS, JSON body parsing, `listen` and the `/` route are framework glue.
- Path ids are taken as already-parsed integers. A segment that `parseInt` turns into NaN matches no record, the same as an unknown id.
- Request bodies carry only the four known fields. Extra fields, which the spread would copy, are not modelled. Neither are non-boolean `done` values or ids of other JSON types. A JSON `null` field is treated as absent.
- The store keeps the request body object itself as the new record (object aliasing). Nothing in the system observes this.
- The axios instance and base URL are replaced by the abstract `Outcome`. Axios's rejection of non-2xx statuses falls under `Rejected`.
- Toasts, `console`, React rendering and localStorage persistence of the filter are UI and side effects. The stored filter is given to the `TaskList` constructor. The `confirm` dialog becomes a boolean parameter, and the `alert` text is returned.
- `App.tsx` (page navigation) and `users.tsx` (a read-only fetch from a third-party API) are not part of this model.
- Overlapping optimistic mutations, whose closures capture a stale snapshot, are a concurrency race. Each handler is one atomic step.
- Text.Lower: lower-cases only the ASCII letters A to Z. Full Unicode case mapping is not modelled. `trim` uses the exact ECMAScript whitespace set.
- The client's PATCH body `{done: nextDone}` is ignored by the server, so server toggle is unconditional.
- The filter has exactly the three values `all`, `done` and `todo`. Any other stored string would take the `all` branch.
- Client task ids are integers or absent. String ids, which the client type allows, are not modelled.
- `onSaved` is taken as always provided, as it is by the list view that opens the form.
- A `null` element of the loaded array makes the normalisation throw, because `t.done` is read on it. This is not modelled. Other non-object elements (numbers, strings, booleans, arrays) spread into objects without the task fields and get `done: false`. The model covers them as tasks whose fields are all missing, apart from the index keys that strings and arrays spread, which it does not represent.
