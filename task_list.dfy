/**
 * The task-list view: its state, the load normalisation, the optimistic
 * delete and toggle with rollback, the merge of a saved task, the counts
 * and the filter-and-search projection. Each async handler is one step.
 */
module TaskListView {
  import opened Common
  import opened Text
  import Sequences
  import opened ClientTypes

  datatype Filter = All | Done | Todo

  datatype Counts = Counts(total: nat, done: nat, todo: int)

  /** What `GET /tasks` resolved with: an array of tasks, or any other JSON value. */
  datatype LoadedData = TaskArray(items: seq<Task>) | OtherValue

  /** `t.done` is truthy. */
  predicate IsDone(t: Task)
  {
    t.done == Some(true)
  }

  predicate IsTodo(t: Task)
  {
    !IsDone(t)
  }

  /** `{ ...t, done: t.done ?? false }`. */
  function NormalizeTask(t: Task): (r: Task)
    ensures r.id == t.id && r.nom == t.nom && r.description == t.description
    ensures t.done.Some? ==> r.done == t.done
    ensures t.done.None? ==> r.done == Some(false)
  {
    t.(done := Some(t.done.GetOr(false)))
  }

  /** `items.map(NormalizeTask)`. */
  function NormalizeAll(items: seq<Task>): (r: seq<Task>)
    ensures |r| == |items|
    ensures forall i :: 0 <= i < |items| ==> r[i] == NormalizeTask(items[i])
  {
    if items == [] then [] else [NormalizeTask(items[0])] + NormalizeAll(items[1..])
  }

  /** The list the view holds after loading: same length and order as the
      array, every `done` a definite boolean (missing becomes false), and the
      empty list when the response is not an array. */
  function Normalize(data: LoadedData): (r: seq<Task>)
    ensures data.OtherValue? ==> r == []
    ensures data.TaskArray? ==> |r| == |data.items|
    ensures forall i :: 0 <= i < |r| ==> r[i].done.Some?
    ensures data.TaskArray? ==> forall i :: 0 <= i < |r| ==>
      && r[i].id == data.items[i].id && r[i].nom == data.items[i].nom
      && r[i].description == data.items[i].description
      && (data.items[i].done.Some? ==> r[i].done == data.items[i].done)
      && (data.items[i].done.None? ==> r[i].done == Some(false))
  {
    match data
    case TaskArray(items) => NormalizeAll(items)
    case OtherValue => []
  }

  /** Normalising twice is the same as normalising once. */
  lemma NormalizeIdempotent(data: LoadedData)
    ensures NormalizeAll(Normalize(data)) == Normalize(data)
  {
  }

  /** The error text shown when the load fails: `err.message` for an
      `Error`, otherwise the fixed network-error text. */
  function LoadErrorText(e: Thrown): (m: string)
    ensures e.Thrown? && e.isError ==> m == e.message.GetOr("")
    ensures !(e.Thrown? && e.isError) ==> m == "Erreur réseau"
  {
    match e
    case Thrown(isError, message, _) => if isError then message.GetOr("") else "Erreur réseau"
    case NonObject => "Erreur réseau"
  }

  /** `tasks.filter(t => t.id !== id)`: the tasks with another id, in order. */
  function WithoutId(tasks: seq<Task>, id: int): (r: seq<Task>)
    ensures Sequences.IsSubseq(r, tasks)
    ensures forall i :: 0 <= i < |r| ==> r[i].id != Some(id)
    ensures forall i :: 0 <= i < |tasks| && tasks[i].id != Some(id) ==> tasks[i] in r
    ensures forall t :: multiset(r)[t] == if t.id != Some(id) then multiset(tasks)[t] else 0
  {
    Sequences.Filter(tasks, (t: Task) => t.id != Some(id))
  }

  /** `tasks.map(t => t.id === id ? { ...t, done } : t)`. */
  function SetDoneWhere(tasks: seq<Task>, id: int, done: bool): (r: seq<Task>)
    ensures |r| == |tasks|
    ensures forall i :: 0 <= i < |tasks| && tasks[i].id == Some(id) ==> r[i] == tasks[i].(done := Some(done))
    ensures forall i :: 0 <= i < |tasks| && tasks[i].id != Some(id) ==> r[i] == tasks[i]
  {
    if tasks == [] then []
    else
      var t := tasks[0];
      [if t.id == Some(id) then t.(done := Some(done)) else t] + SetDoneWhere(tasks[1..], id, done)
  }

  /** `tasks.map(t => t.id === saved.id ? saved : t)`. Like `===` on two
      undefined ids, two missing ids match. */
  function ReplaceWhere(tasks: seq<Task>, saved: Task): (r: seq<Task>)
    ensures |r| == |tasks|
    ensures forall i :: 0 <= i < |tasks| && tasks[i].id == saved.id ==> r[i] == saved
    ensures forall i :: 0 <= i < |tasks| && tasks[i].id != saved.id ==> r[i] == tasks[i]
  {
    if tasks == [] then []
    else [if tasks[0].id == saved.id then saved else tasks[0]] + ReplaceWhere(tasks[1..], saved)
  }

  /** The list after the form reports a saved task: an edit replaces the
      entries with the saved id; a creation is put first. */
  function Merged(tasks: seq<Task>, saved: Task, editing: bool): (r: seq<Task>)
    ensures editing ==> |r| == |tasks| && forall i :: 0 <= i < |tasks| ==>
      r[i] == if tasks[i].id == saved.id then NormalizeTask(saved) else tasks[i]
    ensures !editing ==> |r| == |tasks| + 1 && r[0] == NormalizeTask(saved) && r[1..] == tasks
  {
    var norm := NormalizeTask(saved);
    if editing then ReplaceWhere(tasks, norm) else [norm] + tasks
  }

  /** The first task with the given id, as `tasks.find` returns it. */
  function FirstWithId(tasks: seq<Task>, id: int): (r: Option<Task>)
    ensures r.None? <==> forall i :: 0 <= i < |tasks| ==> tasks[i].id != Some(id)
    ensures r.Some? ==> exists i :: (0 <= i < |tasks| && tasks[i] == r.value
      && tasks[i].id == Some(id) && forall j :: 0 <= j < i ==> tasks[j].id != Some(id))
  {
    if tasks == [] then None
    else if tasks[0].id == Some(id) then Some(tasks[0])
    else
      assert forall j :: 1 <= j < |tasks| ==> tasks[j] == tasks[1..][j - 1];
      var r := FirstWithId(tasks[1..], id);
      if r.Some? then
        ghost var k :| 0 <= k < |tasks| - 1 && tasks[1..][k] == r.value
          && tasks[1..][k].id == Some(id) && forall j :: 0 <= j < k ==> tasks[1..][j].id != Some(id);
        assert tasks[k + 1] == r.value;
        r
      else r
  }

  /** The three numbers shown beside the filter: total, done, and to do. */
  function CountsOf(tasks: seq<Task>): (c: Counts)
    ensures c.total == |tasks| && c.done + c.todo == c.total
    ensures c.done == |Sequences.Filter(tasks, IsDone)|
    ensures c.todo == |Sequences.Filter(tasks, IsTodo)|
  {
    var done := |Sequences.Filter(tasks, IsDone)|;
    Sequences.FilterPartition(tasks, IsDone, IsTodo);
    Counts(|tasks|, done, |tasks| - done)
  }

  /** The `done` part of the projection. */
  predicate InFilter(t: Task, f: Filter)
  {
    match f
    case All => true
    case Done => IsDone(t)
    case Todo => IsTodo(t)
  }

  function Base(tasks: seq<Task>, f: Filter): (r: seq<Task>)
    ensures Sequences.IsSubseq(r, tasks)
    ensures forall i :: 0 <= i < |r| ==> InFilter(r[i], f) && r[i] in tasks
    ensures forall i :: 0 <= i < |tasks| && InFilter(tasks[i], f) ==> tasks[i] in r
    ensures forall t :: multiset(r)[t] == if InFilter(t, f) then multiset(tasks)[t] else 0
    ensures f == All ==> r == tasks
  {
    match f
    case Done => Sequences.Filter(tasks, IsDone)
    case Todo => Sequences.Filter(tasks, IsTodo)
    case All => Sequences.SubseqRefl(tasks); tasks
  }

  /** The search text as compared: trimmed, then lower-cased. */
  function NormalQuery(q: string): (r: string)
    ensures r == "" <==> IsBlank(q)
  {
    Lower(Trim(q))
  }

  /** A task matches a non-empty query when its lower-cased `nom` or
      `description` contains it; a missing field is "". The empty query
      matches every task, and a match is never longer than the field it is in. */
  predicate Matches(t: Task, query: string): (b: bool)
    ensures query == "" ==> b
    ensures b ==> |query| <= |t.nom.GetOr("")| || |query| <= |t.description.GetOr("")|
  {
    || Contains(Lower(t.nom.GetOr("")), query)
    || Contains(Lower(t.description.GetOr("")), query)
  }

  /** Whether a task is shown for a filter and a search text: only tasks
      that pass the filter, and with a blank search every one of them. */
  predicate Selected(t: Task, f: Filter, q: string): (b: bool)
    ensures b ==> InFilter(t, f)
    ensures IsBlank(q) ==> (b <==> InFilter(t, f))
  {
    InFilter(t, f) && (NormalQuery(q) == "" || Matches(t, NormalQuery(q)))
  }

  /** The `filtered` projection: a subsequence of the list in its original
      order, holding exactly the tasks that pass the filter and the search;
      `all` with a blank search is the list itself. */
  function Filtered(tasks: seq<Task>, f: Filter, q: string): (r: seq<Task>)
    ensures Sequences.IsSubseq(r, tasks)
    ensures forall i :: 0 <= i < |r| ==> Selected(r[i], f, q) && r[i] in tasks
    ensures forall i :: 0 <= i < |tasks| && Selected(tasks[i], f, q) ==> tasks[i] in r
    ensures forall t :: multiset(r)[t] == if Selected(t, f, q) then multiset(tasks)[t] else 0
    ensures f == All && IsBlank(q) ==> r == tasks
  {
    var base := Base(tasks, f);
    var query := NormalQuery(q);
    if query == [] then base
    else
      var r := Sequences.Filter(base, (t: Task) => Matches(t, query));
      Sequences.SubseqTrans(r, base, tasks);
      r
  }

  /** A search text that no task passing the filter contains leaves the view empty. */
  lemma NoMatchEmptyView(tasks: seq<Task>, f: Filter, q: string)
    requires forall i :: 0 <= i < |tasks| ==> !Selected(tasks[i], f, q)
    ensures Filtered(tasks, f, q) == []
  {
  }

  /** With a blank search, the `done` and `todo` views are as long as the counts say. */
  lemma ViewsMatchCounts(tasks: seq<Task>, q: string)
    requires IsBlank(q)
    ensures |Filtered(tasks, Done, q)| == CountsOf(tasks).done
    ensures |Filtered(tasks, Todo, q)| == CountsOf(tasks).todo
    ensures |Filtered(tasks, All, q)| == CountsOf(tasks).total
  {
  }

  /** The state of the view. */
  class TaskList {
    var tasks: seq<Task>
    var loading: bool
    var error: Option<string>
    var showForm: bool
    var editingTask: Option<Task>
    var filter: Filter
    var query: string

    /** Starts empty and loading; `storedFilter` is the filter read back from storage. */
    constructor (storedFilter: Filter)
      ensures tasks == [] && loading && error == None
      ensures !showForm && editingTask == None
      ensures filter == storedFilter && query == ""
    {
      tasks, loading, error := [], true, None;
      showForm, editingTask := false, None;
      filter, query := storedFilter, "";
    }

    /** The initial fetch of `/tasks`. */
    method Load(reply: Outcome<LoadedData>)
      modifies this`tasks, this`loading, this`error
      ensures !loading
      ensures reply.Resolved? ==> tasks == Normalize(reply.data) && error == None
      ensures reply.Rejected? ==> tasks == old(tasks) && error == Some(LoadErrorText(reply.error))
    {
      loading := true;
      error := None;
      match reply {
        case Resolved(_, data) =>
          tasks := Normalize(data);
        case Rejected(e) =>
          error := Some(LoadErrorText(e));
      }
      loading := false;
    }

    /** `handleDeleteTask`: no request without an id or without confirmation;
        otherwise remove the id at once, and restore the snapshot unless the
        request resolved with 200 or 204. */
    method DeleteTask(taskId: Option<int>, confirmed: bool, reply: Outcome<()>) returns (requested: bool)
      modifies this`tasks
      ensures requested <==> taskId.Some? && confirmed
      ensures requested && Committed(reply) ==> tasks == WithoutId(old(tasks), taskId.value)
      ensures !(requested && Committed(reply)) ==> tasks == old(tasks)
    {
      if taskId.None? {
        return false;
      }
      if !confirmed {
        return false;
      }
      var snapshot := tasks;
      tasks := WithoutId(tasks, taskId.value);
      requested := true;
      if !Committed(reply) {
        tasks := snapshot;
      }
    }

    /** `handleEditTask`: open the form on the first task with the id, if any. */
    method EditTask(taskId: Option<int>)
      modifies this`editingTask, this`showForm
      ensures var found := if taskId.Some? then FirstWithId(tasks, taskId.value) else None;
        if found.Some? then editingTask == found && showForm
        else editingTask == old(editingTask) && showForm == old(showForm)
    {
      if taskId.None? {
        return;
      }
      var current := FirstWithId(tasks, taskId.value);
      if current.None? {
        return;
      }
      editingTask := current;
      showForm := true;
    }

    /** `toggleDone`: no request without an id; otherwise set every task with
        the id to the negation of the clicked task's `done`, and restore the
        snapshot unless the request resolved with 200 or 204. */
    method ToggleDone(task: Task, reply: Outcome<()>) returns (requested: bool)
      modifies this`tasks
      ensures requested <==> task.id.Some?
      ensures requested && Committed(reply) ==> tasks == SetDoneWhere(old(tasks), task.id.value, !IsDone(task))
      ensures !(requested && Committed(reply)) ==> tasks == old(tasks)
    {
      if task.id.None? {
        return false;
      }
      var nextDone := !IsDone(task);
      var snapshot := tasks;
      tasks := SetDoneWhere(tasks, task.id.value, nextDone);
      requested := true;
      if !Committed(reply) {
        tasks := snapshot;
      }
    }

    /** `handleFormSaved`: merge the saved task, leave edit mode, close the form. */
    method FormSaved(saved: Task)
      modifies this`tasks, this`editingTask, this`showForm
      ensures tasks == Merged(old(tasks), saved, old(editingTask).Some?)
      ensures editingTask == None && !showForm
    {
      var norm := NormalizeTask(saved);
      if editingTask.Some? {
        tasks := ReplaceWhere(tasks, norm);
        editingTask := None;
      } else {
        tasks := [norm] + tasks;
      }
      showForm := false;
    }

    /** `openCreate`: an empty form. */
    method OpenCreate()
      modifies this`editingTask, this`showForm
      ensures editingTask == None && showForm
    {
      editingTask := None;
      showForm := true;
    }

    /** The form's `onClose`. */
    method CloseForm()
      modifies this`editingTask, this`showForm
      ensures editingTask == None && !showForm
    {
      showForm := false;
      editingTask := None;
    }

    method SetFilter(f: Filter)
      modifies this`filter
      ensures filter == f
    {
      filter := f;
    }

    method SetQuery(q: string)
      modifies this`query
      ensures query == q
    {
      query := q;
    }

    /** What the list shows. */
    function Visible(): (r: seq<Task>)
      reads this
      ensures Sequences.IsSubseq(r, tasks)
    {
      Filtered(tasks, filter, query)
    }
  }
}
