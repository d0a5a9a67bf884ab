/**
 * The store and the two views together: what a record looks like once it
 * reaches the client as JSON, and five end-to-end scenarios.
 */
module Scenarios {
  import opened Common
  import TaskServer
  import opened ClientTypes
  import opened TaskListView
  import opened TaskFormView

  /** A stored record as the client receives it in a JSON body. */
  function Serialize(t: TaskServer.Task): (r: Task)
    ensures r.id == Some(t.id) && r.done == Some(t.done)
    ensures r.nom == t.nom && r.description == t.description
  {
    Task(Some(t.id), t.nom, t.description, Some(t.done))
  }

  function SerializeAll(s: seq<TaskServer.Task>): (r: seq<Task>)
    ensures |r| == |s|
    ensures forall i :: 0 <= i < |s| ==> r[i] == Serialize(s[i])
  {
    if s == [] then [] else [Serialize(s[0])] + SerializeAll(s[1..])
  }

  /** The request body the server receives from the form. */
  function BodyOf(p: Payload): (b: TaskServer.Body)
    ensures b.id.None? && b.done.None?
    ensures b.nom == Some(p.nom) && b.description == Some(p.description)
  {
    TaskServer.Body(None, Some(p.nom), Some(p.description), None)
  }

  /** Loading the seed and choosing the `done` filter shows exactly task 3. */
  lemma SeedDoneViewIsTaskThree()
    ensures var view := Filtered(Normalize(TaskArray(SerializeAll(TaskServer.Seed()))), Done, "");
      view == [Serialize(TaskServer.Seed()[2])] && view[0].id == Some(3)
  {
  }

  /** Creating from the form: the server appends a record with the next id,
      the trimmed fields and `done` false; the view then shows it first. */
  lemma CreatedFromFormComesFirst(form: Task, s: seq<TaskServer.Task>, view: seq<Task>)
    requires RequestFor(form, None).Some?
    ensures var req := RequestFor(form, None).value;
      var stored := TaskServer.Created(s, BodyOf(req.payload));
      var rec := stored[|s|];
      var shown := Merged(view, Serialize(rec), false);
      && req.verb == Post && req.path == TasksPath
      && rec.id == |s| + 1 && !rec.done
      && rec.nom == Some(Text.Trim(form.nom.value))
      && rec.description == Some(Text.Trim(form.description.value))
      && shown[0] == Serialize(rec) && shown[0].done == Some(false)
      && shown[1..] == view
  {
  }

  /** Editing from the form never changes the stored record's id or `done`,
      and keeps the store's ids unique. */
  lemma EditKeepsIdAndDone(form: Task, initial: Task, s: seq<TaskServer.Task>)
    requires initial.id.Some? && TaskServer.UniqueIds(s)
    requires RequestFor(form, Some(initial)).Some?
    ensures var req := RequestFor(form, Some(initial)).value;
      var id := req.path.id;
      var r := TaskServer.Replaced(s, id, BodyOf(req.payload));
      && req.verb == Put && id == initial.id.value
      && TaskServer.UniqueIds(r)
      && (forall i :: 0 <= i < |s| ==> r[i].id == s[i].id && r[i].done == s[i].done)
  {
  }

  /** Toggling id 2 on the seed flips task 2 and nothing else; the next list shows it. */
  lemma ToggleTwoPersists()
    ensures var s := TaskServer.Toggled(TaskServer.Seed(), 2);
      && s[1].done && s[0] == TaskServer.Seed()[0] && s[2] == TaskServer.Seed()[2]
      && s[1] == TaskServer.Seed()[1].(done := true)
  {
  }

  /** Deleting id 99 from the seed: the server answers 404 and keeps its
      list; removing the id from the view changes nothing either, so with
      `TaskList.DeleteTask` the view ends with the list it had whatever the reply. */
  lemma DeleteUnknownChangesNothing()
    ensures !TaskServer.HasId(TaskServer.Seed(), 99)
    ensures TaskServer.Deleted(TaskServer.Seed(), 99) == TaskServer.Seed()
    ensures var view := SerializeAll(TaskServer.Seed());
      WithoutId(view, 99) == view
  {
  }
}
