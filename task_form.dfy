/**
 * The task form: its state, the submit procedure with validation, the
 * create-or-edit request it sends, and the error text it shows.
 */
module TaskFormView {
  import opened Common
  import opened Text
  import opened ClientTypes

  datatype Verb = Put | Post

  /** `/tasks` or `/tasks/{id}`, relative to the API base. */
  datatype Path = TasksPath | TaskPath(id: int)

  /** The only body the form ever sends. */
  datatype Payload = Payload(nom: string, description: string)

  datatype Request = Request(verb: Verb, path: Path, payload: Payload)

  /** The two inputs of the form, by their `name` attribute. */
  datatype Field = Nom | Description

  const EmptyTask: Task := Task(None, Some(""), Some(""), None)

  const DefaultMessage: string := "Erreur lors de la soumission"

  /** `isEdit`: the form was opened on a task that has an id. A form opened
      on nothing, or on the empty task, creates. */
  predicate IsEdit(initial: Option<Task>): (b: bool)
    ensures b ==> initial.Some? && initial.value.id.Some?
    ensures initial.None? || initial == Some(EmptyTask) ==> !b
  {
    initial.Some? && initial.value.id.Some?
  }

  /** The trimmed `nom` and `description`, when both are present and non-blank. */
  function Validate(form: Task): (r: Option<Payload>)
    ensures r.None? <==>
      || form.nom.None? || IsBlank(form.nom.value)
      || form.description.None? || IsBlank(form.description.value)
    ensures r.Some? ==> r.value == Payload(Trim(form.nom.value), Trim(form.description.value))
    ensures r.Some? ==> r.value.nom != "" && r.value.description != ""
  {
    var nom := if form.nom.Some? then Some(Trim(form.nom.value)) else None;
    var description := if form.description.Some? then Some(Trim(form.description.value)) else None;
    if !TruthyString(nom) || !TruthyString(description) then None
    else Some(Payload(nom.value, description.value))
  }

  /** The request a submit sends: none when validation fails, else PUT to the
      task's path when the form edits a task with an id, else POST. */
  function RequestFor(form: Task, initial: Option<Task>): (r: Option<Request>)
    ensures r.None? <==> Validate(form).None?
    ensures r.Some? ==> r.value.payload == Validate(form).value
    ensures r.Some? ==> (r.value.verb == Put <==> IsEdit(initial))
    ensures r.Some? && IsEdit(initial) ==> r.value.path == TaskPath(initial.value.id.value)
    ensures r.Some? && !IsEdit(initial) ==> r.value.path == TasksPath
  {
    match Validate(form)
    case None => None
    case Some(payload) =>
      if initial.Some? && initial.value.id.Some? then
        Some(Request(Put, TaskPath(initial.value.id.value), payload))
      else
        Some(Request(Post, TasksPath, payload))
  }

  /** The error carries a non-empty `response.data.message`. */
  predicate HasServerMessage(e: Thrown)
  {
    e.Thrown? && e.responseData.Some? && TruthyString(e.responseData.value.message)
  }

  /** The text shown when a submit fails, by priority: the server's
      `response.data.message`, then the error's own `message`, then the
      default text. An empty string never wins. */
  function ErrorMessage(e: Thrown): (m: string)
    ensures m != ""
    ensures HasServerMessage(e) ==> m == e.responseData.value.message.value
    ensures !HasServerMessage(e) && e.Thrown? && TruthyString(e.message) ==> m == e.message.value
    ensures !HasServerMessage(e) && !(e.Thrown? && TruthyString(e.message)) ==> m == DefaultMessage
  {
    match e
    case NonObject => DefaultMessage
    case Thrown(_, message, responseData) =>
      if responseData.Some? then
        if TruthyString(responseData.value.message) then responseData.value.message.value
        else if TruthyString(message) then message.value
        else DefaultMessage
      else if TruthyString(message) then message.value
      else DefaultMessage
  }

  /** The state of the form. */
  class TaskForm {
    var task: Task
    var loading: bool
    var initialTask: Option<Task>

    /** The form opens on `initial`, or on the empty task. */
    constructor (initial: Option<Task>)
      ensures task == initial.GetOr(EmptyTask) && !loading && initialTask == initial
    {
      task := initial.GetOr(EmptyTask);
      loading := false;
      initialTask := initial;
    }

    /** A new `initialTask` prop resets the fields to it, or to the empty task. */
    method ReceiveInitialTask(initial: Option<Task>)
      modifies this`task, this`initialTask
      ensures initialTask == initial && task == initial.GetOr(EmptyTask)
    {
      initialTask := initial;
      task := initial.GetOr(EmptyTask);
    }

    /** `handleChange`: one input's value replaces that field. */
    method Change(field: Field, value: string)
      modifies this`task
      ensures field == Nom ==> task == old(task).(nom := Some(value))
      ensures field == Description ==> task == old(task).(description := Some(value))
    {
      match field {
        case Nom => task := task.(nom := Some(value));
        case Description => task := task.(description := Some(value));
      }
    }

    /** `handleSubmit`, given how the request it sends would end. Returns the
        request sent (none when validation fails), the task handed to
        `onSaved`, the alert text, and whether `onClose` was called. */
    method Submit(reply: Outcome<Task>) returns (request: Option<Request>, saved: Option<Task>, alert: Option<string>, closed: bool)
      modifies this`task, this`loading
      ensures request == RequestFor(old(task), initialTask)
      ensures request.None? ==>
        saved.None? && alert.None? && !closed && task == old(task) && loading == old(loading)
      ensures request.Some? ==> !loading
      ensures request.Some? && reply.Resolved? ==>
        saved == Some(reply.data) && alert.None? && closed && task == EmptyTask
      ensures request.Some? && reply.Rejected? ==>
        saved.None? && alert == Some("Erreur: " + ErrorMessage(reply.error)) && !closed
        && task == old(task)
    {
      saved, alert, closed := None, None, false;
      request := RequestFor(task, initialTask);
      if request.None? {
        return;
      }
      loading := true;
      match reply {
        case Resolved(_, data) =>
          saved := Some(data);
          task := EmptyTask;
          closed := true;
        case Rejected(e) =>
          alert := Some("Erreur: " + ErrorMessage(e));
      }
      loading := false;
    }
  }
}
