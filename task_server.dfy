/**
 * The back end's in-memory task store: the module-level `tasks` array and
 * the POST, PATCH, PUT, GET and DELETE handlers of `/api/tasks`, each one
 * handler run as a single step. Path ids arrive already parsed to integers.
 */
module TaskServer {
  import opened Common
  import Sequences

  /** A stored record. `create` always sets `id` and `done`; `nom` and
      `description` are whatever the request body carried. */
  datatype Task = Task(id: int, nom: Option<string>, description: Option<string>, done: bool)

  /** A JSON request body restricted to the four known fields; `None` is an
      absent (or null) field. */
  datatype Body = Body(id: Option<int>, nom: Option<string>, description: Option<string>, done: Option<bool>)

  datatype Payload = Record(task: Task) | Records(tasks: seq<Task>) | Message(text: string) | NoContent

  datatype Response = Response(status: int, payload: Payload)

  const NotFoundMessage: string := "Task non trouvé"

  /** The reply of the three keyed handlers when no record has the id. */
  const NotFound: Response := Response(404, Message(NotFoundMessage))

  /** Record `i` has id `i + 1`: the shape the seed has and POST keeps.
      DELETE and a PUT whose body carries an `id` can break it. */
  predicate CanonicalIds(s: seq<Task>)
  {
    forall i :: 0 <= i < |s| ==> s[i].id == i + 1
  }

  /** No two records share an id. */
  predicate UniqueIds(s: seq<Task>)
  {
    forall i, j :: 0 <= i < j < |s| ==> s[i].id != s[j].id
  }

  predicate HasId(s: seq<Task>, id: int)
  {
    exists i :: 0 <= i < |s| && s[i].id == id
  }

  lemma CanonicalIsUnique(s: seq<Task>)
    requires CanonicalIds(s)
    ensures UniqueIds(s)
  {
  }

  /** The seed the store starts with: three records with ids 1 to 3, only the third done. */
  function Seed(): (s: seq<Task>)
    ensures |s| == 3 && CanonicalIds(s) && UniqueIds(s)
    ensures forall i :: 0 <= i < |s| ==> (s[i].done <==> s[i].id == 3)
  {
    [ Task(1, Some("Task 1"), Some("Desc 1"), false),
      Task(2, Some("Task 2"), Some("Desc 2"), false),
      Task(3, Some("Task 3"), Some("Desc 3"), true) ]
  }

  /** `tasks.findIndex(t => t.id === id)`: the first matching index, or -1. */
  function FindIndex(s: seq<Task>, id: int): (r: int)
    ensures -1 <= r < |s|
    ensures r == -1 <==> !HasId(s, id)
    ensures r >= 0 ==> s[r].id == id && forall j :: 0 <= j < r ==> s[j].id != id
  {
    if s == [] then -1
    else if s[0].id == id then 0
    else
      var k := FindIndex(s[1..], id);
      assert forall j :: 1 <= j < |s| ==> s[j] == s[1..][j - 1];
      if k == -1 then -1 else k + 1
  }

  /** The record POST makes of a body, given the id it assigns: the body's
      own `id` is overwritten and a missing `done` becomes false. */
  function NewTask(id: int, body: Body): (t: Task)
    ensures t.id == id
    ensures t.nom == body.nom && t.description == body.description
    ensures t.done <==> body.done == Some(true)
  {
    Task(id, body.nom, body.description, body.done.GetOr(false))
  }

  /** The store after POST. */
  function Created(s: seq<Task>, body: Body): (r: seq<Task>)
    ensures |r| == |s| + 1 && r[..|s|] == s
    ensures r[|s|].id == |s| + 1
    ensures r[|s|].nom == body.nom && r[|s|].description == body.description
    ensures r[|s|].done <==> body.done == Some(true)
  {
    s + [NewTask(|s| + 1, body)]
  }

  /** The store after PATCH: the first record with the id has `done` negated. */
  function Toggled(s: seq<Task>, id: int): (r: seq<Task>)
    ensures |r| == |s|
    ensures !HasId(s, id) ==> r == s
    ensures HasId(s, id) ==> var i := FindIndex(s, id);
      && r[i] == s[i].(done := !s[i].done)
      && forall j :: 0 <= j < |s| && j != i ==> r[j] == s[j]
  {
    var i := FindIndex(s, id);
    if i == -1 then s else s[i := s[i].(done := !s[i].done)]
  }

  /** `{ ...t, ...body }`. */
  function Merge(t: Task, body: Body): (r: Task)
    ensures body.id.Some? ==> r.id == body.id.value
    ensures body.id.None? ==> r.id == t.id
    ensures body.nom.Some? ==> r.nom == body.nom
    ensures body.nom.None? ==> r.nom == t.nom
    ensures body.description.Some? ==> r.description == body.description
    ensures body.description.None? ==> r.description == t.description
    ensures body.done.Some? ==> r.done == body.done.value
    ensures body.done.None? ==> r.done == t.done
  {
    Task(body.id.GetOr(t.id),
         if body.nom.Some? then body.nom else t.nom,
         if body.description.Some? then body.description else t.description,
         body.done.GetOr(t.done))
  }

  /** The store after PUT: the first record with the id is merged with the body. */
  function Replaced(s: seq<Task>, id: int, body: Body): (r: seq<Task>)
    ensures |r| == |s|
    ensures !HasId(s, id) ==> r == s
    ensures HasId(s, id) ==> var i := FindIndex(s, id);
      && r[i] == Merge(s[i], body)
      && forall j :: 0 <= j < |s| && j != i ==> r[j] == s[j]
  {
    var i := FindIndex(s, id);
    if i == -1 then s else s[i := Merge(s[i], body)]
  }

  /** The store after DELETE: `splice(i, 1)` at the first record with the id. */
  function Deleted(s: seq<Task>, id: int): (r: seq<Task>)
    ensures !HasId(s, id) ==> r == s
    ensures HasId(s, id) ==> var i := FindIndex(s, id);
      && |r| == |s| - 1
      && (forall j :: 0 <= j < i ==> r[j] == s[j])
      && (forall j :: i <= j < |r| ==> r[j] == s[j + 1])
  {
    var i := FindIndex(s, id);
    if i == -1 then s else s[..i] + s[i + 1..]
  }

  /** Deletion keeps the surviving records in their original order. */
  lemma DeletedIsSubseq(s: seq<Task>, id: int)
    ensures Sequences.IsSubseq(Deleted(s, id), s)
  {
    var i := FindIndex(s, id);
    if i == -1 {
      Sequences.SubseqRefl(s);
    } else {
      DropOneIsSubseq(s, i);
    }
  }

  lemma {:induction false} DropOneIsSubseq(s: seq<Task>, i: nat)
    requires i < |s|
    ensures Sequences.IsSubseq(s[..i] + s[i + 1..], s)
    decreases i
  {
    if i == 0 {
      assert s[..0] + s[1..] == s[1..];
      Sequences.SubseqRefl(s[1..]);
      Sequences.SubseqWeaken(s[1..], s[1..], s[0]);
      assert [s[0]] + s[1..] == s;
    } else {
      DropOneIsSubseq(s[1..], i - 1);
      var d := s[..i] + s[i + 1..];
      assert d[0] == s[0];
      assert d[1..] == s[1..][..i - 1] + s[1..][i..];
    }
  }

  /** Negating `done` twice on the same id gives back the original store. */
  lemma ToggleTwiceRestores(s: seq<Task>, id: int)
    ensures Toggled(Toggled(s, id), id) == s
  {
  }

  /** From then on the keyed operations only ever reach the EARLIEST record
      with a duplicated id: a later one is neither toggled, merged nor removed. */
  lemma OnlyEarliestDuplicateReached(s: seq<Task>, i: nat, j: nat, body: Body)
    requires i < j < |s| && s[i].id == s[j].id
    ensures Toggled(s, s[j].id)[j] == s[j]
    ensures Replaced(s, s[j].id, body)[j] == s[j]
    ensures s[j] in Deleted(s, s[j].id) && HasId(Deleted(s, s[j].id), s[j].id)
  {
  }

  /** PATCH, DELETE, and PUT with a body that does not change the id, keep ids unique. */
  lemma KeyedOperationsKeepUnique(s: seq<Task>, id: int, body: Body)
    requires UniqueIds(s)
    requires body.id.None? || body.id == Some(id)
    ensures UniqueIds(Toggled(s, id))
    ensures UniqueIds(Replaced(s, id, body))
    ensures UniqueIds(Deleted(s, id))
  {
  }

  /** With unique ids, a record deleted by id is gone from the list. */
  lemma DeleteRemovesId(s: seq<Task>, id: int)
    requires UniqueIds(s)
    ensures !HasId(Deleted(s, id), id)
  {
  }

  /** POSTing keeps the canonical id shape. */
  lemma CreatePreservesCanonical(s: seq<Task>, body: Body)
    requires CanonicalIds(s)
    ensures CanonicalIds(Created(s, body))
  {
  }

  /** The store after a sequence of POSTs, in order. */
  function CreateAll(s: seq<Task>, bodies: seq<Body>): (r: seq<Task>)
    ensures |r| == |s| + |bodies|
    decreases |bodies|
  {
    if bodies == [] then s else CreateAll(Created(s, bodies[0]), bodies[1..])
  }

  /** Starting from the seed, any number of POSTs (and nothing else) keeps every id unique. */
  lemma {:induction false} CreateOnlyKeepsUnique(bodies: seq<Body>)
    ensures UniqueIds(CreateAll(Seed(), bodies))
  {
    CreateAllCanonical(Seed(), bodies);
    CanonicalIsUnique(CreateAll(Seed(), bodies));
  }

  lemma {:induction false} CreateAllCanonical(s: seq<Task>, bodies: seq<Body>)
    requires CanonicalIds(s)
    ensures CanonicalIds(CreateAll(s, bodies))
    decreases |bodies|
  {
    if bodies != [] {
      CreatePreservesCanonical(s, bodies[0]);
      CreateAllCanonical(Created(s, bodies[0]), bodies[1..]);
    }
  }

  /** The defect of the `length + 1` rule: deleting id 1 from the seed and
      then POSTing gives the new record id 3, which record "Task 3" already has. */
  lemma DeleteThenCreateDuplicatesId(body: Body)
    ensures var s := Created(Deleted(Seed(), 1), body);
      && |s| == 3 && s[1].id == 3 && s[2].id == 3
      && !UniqueIds(s)
  {
  }

  /** The same defect without any deletion: PUT copies a body `id` into the
      record, so from the seed PUT /api/tasks/1 with `{id: 4}` and then POST
      gives two records with id 4. The corrected rule gives the new one id 5. */
  lemma PutIdThenCreateDuplicatesId(body: Body)
    ensures var p := Replaced(Seed(), 1, Body(Some(4), None, None, None));
      var s := Created(p, body);
      && UniqueIds(p) && !CanonicalIds(p)
      && |s| == 4 && s[0].id == 4 && s[3].id == 4 && !UniqueIds(s)
      && CreatedFresh(p, body)[3].id == 5 && UniqueIds(CreatedFresh(p, body))
  {
  }

  /** Largest id in the store, or 0 when it is empty. */
  function MaxId(s: seq<Task>): (m: int)
    ensures m >= 0
    ensures forall i :: 0 <= i < |s| ==> s[i].id <= m
    ensures s != [] && m > 0 ==> HasId(s, m)
  {
    if s == [] then 0
    else
      var m := MaxId(s[..|s| - 1]);
      assert forall i :: 0 <= i < |s| - 1 ==> s[..|s| - 1][i] == s[i];
      if s[|s| - 1].id > m then s[|s| - 1].id else m
  }

  /** The corrected POST: the new id is one past the largest id in use. */
  function CreatedFresh(s: seq<Task>, body: Body): (r: seq<Task>)
    ensures |r| == |s| + 1 && r[..|s|] == s
    ensures !HasId(s, r[|s|].id) && r[|s|].id > 0
    ensures r[|s|].nom == body.nom && r[|s|].description == body.description
    ensures r[|s|].done <==> body.done == Some(true)
  {
    s + [NewTask(MaxId(s) + 1, body)]
  }

  /** With the corrected rule POST keeps ids unique after any history. */
  lemma FreshCreateKeepsUnique(s: seq<Task>, body: Body)
    requires UniqueIds(s)
    ensures UniqueIds(CreatedFresh(s, body))
  {
  }

  /** On a canonical list (record `i` has id `i + 1`) both rules pick the
      same id, so from the seed the correction changes nothing a client
      that only creates could observe. */
  lemma {:induction false} FreshAgreesOnCanonical(s: seq<Task>, body: Body)
    requires CanonicalIds(s)
    ensures CreatedFresh(s, body) == Created(s, body)
    decreases |s|
  {
  }

  /** The store. Each method is one request handler run to completion. */
  class TaskStore {
    var tasks: seq<Task>

    constructor ()
      ensures tasks == Seed()
    {
      tasks := Seed();
    }

    /** POST /api/tasks: 201 with the appended record. */
    method Create(body: Body) returns (r: Response)
      modifies this
      ensures tasks == Created(old(tasks), body)
      ensures r == Response(201, Record(tasks[|tasks| - 1]))
    {
      var task := NewTask(|tasks| + 1, body);
      tasks := tasks + [task];
      r := Response(201, Record(task));
    }

    /** PATCH /api/tasks/:id: 200 with the toggled record, or 404 and no change. */
    method Toggle(id: int) returns (r: Response)
      modifies this
      ensures tasks == Toggled(old(tasks), id)
      ensures !HasId(old(tasks), id) ==> r == NotFound
      ensures HasId(old(tasks), id) ==> r == Response(200, Record(tasks[FindIndex(old(tasks), id)]))
    {
      var i := FindIndex(tasks, id);
      if i == -1 {
        return NotFound;
      }
      tasks := tasks[i := tasks[i].(done := !tasks[i].done)];
      r := Response(200, Record(tasks[i]));
    }

    /** PUT /api/tasks/:id: 200 with the merged record, or 404 and no change. */
    method Replace(id: int, body: Body) returns (r: Response)
      modifies this
      ensures tasks == Replaced(old(tasks), id, body)
      ensures !HasId(old(tasks), id) ==> r == NotFound
      ensures HasId(old(tasks), id) ==> r == Response(200, Record(tasks[FindIndex(old(tasks), id)]))
    {
      var i := FindIndex(tasks, id);
      if i == -1 {
        return NotFound;
      }
      tasks := tasks[i := Merge(tasks[i], body)];
      r := Response(200, Record(tasks[i]));
    }

    /** GET /api/tasks: 200 with the whole list, in insertion order. */
    method List() returns (r: Response)
      ensures r.status == 200 && r.payload == Records(tasks)
    {
      r := Response(200, Records(tasks));
    }

    /** DELETE /api/tasks/:id: 204 with no body, or 404 and no change. */
    method Delete(id: int) returns (r: Response)
      modifies this
      ensures tasks == Deleted(old(tasks), id)
      ensures r == if HasId(old(tasks), id) then Response(204, NoContent) else NotFound
    {
      var i := FindIndex(tasks, id);
      if i == -1 {
        return NotFound;
      }
      tasks := tasks[..i] + tasks[i + 1..];
      r := Response(204, NoContent);
    }
  }
}
