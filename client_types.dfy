/**
 * What the two client views share: the task record as the client sees it,
 * and the abstract result of an HTTP request made through the axios instance.
 */
module ClientTypes {
  import opened Common

  /** A task as the client holds it: every field may be missing. */
  datatype Task = Task(id: Option<int>, nom: Option<string>, description: Option<string>, done: Option<bool>)

  /** `response.data` of a rejected request, when it is an object. */
  datatype ErrorData = ErrorData(message: Option<string>)

  /** The value a rejected request throws. `NonObject` is anything that is not
      an object; `responseData` is `Some` when both `response` and
      `response.data` are present; `isError` tells `instanceof Error`. */
  datatype Thrown =
    | NonObject
    | Thrown(isError: bool, message: Option<string>, responseData: Option<ErrorData>)

  /** A request either resolves with a status and a body, or is rejected
      (a transport failure, or a status axios refuses). */
  datatype Outcome<T> = Resolved(status: int, data: T) | Rejected(error: Thrown)

  /** The optimistic handlers keep their speculative change exactly when the
      request resolved with status 200 or 204; a rejection never commits. */
  predicate Committed<T>(o: Outcome<T>): (b: bool)
    ensures b ==> o.Resolved? && 200 <= o.status < 300
    ensures o.Resolved? && (o.status == 200 || o.status == 204) ==> b
  {
    o.Resolved? && (o.status == 200 || o.status == 204)
  }
}
