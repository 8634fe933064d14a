/** The task records exchanged with the remote todo service, and the shapes
    used to describe a remote call's outcome and the errors the client raises. */
module Types {

  datatype Option<+T> = None | Some(value: T)

  datatype Result<+R, +E> = Success(value: R) | Failure(error: E)

  /** A task as held in the list. `userId` is optional: the list fetch selects
      only `id`, `todo` and `completed`, so loaded tasks carry no owner. */
  datatype Todo = Todo(id: int, todo: string, completed: bool, userId: Option<int>)

  /** The body the service returns for a create or an update; on an error
      response only `message` is meaningful. */
  datatype TodoResponse = TodoResponse(
    id: int, todo: string, completed: bool, userId: Option<int>, message: Option<string>)

  datatype TodoStatusFilter = All | Completed | Pending

  /** The `key` of a document `keydown` event, as far as the modals read it. */
  datatype Key = Escape | Enter | OtherKey

  /** What a remote call produced: the request never completed (fetch
      rejected), or a response with its status flag and its body, `None`
      when the body is not valid JSON. */
  datatype Reply<T> = NetworkError(reason: string) | Response(ok: bool, body: Option<T>)

  /** The errors the client code throws. */
  datatype Error =
    | NetworkFailure(reason: string)  // fetch itself rejected
    | BadJson                         // response.json() rejected
    | Thrown(message: string)         // an Error raised by this code

  /** The task as stored in the list cache (the response's `message` is dropped). */
  function AsTodo(r: TodoResponse): (t: Todo)
    ensures t.id == r.id && t.todo == r.todo && t.completed == r.completed && t.userId == r.userId
  {
    Todo(r.id, r.todo, r.completed, r.userId)
  }

  /** `message || fallback`: an absent or empty server message is replaced. */
  function MessageOr(message: Option<string>, fallback: string): (r: string)
    ensures message.Some? && message.value != "" ==> r == message.value
    ensures message.None? || message.value == "" ==> r == fallback
    ensures fallback != "" ==> r != ""
  {
    if message.Some? && message.value != "" then message.value else fallback
  }

  /** How a create or update mutation turns the service's reply into its
      result: the body is parsed first, then a non-ok status throws with the
      server's message or the given fallback. */
  function MutationOutcome(reply: Reply<TodoResponse>, fallback: string): (r: Result<TodoResponse, Error>)
    ensures r.Success? <==> reply.Response? && reply.ok && reply.body.Some?
    ensures r.Success? ==> r.value == reply.body.value
    ensures reply.Response? && reply.body.None? ==> r == Failure(BadJson)
    ensures reply.NetworkError? ==> r == Failure(NetworkFailure(reply.reason))
    ensures reply.Response? && !reply.ok && reply.body.Some? ==>
              r == Failure(Thrown(MessageOr(reply.body.value.message, fallback)))
  {
    match reply
    case NetworkError(reason) => Failure(NetworkFailure(reason))
    case Response(ok, body) =>
      match body
      case None => Failure(BadJson)
      case Some(data) => if ok then Success(data) else Failure(Thrown(MessageOr(data.message, fallback)))
  }
}
