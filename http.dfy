/**
 * What a `fetch` in the frontend can give, and the `{success, message, data}`
 * objects the API clients return. The request itself is not modelled: the
 * outcome of each `fetch` and of `response.json()` is a parameter.
 */
module Http {
  import opened Wrappers
  import opened Text
  import opened Json

  /** What a `catch` block receives: an `Error` with its message, or any other thrown value. */
  datatype Thrown = ErrorThrown(message: string) | OtherThrown

  /** `error instanceof Error ? error.message : fallback`. */
  function ErrorMessage(e: Thrown, fallback: string): (m: string)
    ensures e.ErrorThrown? ==> m == e.message
    ensures e.OtherThrown? ==> m == fallback
  {
    match e
    case ErrorThrown(message) => message
    case OtherThrown => fallback
  }

  /** What `await response.json()` gives: the parsed value, or a rejection with a `SyntaxError`. */
  datatype Body = Parsed(value: Json) | Unparsable(message: string)

  /** What `await fetch(…)` gave: a rejection, or a response with its status line and body. */
  datatype FetchResult =
    | Threw(error: Thrown)
    | Responded(ok: bool, status: int, statusText: string, body: Body)

  /** The error a body read throws, as caught: a `SyntaxError` is an `Error`. */
  function BodyError(body: Body): Thrown
    requires body.Unparsable?
  {
    ErrorThrown(body.message)
  }

  /**
   * Reading property `key` of a body that is JSON `null` throws a
   * `TypeError`; this is the message the JavaScript engine of the browser
   * and of Node.js gives it.
   */
  function NullReadError(key: string): Thrown {
    ErrorThrown("Cannot read properties of null (reading '" + key + "')")
  }

  /** An `ApiResponse`: `data` is `None` when the object has no `data` member. */
  datatype ApiResponse = ApiResponse(success: bool, message: Json, data: Option<Json>)

  /** A failure object with a message and no data. */
  function Failure(message: string): (r: ApiResponse)
    ensures !r.success && r.message == Str(message) && r.data.None?
  {
    ApiResponse(false, Str(message), None)
  }

  /** `API Error: <status> - <statusText>`. */
  function ApiErrorMessage(status: int, statusText: string): string {
    "API Error: " + IntToString(status) + " - " + statusText
  }

  /** `<what> (<status>)`, as in `Failed to fetch tasks (500)`. */
  function StatusMessage(what: string, status: int): string {
    what + " (" + IntToString(status) + ")"
  }

  /**
   * What a client function returns: an object it builds, or the response
   * body exactly as the server sent it.
   */
  datatype ClientResult = Built(response: ApiResponse) | Verbatim(body: Json)

  /** `{ tasks: <list> }`. */
  function TasksObject(tasks: Json): (r: Json)
    ensures Member(r, "tasks") == Some(tasks)
  {
    Obj([("tasks", tasks)])
  }

  /** `{ tasks: [] }`. */
  const NoTasks: Json := TasksObject(Arr([]))
}
