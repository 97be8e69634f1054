/**
 * The tasks page's API client (`app/tasks/simple-api.ts`): it turns what its
 * `fetch` gave into an `ApiResponse` and never throws.
 */
module TasksApi {
  import opened Wrappers
  import opened Dicts
  import opened Json
  import opened Http

  /** Whether a body holds a task list: a truthy `data` with a truthy `tasks`. */
  predicate HoldsTasks(body: Json) {
    TruthyOpt(Member(body, "data")) && TruthyOpt(MemberOf(Member(body, "data"), "tasks"))
  }

  /** How `fetchTaskList` reads an ok body; reading a `null` body throws. */
  function TaskListFromBody(body: Json): (r: ApiResponse)
    ensures r.success <==> HoldsTasks(body)
    ensures r.success ==> r.data == Member(body, "data") && TruthyOpt(MemberOf(r.data, "tasks"))
    ensures r.success && TruthyOpt(Member(body, "message")) ==> r.message == Member(body, "message").value
    ensures r.success && !TruthyOpt(Member(body, "message")) ==> r.message == Str("Tasks loaded successfully")
    ensures !r.success && body != Null ==> r == Failure("No task data received from server")
    ensures body == Null ==> r == Failure(ErrorMessage(NullReadError("data"), "Unknown error"))
  {
    if body == Null then Failure(ErrorMessage(NullReadError("data"), "Unknown error"))
    else if HoldsTasks(body) then
      ApiResponse(true, OrElse(Member(body, "message"), Str("Tasks loaded successfully")), Member(body, "data"))
    else Failure("No task data received from server")
  }

  /** `fetchTaskList`: succeeds exactly when an ok response's body holds a task list. */
  function FetchTaskList(result: FetchResult): (r: ApiResponse)
    ensures r.success <==> result.Responded? && result.ok && result.body.Parsed? && HoldsTasks(result.body.value)
    ensures r.success ==> TruthyOpt(MemberOf(r.data, "tasks"))
    ensures !r.success ==> r.data.None?
    ensures result.Responded? && !result.ok ==> r == Failure(ApiErrorMessage(result.status, result.statusText))
    ensures result.Threw? ==> r == Failure(ErrorMessage(result.error, "Unknown error"))
  {
    match result
    case Threw(e) => Failure(ErrorMessage(e, "Unknown error"))
    case Responded(ok, status, statusText, body) =>
      if !ok then Failure(ApiErrorMessage(status, statusText))
      else match body
        case Parsed(v) => TaskListFromBody(v)
        case Unparsable(_) => Failure(ErrorMessage(BodyError(body), "Unknown error"))
  }

  /** The body `cancelTask` posts: exactly `{ action: 'cancel', task_id }`. */
  function CancelRequestBody(taskId: string): (body: Json)
    ensures body.Obj? && Keys(body.members) == ["action", "task_id"]
    ensures Member(body, "action") == Some(Str("cancel")) && Member(body, "task_id") == Some(Str(taskId))
  {
    Obj([("action", Str("cancel")), ("task_id", Str(taskId))])
  }

  /** `cancelTask`: an ok response succeeds with the fixed message and its body as `data`. */
  function CancelTask(result: FetchResult): (r: ApiResponse)
    ensures r.success <==> result.Responded? && result.ok && result.body.Parsed?
    ensures r.success ==> r.message == Str("Task cancelled successfully") && r.data == Some(result.body.value)
    ensures !r.success ==> r.data.None?
    ensures result.Responded? && !result.ok ==> r == Failure(ApiErrorMessage(result.status, result.statusText))
    ensures result.Threw? ==> r == Failure(ErrorMessage(result.error, "Unknown error"))
  {
    match result
    case Threw(e) => Failure(ErrorMessage(e, "Unknown error"))
    case Responded(ok, status, statusText, body) =>
      if !ok then Failure(ApiErrorMessage(status, statusText))
      else match body
        case Parsed(v) => ApiResponse(true, Str("Task cancelled successfully"), Some(v))
        case Unparsable(_) => Failure(ErrorMessage(BodyError(body), "Unknown error"))
  }

  /** Both functions report a non-ok status the same way. */
  lemma NonOkReportedAlike(result: FetchResult)
    requires result.Responded? && !result.ok
    ensures FetchTaskList(result) == CancelTask(result)
    ensures !FetchTaskList(result).success
  {
  }
}
