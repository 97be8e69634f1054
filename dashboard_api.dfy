/**
 * The dashboard's API client (`components/dashboard/simple-api.ts`): each
 * function turns what its `fetch` gave into an `ApiResponse`, or passes the
 * response body through unchanged, and builds the request bodies with their
 * defaults.
 */
module DashboardApi {
  import opened Wrappers
  import opened Text
  import opened Dicts
  import opened Json
  import opened Http

  // ---------------------------------------------------------------------------
  // Request options and bodies
  // ---------------------------------------------------------------------------

  /** A `RequestInit`: its headers (a plain object, if given) and its other fields. */
  datatype RequestInit = RequestInit(fields: Dict<Json>, headers: Option<Dict<string>>)

  const DefaultHeaders: Dict<string> := [("Content-Type", "application/json")]

  /** `createFetchOptions(options)`: the caller's fields, and the default headers overlaid by the caller's. */
  function CreateFetchOptions(options: RequestInit): (r: RequestInit)
    ensures r.fields == options.fields && r.headers.Some?
  {
    RequestInit(options.fields, Some(Spread(DefaultHeaders, options.headers.GetOr([]))))
  }

  /**
   * A header the caller gives is sent with the caller's value; otherwise
   * `Content-Type` is `application/json` and no other header is sent.
   */
  lemma CreateFetchOptionsHeader(options: RequestInit, name: string)
    requires options.headers.Some? ==> UniqueKeys(options.headers.value)
    ensures Lookup(CreateFetchOptions(options).headers.value, name) ==
      if options.headers.Some? && name in Keys(options.headers.value) then Lookup(options.headers.value, name)
      else if name == "Content-Type" then Some("application/json")
      else None
  {
    SpreadLookup(DefaultHeaders, options.headers.GetOr([]), name);
  }

  /** `createFetchOptions()` with no argument sends only `Content-Type: application/json`. */
  lemma DefaultFetchOptions()
    ensures CreateFetchOptions(RequestInit([], None)) == RequestInit([], Some(DefaultHeaders))
  {
  }

  /** The body `cancelTask` posts: exactly `{ taskId }`. */
  function CancelTaskBody(taskId: string): (body: Json)
    ensures body.Obj? && Keys(body.members) == ["taskId"]
    ensures Member(body, "taskId") == Some(Str(taskId))
  {
    Obj([("taskId", Str(taskId))])
  }

  /** The optional fields of `sendChatMessage`. */
  datatype ChatOptions = ChatOptions(model: Option<string>, apiKey: Option<string>, agentMode: Option<bool>)

  /** The body `sendChatMessage` posts. */
  datatype ChatRequest = ChatRequest(message: string, model: string, apiKey: string, agentMode: bool)

  /** A string option that `||` keeps: present and non-empty. */
  predicate Given(s: Option<string>) {
    s.Some? && s.value != ""
  }

  /**
   * `sendChatMessage`'s body: each option the caller gives is sent, and
   * each one missing (or empty, or false) takes its default.
   */
  function ChatRequestBody(message: string, options: Option<ChatOptions>): (r: ChatRequest)
    ensures r.message == message
    ensures options.Some? && Given(options.value.model) ==> r.model == options.value.model.value
    ensures !(options.Some? && Given(options.value.model)) ==> r.model == "gpt-3.5-turbo"
    ensures options.Some? && Given(options.value.apiKey) ==> r.apiKey == options.value.apiKey.value
    ensures !(options.Some? && Given(options.value.apiKey)) ==> r.apiKey == "USE_SERVER_KEY"
    ensures r.agentMode <==> options.Some? && options.value.agentMode == Some(true)
  {
    match options
    case None => ChatRequest(message, "gpt-3.5-turbo", "USE_SERVER_KEY", false)
    case Some(o) =>
      ChatRequest(
        message,
        if Given(o.model) then o.model.value else "gpt-3.5-turbo",
        if Given(o.apiKey) then o.apiKey.value else "USE_SERVER_KEY",
        o.agentMode.GetOr(false))
  }

  /** The chat body never sends an empty model or key. */
  lemma ChatRequestNeverEmpty(message: string, options: Option<ChatOptions>)
    ensures ChatRequestBody(message, options).model != ""
    ensures ChatRequestBody(message, options).apiKey != ""
  {
  }

  /** The body `createAgentTask` posts. */
  datatype AgentTaskRequest = AgentTaskRequest(taskType: string, message: string, options: Dict<Json>, apiKey: Json)

  /** `createAgentTask`'s body: `options || {}`, and the options' own key when truthy, else `USE_SERVER_KEY`. */
  function AgentTaskBody(taskType: string, message: string, options: Option<Dict<Json>>): (r: AgentTaskRequest)
    ensures r.taskType == taskType && r.message == message
    ensures r.options == options.GetOr([])
    ensures TruthyOpt(Lookup(r.options, "apiKey")) ==> r.apiKey == Lookup(r.options, "apiKey").value
    ensures !TruthyOpt(Lookup(r.options, "apiKey")) ==> r.apiKey == Str("USE_SERVER_KEY")
  {
    var opts := options.GetOr([]);
    AgentTaskRequest(taskType, message, opts, OrElse(Member(Obj(opts), "apiKey"), Str("USE_SERVER_KEY")))
  }

  /** The key sent with an agent task is always truthy. */
  lemma AgentTaskKeyTruthy(taskType: string, message: string, options: Option<Dict<Json>>)
    ensures Truthy(AgentTaskBody(taskType, message, options).apiKey)
  {
  }

  // ---------------------------------------------------------------------------
  // Responses
  // ---------------------------------------------------------------------------

  /** `fetchStatus`: the status body as `data`, or a failure without data. */
  function FetchStatus(result: FetchResult): (r: ApiResponse)
    ensures r.success <==> result.Responded? && result.ok && result.body.Parsed?
    ensures r.success ==> r.message == Str("Success") && r.data == Some(result.body.value)
    ensures !r.success ==> r.data.None?
    ensures result.Responded? && !result.ok ==> r.message == Str(ApiErrorMessage(result.status, result.statusText))
    ensures result.Threw? ==> r.message == Str(ErrorMessage(result.error, "Unknown error"))
    ensures result.Responded? && result.ok && result.body.Unparsable? ==>
      r.message == Str(ErrorMessage(BodyError(result.body), "Unknown error"))
  {
    match result
    case Threw(e) => Failure(ErrorMessage(e, "Unknown error"))
    case Responded(ok, status, statusText, body) =>
      if !ok then Failure(ApiErrorMessage(status, statusText))
      else match body
        case Parsed(v) => ApiResponse(true, Str("Success"), Some(v))
        case Unparsable(_) => Failure(ErrorMessage(BodyError(body), "Unknown error"))
  }

  /**
   * The shape shared by the clients that pass the body through: an ok
   * response's body as sent; a non-ok status as `<what> (<status>)`; a
   * thrown error's message, or `unknown`. Every failure carries `failData`.
   */
  function Forwarded(result: FetchResult, what: string, unknown: string, failData: Option<Json>): (r: ClientResult)
    ensures r.Verbatim? <==> result.Responded? && result.ok && result.body.Parsed?
    ensures r.Verbatim? ==> r.body == result.body.value
    ensures r.Built? ==> !r.response.success && r.response.data == failData
    ensures result.Responded? && !result.ok ==> r.Built? && r.response.message == Str(StatusMessage(what, result.status))
    ensures result.Threw? ==> r.Built? && r.response.message == Str(ErrorMessage(result.error, unknown))
  {
    match result
    case Threw(e) => Built(ApiResponse(false, Str(ErrorMessage(e, unknown)), failData))
    case Responded(ok, status, _, body) =>
      if !ok then Built(ApiResponse(false, Str(StatusMessage(what, status)), failData))
      else match body
        case Parsed(v) => Verbatim(v)
        case Unparsable(_) => Built(ApiResponse(false, Str(ErrorMessage(BodyError(body), unknown)), failData))
  }

  /** `fetchTasks`: the body as sent, or a failure that always carries `{ tasks: [] }`. */
  function FetchTasks(result: FetchResult): (r: ClientResult)
    ensures r.Verbatim? <==> result.Responded? && result.ok && result.body.Parsed?
    ensures r.Verbatim? ==> r.body == result.body.value
    ensures r.Built? ==> !r.response.success && r.response.data == Some(NoTasks)
    ensures result.Responded? && !result.ok ==> r.Built? && r.response.message == Str(StatusMessage("Failed to fetch tasks", result.status))
    ensures result.Responded? && result.ok && result.body.Unparsable? ==> r.Built? && r.response.message == Str(result.body.message)
    ensures result.Threw? ==> r.Built? && r.response.message == Str(ErrorMessage(result.error, "Unknown error fetching tasks"))
  {
    Forwarded(result, "Failed to fetch tasks", "Unknown error fetching tasks", Some(NoTasks))
  }

  /** `cancelTask`: the body as sent, or a failure without data. */
  function CancelTask(result: FetchResult): (r: ClientResult)
    ensures r.Verbatim? <==> result.Responded? && result.ok && result.body.Parsed?
    ensures r.Verbatim? ==> r.body == result.body.value
    ensures r.Built? ==> !r.response.success && r.response.data.None?
    ensures result.Responded? && !result.ok ==> r.Built? && r.response.message == Str(StatusMessage("Failed to cancel task", result.status))
    ensures result.Responded? && result.ok && result.body.Unparsable? ==> r.Built? && r.response.message == Str(result.body.message)
    ensures result.Threw? ==> r.Built? && r.response.message == Str(ErrorMessage(result.error, "Unknown error cancelling task"))
  {
    Forwarded(result, "Failed to cancel task", "Unknown error cancelling task", None)
  }

  /** `sendChatMessage`: the body as sent, or a failure without data. */
  function SendChatMessage(result: FetchResult): (r: ClientResult)
    ensures r.Verbatim? <==> result.Responded? && result.ok && result.body.Parsed?
    ensures r.Verbatim? ==> r.body == result.body.value
    ensures r.Built? ==> !r.response.success && r.response.data.None?
    ensures result.Responded? && !result.ok ==> r.Built? && r.response.message == Str(StatusMessage("Failed to send message", result.status))
    ensures result.Responded? && result.ok && result.body.Unparsable? ==> r.Built? && r.response.message == Str(result.body.message)
    ensures result.Threw? ==> r.Built? && r.response.message == Str(ErrorMessage(result.error, "Unknown error sending message"))
  {
    Forwarded(result, "Failed to send message", "Unknown error sending message", None)
  }

  /** `createAgentTask`: the body as sent, or a failure without data. */
  function CreateAgentTask(result: FetchResult): (r: ClientResult)
    ensures r.Verbatim? <==> result.Responded? && result.ok && result.body.Parsed?
    ensures r.Verbatim? ==> r.body == result.body.value
    ensures r.Built? ==> !r.response.success && r.response.data.None?
    ensures result.Responded? && !result.ok ==> r.Built? && r.response.message == Str(StatusMessage("Failed to create task", result.status))
    ensures result.Responded? && result.ok && result.body.Unparsable? ==> r.Built? && r.response.message == Str(result.body.message)
    ensures result.Threw? ==> r.Built? && r.response.message == Str(ErrorMessage(result.error, "Unknown error creating task"))
  {
    Forwarded(result, "Failed to create task", "Unknown error creating task", None)
  }

  /** `fetchTaskStatus`: the body as sent, or a failure without data. */
  function FetchTaskStatus(result: FetchResult): (r: ClientResult)
    ensures r.Verbatim? <==> result.Responded? && result.ok && result.body.Parsed?
    ensures r.Verbatim? ==> r.body == result.body.value
    ensures r.Built? ==> !r.response.success && r.response.data.None?
    ensures result.Responded? && !result.ok ==> r.Built? && r.response.message == Str(StatusMessage("Failed to fetch task status", result.status))
    ensures result.Responded? && result.ok && result.body.Unparsable? ==> r.Built? && r.response.message == Str(result.body.message)
    ensures result.Threw? ==> r.Built? && r.response.message == Str(ErrorMessage(result.error, "Unknown error fetching task status"))
  {
    Forwarded(result, "Failed to fetch task status", "Unknown error fetching task status", None)
  }

  /** A successful body whose `data` holds tasks: the first source `fetchHumanInLoopTasks` tries. */
  predicate FromData(body: Json) {
    TruthyOpt(Member(body, "success")) && TruthyOpt(MemberOf(Member(body, "data"), "tasks"))
  }

  /**
   * How `fetchHumanInLoopTasks` reads an ok body: the body's `data` when it
   * succeeded and holds tasks, else the body's own `tasks` wrapped, else no
   * tasks. Reading a `null` body throws.
   */
  function HumanTasksFromBody(body: Json): (r: ApiResponse)
    ensures r.success <==> body != Null
    ensures !r.success ==> r == Failure(ErrorMessage(NullReadError("success"), "Unknown error"))
    ensures body != Null && FromData(body) ==>
      r.data == Member(body, "data") && r.message == OrElse(Member(body, "message"), Str("Success"))
    ensures body != Null && !FromData(body) ==> r.message == Str("Success")
    ensures body != Null && !FromData(body) && TruthyOpt(Member(body, "tasks")) ==>
      r.data == Some(TasksObject(Member(body, "tasks").value))
    ensures body != Null && !FromData(body) && !TruthyOpt(Member(body, "tasks")) ==> r.data == Some(NoTasks)
  {
    if body == Null then Failure(ErrorMessage(NullReadError("success"), "Unknown error"))
    else if FromData(body) then
      ApiResponse(true, OrElse(Member(body, "message"), Str("Success")), Member(body, "data"))
    else if TruthyOpt(Member(body, "tasks")) then
      ApiResponse(true, Str("Success"), Some(TasksObject(Member(body, "tasks").value)))
    else
      ApiResponse(true, Str("Success"), Some(NoTasks))
  }

  /** `fetchHumanInLoopTasks`. */
  function FetchHumanInLoopTasks(result: FetchResult): (r: ApiResponse)
    ensures r.success <==> result.Responded? && result.ok && result.body.Parsed? && result.body.value != Null
    ensures r.success ==> TruthyOpt(MemberOf(r.data, "tasks")) || MemberOf(r.data, "tasks") == Some(Arr([]))
    ensures !r.success ==> r.data.None?
    ensures result.Responded? && !result.ok ==> r == Failure(ApiErrorMessage(result.status, result.statusText))
    ensures result.Responded? && result.ok && result.body.Parsed? ==> r == HumanTasksFromBody(result.body.value)
    ensures result.Responded? && result.ok && result.body.Unparsable? ==>
      r == Failure(ErrorMessage(BodyError(result.body), "Unknown error"))
    ensures result.Threw? ==> r == Failure(ErrorMessage(result.error, "Unknown error"))
  {
    match result
    case Threw(e) => Failure(ErrorMessage(e, "Unknown error"))
    case Responded(ok, status, statusText, body) =>
      if !ok then Failure(ApiErrorMessage(status, statusText))
      else match body
        case Parsed(v) => HumanTasksFromBody(v)
        case Unparsable(_) => Failure(ErrorMessage(BodyError(body), "Unknown error"))
  }

  /**
   * Whatever an ok body holds, the page receives a truthy message and a
   * truthy `tasks` member: the `data` tasks, else the top-level tasks,
   * else `[]` (an empty array is truthy in JavaScript).
   */
  lemma HumanTasksSources(body: Json)
    requires body != Null
    ensures var r := HumanTasksFromBody(body);
      && Truthy(r.message)
      && MemberOf(r.data, "tasks") ==
           (if FromData(body) then MemberOf(Member(body, "data"), "tasks")
            else if TruthyOpt(Member(body, "tasks")) then Member(body, "tasks")
            else Some(Arr([])))
      && TruthyOpt(MemberOf(r.data, "tasks"))
  {
    var r := HumanTasksFromBody(body);
    if FromData(body) {
      assert Truthy(r.message) by {
        if !TruthyOpt(Member(body, "message")) {
          assert r.message == Str("Success");
        }
      }
    }
  }
}
