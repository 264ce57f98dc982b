/**
 * The create-task endpoint: a POST handler that validates a request in a
 * fixed, short-circuiting order, looks up the parent application, inserts a
 * pending task carrying that application's tenant, attempts a best-effort
 * `task.created` broadcast and answers with a JSON result.
 *
 * The platform calls are parameters (`Env`): the server clock, the timestamp
 * parser, the two environment variables, the applications table, the outcome
 * of the insert and of the broadcast.
 */
module CreateTask {
  import opened Wrappers
  import Uuid

  // ---------------------------------------------------------------------------
  // Requests, responses and the environment
  // ---------------------------------------------------------------------------

  /** The three task types the endpoint accepts, in the order its error message lists them. */
  const ValidTaskTypes: seq<string> := ["call", "email", "review"]

  /** The fields destructured from the JSON body; `None` is an absent or null field. */
  datatype CreateTaskRequest = CreateTaskRequest(
    applicationId: Option<string>,
    taskType: Option<string>,
    dueAt: Option<string>)

  /** The body as reading it turns out: `Malformed` when reading or
      destructuring it throws (invalid JSON, a `null` body). */
  datatype RequestBody = Malformed | Parsed(fields: CreateTaskRequest)

  datatype Request = Request(httpMethod: string, body: RequestBody)

  /** The JSON result object: `success`, and `error` or `task_id`. */
  datatype JsonBody = JsonBody(success: bool, error: Option<string>, taskId: Option<string>)

  /** An HTTP response: status, headers and an optional JSON body. */
  datatype Response = Response(status: int, headers: map<string, string>, body: Option<JsonBody>)

  /** What the insert into `tasks` returns: the generated id, or an error (or no row). */
  datatype InsertOutcome = Inserted(id: string) | InsertFailed

  /** What sending the broadcast does; a throw is caught and logged. */
  datatype BroadcastOutcome = Delivered | Threw

  /** Everything the handler reads from outside the request. */
  datatype Env = Env(
    now: int,                          // the server clock at validation, in ms
    parse: string -> Option<int>,      // `new Date(s)`: the instant, or None for an invalid date
    supabaseUrl: Option<string>,       // SUPABASE_URL
    serviceRoleKey: Option<string>,    // SUPABASE_SERVICE_ROLE_KEY
    applications: map<string, string>, // applications: id -> tenant_id
    lookupFails: bool,                 // the application query reports an error
    insert: InsertOutcome,
    broadcast: BroadcastOutcome,
    createdAt: int)                    // the clock read for the event's created_at

  /** The row the handler inserts into `tasks`; its id is generated by the store. */
  datatype NewTask = NewTask(
    applicationId: string,
    taskType: string,
    dueAt: string,
    tenantId: string,
    status: string)

  /** A stored row: the generated id and the inserted fields. */
  datatype StoredTask = StoredTask(id: string, fields: NewTask)

  /** The payload of the `task.created` broadcast on the `tasks` channel. */
  datatype TaskCreatedEvent = TaskCreatedEvent(
    taskId: string,
    applicationId: string,
    taskType: string,
    dueAt: string,
    createdAt: int)

  const CorsHeaders: map<string, string> := map[
    "Access-Control-Allow-Origin" := "*",
    "Access-Control-Allow-Headers" := "authorization, x-client-info, apikey, content-type"]

  const JsonHeaders: map<string, string> := CorsHeaders["Content-Type" := "application/json"]

  /** A failure response: the given status and `{success: false, error}`. */
  function ErrorResponse(status: int, message: string): Response
  {
    Response(status, JsonHeaders, Some(JsonBody(false, Some(message), None)))
  }

  const PreflightResponse: Response := Response(200, CorsHeaders, None)

  // ---------------------------------------------------------------------------
  // The validation chain
  // ---------------------------------------------------------------------------

  /** The validation rule a request breaks, in the order they are checked. */
  datatype Rejection =
    | MissingFields
    | InvalidTaskType
    | InvalidDueAt
    | DueAtNotFuture
    | InvalidApplicationId

  /** The error message of each rule. */
  function RejectionMessage(e: Rejection): string
  {
    match e
    case MissingFields => "Missing required fields: application_id, task_type, due_at"
    case InvalidTaskType => "Invalid task_type. Must be one of: call, email, review"
    case InvalidDueAt => "Invalid due_at timestamp format"
    case DueAtNotFuture => "due_at must be a future timestamp"
    case InvalidApplicationId => "Invalid application_id format (must be UUID)"
  }

  /** `xs` joined with `sep` between consecutive elements. */
  function Join(xs: seq<string>, sep: string): string
  {
    if |xs| == 0 then "" else if |xs| == 1 then xs[0] else xs[0] + sep + Join(xs[1..], sep)
  }

  /** Each rule has its own message, so a client can tell from the text which rule failed. */
  lemma RejectionMessagesDistinct(a: Rejection, b: Rejection)
    ensures RejectionMessage(a) == RejectionMessage(b) <==> a == b
  {
  }

  /** The task-type message lists the accepted types joined by ", ". */
  lemma InvalidTaskTypeMessageListsTypes()
    ensures RejectionMessage(InvalidTaskType) == "Invalid task_type. Must be one of: " + Join(ValidTaskTypes, ", ")
  {
  }

  /** A JavaScript-falsy field: absent, null or the empty string. */
  predicate Falsy(v: Option<string>)
  {
    v.None? || v.value == ""
  }

  predicate AnyMissing(f: CreateTaskRequest)
  {
    Falsy(f.applicationId) || Falsy(f.taskType) || Falsy(f.dueAt)
  }

  /** The fields of a request that has passed every check. */
  datatype ValidRequest = ValidRequest(applicationId: string, taskType: string, dueAt: string, dueInstant: int)

  /** The chain: presence, task-type membership, timestamp parse, strictly
      in the future, UUID shape; the first rule broken is the answer. */
  function Validate(f: CreateTaskRequest, now: int, parse: string -> Option<int>): (r: Result<ValidRequest, Rejection>)
    ensures r == Err(MissingFields) <==> AnyMissing(f)
    ensures r == Err(InvalidTaskType) <==>
      !AnyMissing(f) && f.taskType.value !in ValidTaskTypes
    ensures r == Err(InvalidDueAt) <==>
      !AnyMissing(f) && f.taskType.value in ValidTaskTypes && parse(f.dueAt.value).None?
    ensures r == Err(DueAtNotFuture) <==>
      !AnyMissing(f) && f.taskType.value in ValidTaskTypes && parse(f.dueAt.value).Some?
      && parse(f.dueAt.value).value <= now
    ensures r == Err(InvalidApplicationId) <==>
      !AnyMissing(f) && f.taskType.value in ValidTaskTypes && parse(f.dueAt.value).Some?
      && parse(f.dueAt.value).value > now && !Uuid.IsUuidText(f.applicationId.value)
    ensures r.Ok? <==>
      !AnyMissing(f) && f.taskType.value in ValidTaskTypes && parse(f.dueAt.value).Some?
      && parse(f.dueAt.value).value > now && Uuid.IsUuidText(f.applicationId.value)
    ensures r.Ok? ==>
      r.value == ValidRequest(f.applicationId.value, f.taskType.value, f.dueAt.value, parse(f.dueAt.value).value)
  {
    if AnyMissing(f) then Err(MissingFields)
    else if f.taskType.value !in ValidTaskTypes then Err(InvalidTaskType)
    else
      match parse(f.dueAt.value)
      case None => Err(InvalidDueAt)
      case Some(due) =>
        if due <= now then Err(DueAtNotFuture)
        else if !Uuid.IsUuidText(f.applicationId.value) then Err(InvalidApplicationId)
        else Ok(ValidRequest(f.applicationId.value, f.taskType.value, f.dueAt.value, due))
  }

  // ---------------------------------------------------------------------------
  // The handler as a specification
  // ---------------------------------------------------------------------------

  /** What the handler decides before it changes anything: a reply, or the row to insert. */
  datatype Decision = Reply(response: Response) | Insert(row: NewTask)

  /** The row built for a validated request whose application was found. */
  function RowFor(v: ValidRequest, tenantId: string): NewTask
  {
    NewTask(v.applicationId, v.taskType, v.dueAt, tenantId, "pending")
  }

  /** Method dispatch, body reading, the validation chain, the configuration
      check and the application lookup, in that order. */
  function Prepare(req: Request, env: Env): (d: Decision)
    ensures d.Insert? <==>
      req.httpMethod == "POST" && req.body.Parsed?
      && Validate(req.body.fields, env.now, env.parse).Ok?
      && !Falsy(env.supabaseUrl) && !Falsy(env.serviceRoleKey)
      && !env.lookupFails && req.body.fields.applicationId.value in env.applications
    ensures d.Insert? ==>
      var f := req.body.fields;
      && d.row.applicationId == f.applicationId.value
      && d.row.taskType == f.taskType.value
      && d.row.dueAt == f.dueAt.value
      && d.row.status == "pending"
      && d.row.applicationId in env.applications
      && d.row.tenantId == env.applications[d.row.applicationId]
      && d.row.taskType in ValidTaskTypes
      && Uuid.IsUuidText(d.row.applicationId)
      && env.parse(d.row.dueAt).Some? && env.parse(d.row.dueAt).value > env.now
  {
    if req.httpMethod == "OPTIONS" then Reply(PreflightResponse)
    else if req.httpMethod != "POST" then Reply(ErrorResponse(405, "Method not allowed"))
    else
      match req.body
      case Malformed => Reply(ErrorResponse(500, "Internal server error"))
      case Parsed(f) =>
        match Validate(f, env.now, env.parse)
        case Err(e) => Reply(ErrorResponse(400, RejectionMessage(e)))
        case Ok(v) =>
          if Falsy(env.supabaseUrl) || Falsy(env.serviceRoleKey) then
            Reply(ErrorResponse(500, "Internal server configuration error"))
          else if env.lookupFails || v.applicationId !in env.applications then
            Reply(ErrorResponse(400, "Application not found"))
          else
            Insert(RowFor(v, env.applications[v.applicationId]))
  }

  /** The success response for a stored task id. */
  function CreatedResponse(taskId: string): Response
  {
    Response(200, JsonHeaders, Some(JsonBody(true, None, Some(taskId))))
  }

  /** The response the handler gives. Only the preflight has no body; every
      JSON body is a success carrying the task id with status 200, or a
      failure carrying an error message with status 400, 405 or 500. */
  function Handle(req: Request, env: Env): (r: Response)
    ensures r.body.None? <==> req.httpMethod == "OPTIONS"
    ensures r.status in {200, 400, 405, 500}
    ensures r.body.Some? ==>
      (r.body.value.success <==> r.status == 200)
      && (r.body.value.success ==> r.body.value.taskId.Some? && r.body.value.error.None?)
      && (!r.body.value.success ==> r.body.value.error.Some? && r.body.value.taskId.None?)
  {
    match Prepare(req, env)
    case Reply(r) => r
    case Insert(_) =>
      match env.insert
      case InsertFailed => ErrorResponse(500, "Failed to create task")
      case Inserted(id) => CreatedResponse(id)
  }

  /** The rows the handler adds to `tasks`: none, or the one row it built. */
  function InsertedRows(req: Request, env: Env): (r: seq<StoredTask>)
    ensures |r| <= 1
    ensures r != [] <==> Prepare(req, env).Insert? && env.insert.Inserted?
    ensures r != [] ==> r[0].id == env.insert.id && r[0].fields == Prepare(req, env).row
  {
    match Prepare(req, env)
    case Reply(_) => []
    case Insert(row) =>
      match env.insert
      case InsertFailed => []
      case Inserted(id) => [StoredTask(id, row)]
  }

  /** The broadcast the handler attempts: one, after a successful insert. */
  function AttemptedEvent(req: Request, env: Env): (r: Option<TaskCreatedEvent>)
    ensures r.Some? <==> InsertedRows(req, env) != []
    ensures r.Some? ==>
      var t := InsertedRows(req, env)[0];
      r.value == TaskCreatedEvent(t.id, t.fields.applicationId, t.fields.taskType, t.fields.dueAt, env.createdAt)
  {
    var rows := InsertedRows(req, env);
    if rows == [] then None
    else Some(TaskCreatedEvent(rows[0].id, rows[0].fields.applicationId, rows[0].fields.taskType,
                               rows[0].fields.dueAt, env.createdAt))
  }

  // ---------------------------------------------------------------------------
  // The store and the handler
  // ---------------------------------------------------------------------------

  /** The `tasks` table as the handler changes it. */
  class TaskStore {
    var rows: seq<StoredTask>

    /** Every row's tenant is the tenant of its application. */
    predicate TenantConsistent(applications: map<string, string>)
      reads this
    {
      forall t :: t in rows ==>
        t.fields.applicationId in applications && t.fields.tenantId == applications[t.fields.applicationId]
    }

    constructor (initial: seq<StoredTask>)
      ensures rows == initial
    {
      rows := initial;
    }

    /** Inserts one row; the store generates its id, or the insert fails and nothing is added. */
    method Insert(row: NewTask, outcome: InsertOutcome) returns (id: Option<string>)
      modifies this
      ensures outcome.Inserted? ==> id == Some(outcome.id) && rows == old(rows) + [StoredTask(outcome.id, row)]
      ensures outcome.InsertFailed? ==> id == None && rows == old(rows)
    {
      match outcome
      case Inserted(newId) =>
        rows := rows + [StoredTask(newId, row)];
        id := Some(newId);
      case InsertFailed =>
        id := None;
    }
  }

  /** The request handler. It answers as `Handle` says, adds exactly the
      rows `InsertedRows` says, attempts the broadcast `AttemptedEvent`
      says, and keeps every row's tenant that of its application. */
  method Serve(req: Request, env: Env, store: TaskStore) returns (resp: Response, attempted: Option<TaskCreatedEvent>)
    modifies store
    ensures resp == Handle(req, env)
    ensures store.rows == old(store.rows) + InsertedRows(req, env)
    ensures attempted == AttemptedEvent(req, env)
    ensures old(store.TenantConsistent(env.applications)) ==> store.TenantConsistent(env.applications)
  {
    var decision := Prepare(req, env);
    match decision
    case Reply(r) =>
      resp, attempted := r, None;
    case Insert(row) =>
      var id := store.Insert(row, env.insert);
      match id
      case None =>
        resp, attempted := ErrorResponse(500, "Failed to create task"), None;
      case Some(taskId) =>
        attempted := Some(TaskCreatedEvent(taskId, row.applicationId, row.taskType, row.dueAt, env.createdAt));
        match env.broadcast
        case Delivered =>
          resp := CreatedResponse(taskId);
        case Threw =>
          // The throw is caught and logged; the task stays created.
          resp := CreatedResponse(taskId);
  }

  // ---------------------------------------------------------------------------
  // Properties of the handler
  // ---------------------------------------------------------------------------

  /** A preflight is answered with the CORS headers and no body before any
      other check, and inserts nothing. */
  lemma PreflightFirst(req: Request, env: Env)
    requires req.httpMethod == "OPTIONS"
    ensures Handle(req, env) == Response(200, CorsHeaders, None)
    ensures InsertedRows(req, env) == []
  {
  }

  /** Every method other than OPTIONS and POST gets 405. */
  lemma OnlyPostAllowed(req: Request, env: Env)
    requires req.httpMethod != "OPTIONS" && req.httpMethod != "POST"
    ensures Handle(req, env) == ErrorResponse(405, "Method not allowed")
    ensures InsertedRows(req, env) == []
  {
  }

  /** A body that cannot be read is caught as an internal error. */
  lemma MalformedBodyIsInternalError(req: Request, env: Env)
    requires req.httpMethod == "POST" && req.body.Malformed?
    ensures Handle(req, env) == ErrorResponse(500, "Internal server error")
    ensures InsertedRows(req, env) == []
  {
  }

  /** A request with a falsy field gets the missing-fields message whatever
      its other fields hold and whatever the environment is. */
  lemma MissingFieldsFirst(req: Request, env: Env)
    requires req.httpMethod == "POST" && req.body.Parsed? && AnyMissing(req.body.fields)
    ensures Handle(req, env) == ErrorResponse(400, RejectionMessage(MissingFields))
    ensures InsertedRows(req, env) == []
  {
  }

  /** A POST whose fields break a validation rule gets 400 with that rule's
      message and inserts nothing. */
  lemma ValidationFailureIs400(req: Request, env: Env, e: Rejection)
    requires req.httpMethod == "POST" && req.body.Parsed?
    requires Validate(req.body.fields, env.now, env.parse) == Err(e)
    ensures Handle(req, env) == ErrorResponse(400, RejectionMessage(e))
    ensures InsertedRows(req, env) == []
  {
  }

  /** With the fields present, the task-type check rejects exactly the types
      outside the three; each of the three passes it. */
  lemma TaskTypeMembership(f: CreateTaskRequest, now: int, parse: string -> Option<int>)
    requires !AnyMissing(f)
    ensures Validate(f, now, parse) == Err(InvalidTaskType) <==> f.taskType.value !in ValidTaskTypes
    ensures f.taskType.value in {"call", "email", "review"} ==> Validate(f, now, parse) != Err(InvalidTaskType)
  {
  }

  /** A due time equal to the server clock is rejected: it must be strictly later. */
  lemma DueAtEqualToNowRejected(f: CreateTaskRequest, now: int, parse: string -> Option<int>)
    requires !AnyMissing(f) && f.taskType.value in ValidTaskTypes
    requires parse(f.dueAt.value) == Some(now)
    ensures Validate(f, now, parse) == Err(DueAtNotFuture)
  {
  }

  /** The id format is checked only after the timestamp rules: a request
      with both a bad timestamp and a bad id is rejected for the timestamp. */
  lemma TimestampBeforeId(f: CreateTaskRequest, now: int, parse: string -> Option<int>)
    requires !AnyMissing(f) && f.taskType.value in ValidTaskTypes
    requires !Uuid.IsUuidText(f.applicationId.value)
    requires parse(f.dueAt.value).None? || parse(f.dueAt.value).value <= now
    ensures Validate(f, now, parse) == Err(InvalidDueAt) || Validate(f, now, parse) == Err(DueAtNotFuture)
  {
  }

  /** A request whose id is malformed is rejected whether or not that text
      names an application. */
  lemma IdFormatIndependentOfApplications(req: Request, env: Env)
    requires req.httpMethod == "POST" && req.body.Parsed?
    requires Validate(req.body.fields, env.now, env.parse) == Err(InvalidApplicationId)
    ensures Handle(req, env) == ErrorResponse(400, RejectionMessage(InvalidApplicationId))
    ensures Handle(req, env) == Handle(req, env.(applications := map[]))
  {
  }

  /** A valid request without the two environment variables is a
      configuration error; an unknown application, or a failed lookup, is
      400 "Application not found". Neither inserts. */
  lemma ConfigAndLookupFailures(req: Request, env: Env)
    requires req.httpMethod == "POST" && req.body.Parsed?
    requires Validate(req.body.fields, env.now, env.parse).Ok?
    ensures Falsy(env.supabaseUrl) || Falsy(env.serviceRoleKey) ==>
      Handle(req, env) == ErrorResponse(500, "Internal server configuration error")
    ensures (!Falsy(env.supabaseUrl) && !Falsy(env.serviceRoleKey)
      && (env.lookupFails || req.body.fields.applicationId.value !in env.applications)) ==>
      Handle(req, env) == ErrorResponse(400, "Application not found")
    ensures (Falsy(env.supabaseUrl) || Falsy(env.serviceRoleKey) || env.lookupFails
      || req.body.fields.applicationId.value !in env.applications) ==> InsertedRows(req, env) == []
  {
  }

  /** A row is inserted exactly when the response is the 200 success, and
      that response carries the inserted row's id. */
  lemma InsertedIffSuccess(req: Request, env: Env)
    ensures |InsertedRows(req, env)| <= 1
    ensures InsertedRows(req, env) != [] <==>
      Handle(req, env).status == 200 && Handle(req, env).body.Some?
    ensures InsertedRows(req, env) != [] ==>
      Handle(req, env) == CreatedResponse(InsertedRows(req, env)[0].id)
    ensures Handle(req, env).body.Some? && Handle(req, env).body.value.success ==> InsertedRows(req, env) != []
  {
  }

  /** The inserted row is pending, has the requested type and due text, and
      carries the tenant of the application it references. */
  lemma InsertedRowInvariant(req: Request, env: Env, t: StoredTask)
    requires t in InsertedRows(req, env)
    ensures req.body.Parsed?
    ensures t.fields.status == "pending"
    ensures t.fields.applicationId == req.body.fields.applicationId.value
    ensures t.fields.applicationId in env.applications
    ensures t.fields.tenantId == env.applications[t.fields.applicationId]
    ensures t.fields.taskType == req.body.fields.taskType.value && t.fields.taskType in ValidTaskTypes
    ensures t.fields.dueAt == req.body.fields.dueAt.value
  {
  }

  /** A valid request whose insert fails gets 500 "Failed to create task" and adds nothing. */
  lemma InsertFailureIsInternal(req: Request, env: Env)
    requires Prepare(req, env).Insert? && env.insert == InsertFailed
    ensures Handle(req, env) == ErrorResponse(500, "Failed to create task")
    ensures InsertedRows(req, env) == []
  {
  }

  /** The broadcast outcome changes neither the response nor the rows. */
  lemma BroadcastOutcomeIgnored(req: Request, env: Env, b: BroadcastOutcome)
    ensures Handle(req, env) == Handle(req, env.(broadcast := b))
    ensures InsertedRows(req, env) == InsertedRows(req, env.(broadcast := b))
  {
  }

  /** A broadcast is attempted exactly after a successful insert, with the new id. */
  lemma BroadcastOnlyAfterInsert(req: Request, env: Env)
    ensures AttemptedEvent(req, env).Some? <==> InsertedRows(req, env) != []
    ensures AttemptedEvent(req, env).Some? ==>
      AttemptedEvent(req, env).value.taskId == InsertedRows(req, env)[0].id
  {
  }

  /** The example request: an existing application, a `call` due tomorrow. */
  lemma ExampleCreated(now: int)
    ensures
      var appId := "11111111-1111-1111-1111-111111111111";
      var tenant := "22222222-2222-2222-2222-222222222222";
      var req := Request("POST", Parsed(CreateTaskRequest(Some(appId), Some("call"), Some("tomorrow"))));
      var env := Env(now, s => if s == "tomorrow" then Some(now + 86400000) else None,
                     Some("https://db"), Some("key"), map[appId := tenant], false,
                     Inserted("t-1"), Threw, now);
      Handle(req, env) == CreatedResponse("t-1")
      && InsertedRows(req, env) == [StoredTask("t-1", NewTask(appId, "call", "tomorrow", tenant, "pending"))]
  {
    var appId := "11111111-1111-1111-1111-111111111111";
    var tenant := "22222222-2222-2222-2222-222222222222";
    var f := CreateTaskRequest(Some(appId), Some("call"), Some("tomorrow"));
    var req := Request("POST", Parsed(f));
    var env := Env(now, s => if s == "tomorrow" then Some(now + 86400000) else None,
                   Some("https://db"), Some("key"), map[appId := tenant], false,
                   Inserted("t-1"), Threw, now);
    assert Uuid.IsUuidText(appId);
    assert Validate(f, now, env.parse) == Ok(ValidRequest(appId, "call", "tomorrow", now + 86400000));
    assert Prepare(req, env) == Insert(NewTask(appId, "call", "tomorrow", tenant, "pending"));
  }

  /** The type check is case-sensitive: "Call" is rejected with the type message. */
  lemma ExampleCapitalisedType(now: int, env: Env)
    ensures
      var req := Request("POST", Parsed(CreateTaskRequest(
        Some("11111111-1111-1111-1111-111111111111"), Some("Call"), Some("tomorrow"))));
      Handle(req, env) == ErrorResponse(400, "Invalid task_type. Must be one of: call, email, review")
      && InsertedRows(req, env) == []
  {
  }

  /** The same request due yesterday is rejected as not in the future. */
  lemma ExamplePastDue(now: int)
    ensures
      var appId := "11111111-1111-1111-1111-111111111111";
      var req := Request("POST", Parsed(CreateTaskRequest(Some(appId), Some("call"), Some("yesterday"))));
      var env := Env(now, s => if s == "yesterday" then Some(now - 86400000) else None,
                     Some("https://db"), Some("key"), map[appId := "22222222-2222-2222-2222-222222222222"], false,
                     Inserted("t-1"), Delivered, now);
      Handle(req, env) == ErrorResponse(400, "due_at must be a future timestamp")
      && InsertedRows(req, env) == []
  {
  }
}
