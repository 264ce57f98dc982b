# Task creation and the "today" dashboard, in Dafny

This project models the two pieces of decision logic of a small task-tracking
system built on a hosted database platform:

- **The create-task endpoint** (`CreateTask`, with the id check in `Uuid`).
  It answers a CORS preflight. It rejects every method but POST. It validates
  the body in a fixed order: presence, task type, timestamp parse, strictly
  future, UUID shape. It checks its configuration and looks up the parent
  application. It inserts a `pending` task that carries that application's
  `tenant_id`, attempts a `task.created` broadcast whose outcome it ignores,
  and answers `{success, task_id}` or `{success: false, error}`.
- **The "today" dashboard** (`TodayDashboard`). It lists the tasks that are
  not completed and are due in the half-open window
  [start of today, start of tomorrow), in ascending due order. Its
  mark-complete action sets `status` and `completed_at` on one row and then
  fetches the list again. Smaller display rules cover the badge colours, the
  eight-character id prefix, the `-` placeholder, the count line and which
  render branch shows.

The endpoint is specified by pure functions: `Validate`, `Prepare`, `Handle`
and `InsertedRows`. The handler itself is the method `Serve`. It changes a
`TaskStore` object, whose `rows` field is the `tasks` table. `Serve` is proved
to answer as `Handle` says and to append exactly `InsertedRows`. It is also
proved to keep every row's tenant equal to its application's tenant.

The dashboard's query is the function `TodayList`: a filter followed by an
insertion sort on a sequence. It is proved sorted, and proved to hold each
matching row as often as the table does. The page is the class `TodayPage`.
Its fields are the table and the query's `isLoading`, `error` and `data`
state. Its methods `Fetch` and `MarkComplete` are proved against `TodayList`
and `MarkedComplete`.

The outside world is passed in as parameters. For the endpoint, `Env` gives:

- the server clock;
- a partial parser standing for `new Date(...)`;
- the two environment variables;
- the applications table (`id -> tenant_id`) and whether its query fails;
- the insert outcome, with the id the database generates;
- the broadcast outcome;
- the clock reading used for the event's `created_at`.

For the dashboard, the callers pass the day window's two instants, the update
time, and the outcomes of the update and of each fetch.

A missing credential does not make every request fail. The configuration check
runs only after validation (`backend/edge-functions/create-task/index.ts:146-161`),
so an invalid request still gets its 400. `Prepare` keeps this order.

## Model

| member | source | states |
|---|---|---|
| `Uuid.IsUuidText` | backend/edge-functions/create-task/index.ts:127-128 | The id check itself. It has no contract of its own; `Uuid.UuidTextIsPattern` proves it equal to the pattern read group by group, and `Uuid.CaseInsensitive`, `Uuid.NilUuidPasses`, `Uuid.MixedCasePasses` and `Uuid.MalformedFail` pin its behaviour |
| `Uuid.UuidTextIsPattern` | backend/edge-functions/create-task/index.ts:127-128 | The per-position check (36 characters, hyphens at 8, 13, 18 and 23, hex digits elsewhere) accepts exactly the strings that are hex groups of 8, 4, 4, 4 and 12 digits joined by single hyphens, anchored at both ends |
| `Uuid.CaseInsensitive` | backend/edge-functions/create-task/index.ts:127 | A string passes exactly when its lower-case form passes: the `i` flag makes hex digits case-insensitive |
| `Uuid.NilUuidPasses` | backend/edge-functions/create-task/index.ts:127 | No version or variant digit is checked: the all-zero id passes |
| `Uuid.MixedCasePasses` | backend/edge-functions/create-task/index.ts:127 | Upper- and lower-case hex digits may be mixed |
| `Uuid.MalformedFail` | backend/edge-functions/create-task/index.ts:127-128 | A braced id, the 32-digit form without hyphens, and an id with a non-hex digit are rejected |
| `CreateTask.InvalidTaskTypeMessageListsTypes` | backend/edge-functions/create-task/index.ts:83-94 | The task-type error message is the accepted list `call, email, review` joined by ", " |
| `CreateTask.RejectionMessage` | backend/edge-functions/create-task/index.ts:69-139 | The five messages. It has no contract of its own; `CreateTask.RejectionMessagesDistinct`, `CreateTask.InvalidTaskTypeMessageListsTypes` and `CreateTask.ValidationFailureIs400` state what they are and where they appear |
| `CreateTask.RejectionMessagesDistinct` | backend/edge-functions/create-task/index.ts:69-139 | Two rules have the same message only if they are the same rule, so the message tells a client which rule failed |
| `CreateTask.Validate` | backend/edge-functions/create-task/index.ts:69-139 | Each rejection happens exactly when every earlier rule passed and its own rule fails. The rules: a field falsy; type outside the three; unparseable timestamp; parsed time not after now; id not UUID-shaped. Otherwise the result is Ok with the given fields and the parsed instant |
| `CreateTask.Prepare` | backend/edge-functions/create-task/index.ts:44-197 | A row is to be inserted exactly for a POST with a readable body that passes validation, with both variables non-empty, a lookup that does not fail and a known application id. That row is `pending`, has the requested id, type and due text, and has the application's tenant |
| `CreateTask.Handle` | backend/edge-functions/create-task/index.ts:42-264 | Only the preflight answer has no body. Every answer has status 200, 400, 405 or 500. A JSON body has `success` exactly for status 200; a success carries `task_id` and no error, and a failure carries an error and no `task_id` |
| `CreateTask.InsertedRows` | backend/edge-functions/create-task/index.ts:187-211 | At most one row. A row exactly when the handler decided to insert and the insert succeeded; it has the store's id and the fields the handler built |
| `CreateTask.AttemptedEvent` | backend/edge-functions/create-task/index.ts:217-229 | An event exactly when a row was inserted. It carries that row's id, application, type and due text, and the clock reading for `created_at` |
| `CreateTask.TaskStore.Insert` | backend/edge-functions/create-task/index.ts:187-199 | A successful insert appends exactly one row, with the id the store generated; a failed one leaves the rows unchanged and returns no id |
| `CreateTask.Serve` | backend/edge-functions/create-task/index.ts:42-264 | The response is `Handle`'s; the new rows are the old rows followed by `InsertedRows`; the attempted broadcast is `AttemptedEvent`'s; tenant consistency of the table is preserved |
| `CreateTask.PreflightFirst` | backend/edge-functions/create-task/index.ts:44-46 | OPTIONS gets status 200, the CORS headers and no body, before any other check, and inserts nothing |
| `CreateTask.OnlyPostAllowed` | backend/edge-functions/create-task/index.ts:50-58 | Any method other than OPTIONS and POST gets 405 "Method not allowed" and inserts nothing |
| `CreateTask.MalformedBodyIsInternalError` | backend/edge-functions/create-task/index.ts:250-262 | A body that cannot be read is caught and answered 500 "Internal server error", with nothing inserted |
| `CreateTask.MissingFieldsFirst` | backend/edge-functions/create-task/index.ts:69-80 | A POST with any of the three fields absent or empty gets 400 with the missing-fields message, whatever the other fields and the environment are, and inserts nothing |
| `CreateTask.ValidationFailureIs400` | backend/edge-functions/create-task/index.ts:69-139 | A POST whose fields break any validation rule gets 400 with that rule's message and inserts nothing |
| `CreateTask.TaskTypeMembership` | backend/edge-functions/create-task/index.ts:83-94 | With all fields present, the type rule rejects exactly the types outside `call`, `email`, `review`; each of those three passes it |
| `CreateTask.DueAtEqualToNowRejected` | backend/edge-functions/create-task/index.ts:111-124 | A due time equal to the server clock is rejected as not in the future |
| `CreateTask.TimestampBeforeId` | backend/edge-functions/create-task/index.ts:96-139 | A request with a bad timestamp and a bad id is rejected for the timestamp: the id is checked after the timestamp rules |
| `CreateTask.IdFormatIndependentOfApplications` | backend/edge-functions/create-task/index.ts:126-139 | A malformed id gets 400 with the format message whether or not the applications table knows that text |
| `CreateTask.ConfigAndLookupFailures` | backend/edge-functions/create-task/index.ts:146-184 | For a valid request: a missing or empty URL or key gives 500 "Internal server configuration error"; a failed lookup or an unknown application gives 400 "Application not found"; neither inserts a row |
| `CreateTask.InsertedIffSuccess` | backend/edge-functions/create-task/index.ts:187-248 | At most one row is inserted. A row is inserted exactly when the response is a 200 with a body. That response is `{success: true, task_id}` with the inserted row's id, and every `success: true` body comes with an insert |
| `CreateTask.InsertedRowInvariant` | backend/edge-functions/create-task/index.ts:187-197 | An inserted row is `pending` and has the requested application id, type and due text. Its tenant is the looked-up application's; the request has no tenant field |
| `CreateTask.InsertFailureIsInternal` | backend/edge-functions/create-task/index.ts:199-211 | When the insert fails the response is 500 "Failed to create task" and no row is added |
| `CreateTask.BroadcastOutcomeIgnored` | backend/edge-functions/create-task/index.ts:217-233 | Changing the broadcast outcome changes neither the response nor the inserted rows |
| `CreateTask.BroadcastOnlyAfterInsert` | backend/edge-functions/create-task/index.ts:217-229 | A broadcast is attempted exactly when a row was inserted, and it carries that row's id |
| `CreateTask.ExampleCreated` | backend/edge-functions/create-task/index.ts:186-248 | The example request (a known all-ones id, `call`, due tomorrow) gets 200 with the new id even when the broadcast throws, and stores a pending row with the application's tenant |
| `CreateTask.ExamplePastDue` | backend/edge-functions/create-task/index.ts:111-124 | The same request due yesterday gets 400 "due_at must be a future timestamp" and inserts nothing |
| `CreateTask.ExampleCapitalisedType` | backend/edge-functions/create-task/index.ts:83-94 | A POST with type "Call" gets 400 "Invalid task_type. Must be one of: call, email, review" and inserts nothing: the type check is case-sensitive |
| `TodayDashboard.SelectToday` | frontend/pages/dashboard/today.tsx:34-36 | Keeps exactly the rows whose status is not `completed` and whose due instant is in [startOfDay, startOfNextDay), each as often as in the table |
| `TodayDashboard.InsertByDue` | frontend/pages/dashboard/today.tsx:37 | Inserting into a due-sorted sequence keeps it sorted and adds exactly that element |
| `TodayDashboard.SortByDue` | frontend/pages/dashboard/today.tsx:37 | The result is non-decreasing in due time and a permutation of the input |
| `TodayDashboard.TodayList` | frontend/pages/dashboard/today.tsx:31-40 | The listed tasks are sorted ascending by due time and hold exactly the not-completed rows due in the window, each with its table multiplicity |
| `TodayDashboard.WindowIsHalfOpen` | frontend/pages/dashboard/today.tsx:27-36 | A not-completed row due at startOfDay or at the last instant before startOfNextDay is listed; one due exactly at startOfNextDay is not |
| `TodayDashboard.ConsecutiveDays` | frontend/pages/dashboard/today.tsx:28-29 | Consecutive day windows never both select a row, and together they select what the two-day window selects |
| `TodayDashboard.DayBoundaryExample` | frontend/pages/dashboard/today.tsx:34-36 | Of two pending tasks due at 23:59:59 today and 00:00:01 tomorrow, the list is the first alone |
| `TodayDashboard.MarkedComplete` | frontend/pages/dashboard/today.tsx:47-53 | Same length. Each row with the given id gets status `completed` and `completed_at` = now, with all its other fields kept. Every other row is unchanged |
| `TodayDashboard.MarkedTaskLeavesList` | frontend/pages/dashboard/today.tsx:45-60 | After the update, no task with that id is in the list, for any day window |
| `TodayDashboard.OtherTasksStayListed` | frontend/pages/dashboard/today.tsx:47-53 | Every other task listed before the update is still listed after it |
| `TodayDashboard.AlertText` | frontend/pages/dashboard/today.tsx:62-64 | The alert is the error's message when that is non-empty, and "Failed to update task" when it is empty |
| `TodayDashboard.TypeBadgeColor` | frontend/pages/dashboard/today.tsx:75-86 | `call` is blue, `email` green, `review` purple, every other string gray |
| `TodayDashboard.TypeBadgeMatchesAcceptedTypes` | frontend/pages/dashboard/today.tsx:75-86 | A type's badge is not gray exactly when the endpoint accepts that type, and the three accepted types get three different colours |
| `TodayDashboard.StatusBadgeColor` | frontend/pages/dashboard/today.tsx:88-99 | `pending` is yellow, `in_progress` blue, `completed` green, every other string gray |
| `TodayDashboard.StatusBadgeMatchesKnownStatuses` | frontend/pages/dashboard/today.tsx:88-99 | A status's badge is not gray exactly when it is one of the three statuses; a new `pending` task shows yellow |
| `TodayDashboard.ShortId` | frontend/pages/dashboard/today.tsx:207 | The id column is the first 8 characters, or all of a shorter id, followed by "..." |
| `TodayDashboard.ShortIdKeepsFirstGroup` | frontend/pages/dashboard/today.tsx:207 | Two 36-character ids whose first eight characters differ are displayed differently |
| `TodayDashboard.DescriptionText` | frontend/pages/dashboard/today.tsx:219 | The description column shows the description when it is present and non-empty, and "-" otherwise |
| `TodayDashboard.Noun` | frontend/pages/dashboard/today.tsx:241 | "task" exactly for a count of 1, "tasks" for every other count |
| `TodayDashboard.Decimal` | frontend/pages/dashboard/today.tsx:241 | The count is written as a non-empty string of decimal digits, with no leading zero unless the count is 0 |
| `TodayDashboard.DecimalValue` | frontend/pages/dashboard/today.tsx:241 | Reading the digits of `Decimal(n)` back as a number gives `n` |
| `TodayDashboard.CountLine` | frontend/pages/dashboard/today.tsx:239-243 | The count line exists exactly when the count is positive and reads "Showing n task(s) due today" |
| `TodayDashboard.RowOf` | frontend/pages/dashboard/today.tsx:198-230 | One table row. It has no contract of its own; `TodayDashboard.Render` places `RowOf` of each task at its position, and its cells are specified by `TodayDashboard.TypeBadgeColor`, `TodayDashboard.ShortId`, `TodayDashboard.StatusBadgeColor` and `TodayDashboard.DescriptionText` |
| `TodayDashboard.ErrorText` | frontend/pages/dashboard/today.tsx:136 | The error-box text. It has no contract of its own; `TodayDashboard.Render` states it: "Error: " and the message for an Error object, "Error: Failed to fetch tasks" for any other thrown value |
| `TodayDashboard.Render` | frontend/pages/dashboard/today.tsx:126-245 | Spinner iff loading. Error box iff an error: "Error: " and the message for an Error object, "Error: Failed to fetch tasks" for any other thrown value. List region iff not loading and no error. In the region: empty state iff zero tasks, else one table row per task in order. The count line is `CountLine` of the number of tasks when the region shows, and absent otherwise |
| `TodayDashboard.OneBranchShows` | frontend/pages/dashboard/today.tsx:126-149 | When the query is not loading and failed at once, exactly one of spinner, error box, empty state and table shows |
| `TodayDashboard.PageShowsOneBranch` | frontend/pages/dashboard/today.tsx:126-149 | A page in its invariant (never loading and failed at once) shows exactly one of spinner, error box, empty state and table |
| `TodayDashboard.TodayPage.constructor` | frontend/pages/dashboard/today.tsx:23 | On mount the query is loading, has no error, and the list defaults to empty |
| `TodayDashboard.TodayPage.Fetch` | frontend/pages/dashboard/today.tsx:23-42 | The table is untouched and the query stops loading. A success sets the list to `TodayList` of the table and clears the error. A failure keeps the error and the previous list |
| `TodayDashboard.TodayPage.MarkComplete` | frontend/pages/dashboard/today.tsx:45-65 | A failed update leaves the table and the query state unchanged, raises the alert and triggers no refetch. A successful one sets the table to `MarkedComplete` of the old table and refetches. After a successful refetch the listed tasks exclude that id |

## Left out

- HTTP transport, CORS delivery, `req.json()` parsing and the client library calls are out: each becomes a parameter or an outcome.
- JSON field values that are not strings (numbers, booleans, objects) are not modelled. A body field is a string, or absent/null.
- Malformed body: the only thrown exception modelled is a body that cannot be read or destructured. Rejections inside the lookup, insert or broadcast calls are not modelled, and a thrown broadcast is modelled as an outcome that is ignored.
- `new Date(...)` parsing of ISO-8601 text is the parameter `parse`. The database's own conversion of `due_at` text, and of id text in the lookup (for instance case folding of UUIDs), is outside the model.
- The applications map is taken as the lookup's answer for the exact id text.
- Local-timezone day boundaries are given as two instants. That they span one calendar day is not stated, because the window comes from the platform's local calendar.
- The endpoint stores the raw `due_at` text. The dashboard reads rows whose `due_at` is the stored instant. The two row types are separate, as the source's two shapes are.
- `TodayDashboard.TodayList`: the order among tasks with equal due times is left open by the query. The model fixes one order and states only sortedness and contents.
- `TodayDashboard.ShortId` counts characters where `substring(0, 8)` counts UTF-16 code units; the two differ only for characters outside the Basic Multilingual Plane, which a stored UUID never holds.
- `toISOString`, `formatTime` and `toLocaleTimeString` are locale formatting; the row view carries the due instant unformatted.
- React Query is not modelled: caching, automatic retries, invalidation timing, and the button disabled while a mutation is in flight. The refetch after a successful update is modelled as immediate.
- `alert` and `console.error` output are not modelled; the alert text is returned.
- HTML markup, page metadata, the landing page, the app shell, the error boundary, the build configuration and the browser client setup carry no decision logic. They are not part of this model.
