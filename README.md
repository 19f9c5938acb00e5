# Super Productivity MCP bridge — a Dafny model

This project models the logic inside `super-productivity-mcp`, an MCP
(Model Context Protocol) server that drives the Super Productivity app. It
does so through a Socket.IO bridge plugin running in the app. The model covers:

- **The bridge** (`bridge.dfy`).
  - The server keeps a registry of the one connected plugin socket.
  - Every capability call is one socket request. Its promise settles exactly
    once: by the plugin's acknowledgement, or by a 10 000 ms timeout,
    whichever comes first.
  - A reply carrying a truthy `error` is a rejection.
  - `SocketClient` and `PendingRequest` are classes whose methods update
    their fields. The pure `Cell`/`Step`/`Run` functions state one request's
    life for the lemmas.
- **The command table** (`facade.dfy`). The fourteen façade operations each
  send one fixed event name with one payload shape. `Uncommand` reads a
  message back as the call that sends it.
- **The MCP session table** (`sessions.dfy`).
  - A map from session id to Streamable HTTP transport. An entry is added
    when a session initialises and removed when it closes.
  - POST, GET and DELETE on `/mcp` are routed by their `mcp-session-id`
    header.
- **The plugin's command handlers and hooks** (`plugin_logic.dfy`).
  - Each handled event becomes a plugin API call.
  - The API's outcome becomes the acknowledgement: the result,
    `{success: true}`, or `{error: text}`.
  - Four hooks are forwarded as renamed events.
  - Together with the server's decoder this gives the round trip of a
    request across both programs.
- **The tool handlers** (`tasks.dfy`, `tags.dfy`, `projects.dfy`, `ui.dfy`).
  - Each tool is a function of the call's arguments and of how its one
    façade request settles.
  - The arguments go through a zod-like schema with defaults (`schema.dfy`);
    unknown keys are stripped.
  - The reply is the `{content, isError}` envelope (`replies.dfy`).
- **The smart actions** (`analytics.dfy`, `priorities.dfy`,
  `daily_plan.dfy`, `smart_actions.dfy`).
  - The recent-window statistics and threshold insights of
    `analyze_productivity`.
  - The additive priority score, its reasons and the top-N selection of
    `suggest_priorities`.
  - The first-fit daily plan of `create_daily_plan`.
  - Wherever the source loops or accumulates, the model is a method with a
    loop or a chain of updates, proved equal to a specification function.
    The properties are proved about that function.

Times are integer milliseconds, and the clock reading `now` is a parameter.
A JSON value is `Json.Value`: `undefined`, `null`, booleans, integer
numbers, strings, arrays and objects. JavaScript truthiness is `Json.Truthy`.

The session table follows the code, not the MCP Streamable HTTP scheme,
except for the lookup of the first finding below: `HandlePost` and
`HandleSession` find only the table's own entries, and agree with the code
as written for every header that is not an `Object.prototype` member name.

- a POST with an unknown session id is answered 400, where the transport
  scheme answers 404;
- GET and DELETE with a missing or unknown id are answered 404.

## Model

| member | source | states |
|---|---|---|
| Bridge.Step | src/index.ts:33-50 | An acknowledgement settles a pending request and disarms its timer. The timer settles it with the timeout message naming the event once the clock reaches the deadline. An event changes the state exactly when it is effective, and a settled request never changes. |
| Bridge.Run | src/index.ts:33-50 | Running events keeps the timer armed exactly while the request is pending. |
| Bridge.SettledIsFinal | src/index.ts:33-50 | Once settled, a request keeps its outcome, whatever arrives later. |
| Bridge.FirstEffectiveEventDecides | src/index.ts:33-50 | The first effective event, acknowledgement or timeout, decides the outcome; the later one has no effect. |
| Bridge.UnansweredRequestTimesOut | src/index.ts:34-40 | With no acknowledgement, a request stays pending before its deadline. Once the clock reaches the deadline it is rejected with `Timeout aguardando resposta do plugin para evento <event>`. |
| Bridge.PendingRequest.InFlight | src/index.ts:33-40 | A sent request is pending, with its timer armed for `now + 10000`. |
| Bridge.PendingRequest.Failed | src/index.ts:27-31 | A request that was never sent is already rejected, and no timer is armed. |
| Bridge.PendingRequest.OnAck | src/index.ts:42-49 | The acknowledgement callback clears the timer. It rejects with `String(response.error)` when the reply is truthy with a truthy `error`, and resolves with the reply otherwise (this is `Step` on an `Ack`). |
| Bridge.PendingRequest.OnTick | src/index.ts:34-40 | The timer callback rejects with the timeout message only when the timer is armed and due (this is `Step` on a `Tick`). |
| Bridge.LatestConnectionIsRegistered | src/index.ts:133-142 | The registered socket is the latest connection, unless that socket has since disconnected. Disconnects of sockets already replaced change nothing. |
| Bridge.NeverConnected | src/index.ts:133-142 | With no connection ever made, no socket is registered. |
| Bridge.SocketClient.constructor | src/index.ts:19-20 | A new client has no socket and has sent nothing. |
| Bridge.SocketClient.SetSocket | src/index.ts:22-24 | Replaces the registered socket and sends nothing. |
| Bridge.SocketClient.OnConnection | src/index.ts:133-135 | A new connection always becomes the registered socket. |
| Bridge.SocketClient.OnDisconnect | src/index.ts:137-142 | A disconnect clears the registry only when the ids match; otherwise nothing changes. |
| Bridge.SocketClient.EmitWithAck | src/index.ts:26-51 | With no socket, the promise is rejected at once with the not-connected message, nothing is sent and no timer is armed. Otherwise exactly one message goes out on the registered socket, and the request is pending with its 10 s timer. |
| Bridge.SocketClient.Request | src/index.ts:53-107 | Each façade method is one `emitWithAck` with the event and payload of the command table. |
| Facade.Command | src/index.ts:53-107 | The command table can be read back: `Uncommand(Command(c)) == Some(c)`, so every argument reaches the wire. |
| Facade.PayloadShapes | src/index.ts:53-107 | Reading operations send `undefined`, and the creating and UI operations pass their argument through. `updateTask` sends exactly `{taskId, updates}`, `deleteTask` sends `{taskId}`, `batchUpdate` sends `{projectId, operations}` and `updateTag` sends `{tagId, updates}`. |
| Facade.CommandInjective | src/index.ts:53-107 | Two calls that put the same message on the wire are the same call. |
| Facade.EventNamesDistinct | src/index.ts:53-107 | No two different operations share an event name. |
| Sessions.PrototypeKeyIsTakenForASession | src/index.ts:151-152 | As written, with an empty table, the header `toString` is taken for a transport, on POST and on GET/DELETE alike. The corrected routing answers 400 and 404. |
| Sessions.AsWrittenAgreesOffPrototype | src/index.ts:151-196 | For headers that are not `Object.prototype` member names, the routing as written equals the own-entry routing. |
| Sessions.RoutingAgrees | src/index.ts:151-196 | The corrected routing never crashes, and POST finds exactly the sessions GET/DELETE find. A POST starts a session exactly when the header is missing or empty; GET/DELETE never do. |
| Sessions.LastEventDecides | src/index.ts:156-167 | A session is in the table exactly when the last event naming it is its initialisation. |
| Sessions.NeverInitialized | src/index.ts:156-159 | A session id that was never initialised is never in the table. |
| Sessions.Transport.constructor | src/index.ts:154-160 | A new transport has no session id yet. |
| Sessions.SessionTable.constructor | src/index.ts:145 | The table starts empty. |
| Sessions.SessionTable.HandlePost | src/index.ts:147-185 | A known id reuses its transport, and no header gives a fresh transport without a session. An unknown id gets 400. The table is not changed. For every header that is not an `Object.prototype` member name, the route is the one the code as written computes. |
| Sessions.SessionTable.HandleSession | src/index.ts:190-203 | A known id gives the transport registered under it. A missing or unknown id gets 404. The table is not changed. For every header that is not an `Object.prototype` member name, the route is the one the code as written computes. |
| Sessions.SessionTable.OnSessionInitialized | src/index.ts:156-159 | The transport receives a fresh id and is entered under it; every other entry stays. |
| Sessions.SessionTable.OnClose | src/index.ts:162-167 | A transport with a session id removes exactly its own entry. One without an id changes nothing, and no remaining entry is the closed transport. |
| PluginLogic.DispatchOfCommand | mcp-bridge-plugin/plugin-logic.js:27-84 | Exactly five of the server's commands have no handler: `tags:create`, `tags:update` and the three `ui:` requests. Every other command calls the API with the arguments the server packed, as they arrive over the socket. `tasks:update` unpacks `taskId` and `updates`, and `tasks:batch` passes the whole payload. |
| PluginLogic.SuccessRoundTrip | mcp-bridge-plugin/plugin-logic.js:27-84 | A successful call, acknowledged and decoded by the server, resolves as follows: update and delete with `{success: true}`, and every other handled call with the API's result as it crosses the socket. That result is unchanged when nothing in it is `undefined`. The exception is a result that itself carries a truthy `error`, which rejects with its text. |
| PluginLogic.UndefinedResultArrivesAsNull | mcp-bridge-plugin/plugin-logic.js:39-43 | An API call that fulfils with `undefined` resolves on the server with `null`, so `create_task` replies with `"taskId": null`. |
| Json.OnWireSpec | src/index.ts:42 | What comes out of the socket never holds `undefined`, and a value without `undefined` arrives unchanged. |
| Json.OnWireIdempotent | src/index.ts:42 | Sending an arrived value again changes nothing. |
| Json.TruthyOnWire | src/index.ts:44 | Truthiness and nullishness survive the socket, so the server's `response && response.error` test reads the same on both ends. |
| Json.GetOnWire | src/index.ts:44 | A property that held `undefined` is absent on arrival; any other property arrives converted. |
| Json.ToJsStringOnWire | src/index.ts:45 | `String(v)` of any value other than `undefined` reads the same on both ends. |
| PluginLogic.FailureRoundTrip | mcp-bridge-plugin/plugin-logic.js:30 | A failure is acknowledged as `{error: err.message \|\| String(err)}`. An Error with a message rejects with that message, and one with an empty message rejects with its name. A falsy text resolves as a value, and a nullish reason sends no acknowledgement. The acknowledgement arrives as `{error: text}` with the text as it crosses the socket. |
| PluginLogic.EmptyErrorResolves | mcp-bridge-plugin/plugin-logic.js:30 | A thrown empty string is resolved by the server as the value `{error: ""}`. |
| PluginLogic.NoAckEndsByTimeout | mcp-bridge-plugin/plugin-logic.js:27-84 | A request with no handler, or whose rejection reason is nullish, ends only by the timeout. |
| PluginLogic.Forward | mcp-bridge-plugin/plugin-logic.js:88-102 | A hook emits its payload unchanged under an `event:` name that is not a command. |
| PluginLogic.ForwardInjective | mcp-bridge-plugin/plugin-logic.js:88-102 | Each hook has its own event, so the hook and its payload can be recovered. |
| Replies.RespondReportsFailure | src/tools/tasks.ts:44-52 | A tool reports an error exactly when its façade call was rejected or shaping the resolved value failed. A rejection's message can be read back from the text after the `Error: ` prefix. |
| Schema.DecodeFieldsSpec | src/tools/tasks.ts:162-169 | An object validates exactly when every declared field accepts. The result holds only the declared fields: each supplied one decoded, each missing defaulted one at its default. |
| Schema.DecodeItemsSpec | src/tools/tasks.ts:162 | An array validates exactly when every item does, and keeps the decoded items in order. |
| Schema.FlatDecodeIsIdentity | src/tools/tasks.ts:60-65 | Scalar, record and string-array fields pass through validation unchanged. |
| Schema.DecodeArgsSpec | src/tools/tasks.ts:9-13 | Arguments validate exactly when each declared field accepts. Supplied fields keep the caller's value, missing defaulted ones get the default, and undeclared keys are dropped. |
| Schema.RequiredField | src/tools/tasks.ts:60 | A required field of validated arguments was supplied with a value of its type, which is kept. |
| Schema.DecodeArgsPicks | src/tools/tags.ts:45-49 | With no defaults, the validated arguments are exactly the caller's values for the declared names. |
| Tasks.ListTasksFetch | src/tools/tasks.ts:16-18 | `list_tasks` reads the current context's tasks exactly when `currentContextOnly` is `true`. |
| Tasks.ListTasksArgs | src/tools/tasks.ts:9-13 | `list_tasks` fails validation only on a mistyped field. `projectId` is the caller's or absent, and `currentContextOnly` is the caller's or `false`. |
| Tasks.IncludeArchivedIgnored | src/tools/tasks.ts:11-14 | `includeArchived` changes neither the request nor the reply. |
| Tasks.KeptSpec | src/tools/tasks.ts:20-23 | With a truthy `projectId`, the kept tasks are exactly that project's, in order. Otherwise all tasks are kept. |
| Tasks.SummarySpec | src/tools/tasks.ts:27-35 | A summary has exactly the seven keys, each read from the task. |
| Tasks.SummariesSpec | src/tools/tasks.ts:27-35 | There is one summary per kept task, in order. |
| Tasks.ListTasksReplyOk | src/tools/tasks.ts:25-36 | On an array of tasks, the reply is `{count, tasks}`, built from the kept tasks. |
| Tasks.ListTasksOutput | src/tools/tasks.ts:25-36 | `count` equals the number of output tasks, and each output task is the seven-key projection of a kept task. |
| Tasks.ListTasksTypeErrors | src/tools/tasks.ts:20-35 | A fetched value that is not an array, or that holds a nullish task, ends in the error envelope instead of escaping. |
| Tasks.CreateTaskSpec | src/tools/tasks.ts:57-79 | `create_task` needs a string `title` and forwards exactly the declared fields supplied. On success it reports `success`, the new `taskId` and `Task created: <title>`. |
| Tasks.CreateTaskArgs | src/tools/tasks.ts:59-67 | Validated `create_task` arguments are the caller's declared fields, title included. |
| Tasks.UpdateTaskSpec | src/tools/tasks.ts:93-114 | `update_task` sends `taskId` on its own, and the other supplied fields as updates, which never hold `taskId`. On success it reports `Task updated successfully`. |
| Tasks.UpdateTaskArgs | src/tools/tasks.ts:95-103 | Validated `update_task` arguments hold the caller's `taskId`. Without it they are the other declared fields supplied. |
| Tasks.CompleteTaskSpec | src/tools/tasks.ts:128-144 | `complete_task` runs exactly when `taskId` is a string. It sends exactly `{isDone: true}` as that task's update and reports `Task marked as complete`. |
| Tasks.OperationSpec | src/tools/tasks.ts:162-169 | A batch operation validates only with a `type` among create, update, delete and reorder, which it keeps. |
| Tasks.BatchArgs | src/tools/tasks.ts:160-171 | Validated batch arguments are the caller's `projectId` and the validated operations. |
| Tasks.OperationsSpec | src/tools/tasks.ts:162-169 | The operations validate item by item, keeping their number and order. |
| Tasks.OperationKinds | src/tools/tasks.ts:163 | Every operation of a valid array has a `type` among the four kinds. |
| Tasks.BatchUpdateSpec | src/tools/tasks.ts:158-179 | `batch_update_tasks` forwards the project id and one validated operation per given operation, in order, each of an allowed kind. It replies with the result unchanged. |
| Tasks.TaskToolsReportFailures | src/tools/tasks.ts:44-52 | Every task tool whose request fails replies `Error: <message>` with `isError`. |
| Tags.ListTagsSpec | src/tools/tags.ts:10-27 | `list_tags` returns the fetched tags unchanged, with `count` their `length`. A nullish result is an error envelope. |
| Tags.CreateTagSpec | src/tools/tags.ts:43-64 | `create_tag` needs a string `title` and passes exactly the supplied title, color and icon. On success it reports the new `tagId` and `Tag created: <title>`. |
| Tags.UpdateTagSpec | src/tools/tags.ts:80-101 | `update_tag` sends `tagId` on its own, and updates that never hold `tagId`. On success it reports `Tag updated successfully`. |
| Tags.UpdateTagArgs | src/tools/tags.ts:82-88 | Validated `update_tag` arguments hold the caller's `tagId`. Without it they are the other declared fields supplied. |
| Tags.TagToolsReportFailures | src/tools/tags.ts:28-37 | Every tag tool whose request fails replies `Error: <message>` with `isError`. |
| Projects.ListProjectsSpec | src/tools/projects.ts:10-27 | `list_projects` returns the fetched projects unchanged, with `count` their `length`. |
| Projects.CreateProjectArgs | src/tools/projects.ts:45-49 | Validated `create_project` arguments are the supplied title and theme, plus `isArchived`, which defaults to `false`. |
| Projects.CreateProjectSpec | src/tools/projects.ts:43-64 | `create_project` needs a string `title` and sends the defaulted parameters. On success it reports the new `projectId` and `Project created: <title>`. |
| Projects.ProjectToolsReportFailures | src/tools/projects.ts:28-37 | Both project tools reply `Error: <message>` with `isError` when their request fails. |
| Ui.UiParams | src/tools/ui.ts:9-12 | A UI tool needs a string `message` and a `type` among the allowed ones. Its parameters are the supplied fields, with `type` set to its default when not given. |
| Ui.UiPick | src/tools/ui.ts:11 | The validated UI parameters are the supplied fields, with `type` defaulted. |
| Ui.ShowNotificationSpec | src/tools/ui.ts:7-24 | `show_notification` accepts `type` among SUCCESS, ERROR and INFO, defaulting to INFO. It notifies with the defaulted parameters and replies `Notification sent` whatever the plugin answers. |
| Ui.ShowSnackSpec | src/tools/ui.ts:40-57 | `show_snack` accepts `type` among SUCCESS, ERROR and INFO, defaulting to INFO. It shows the snack with the defaulted parameters and replies `Snack shown`. |
| Ui.OpenDialogSpec | src/tools/ui.ts:73-92 | `open_dialog` needs `message` and accepts `type` CONFIRM or PROMPT, defaulting to CONFIRM. It replies with the dialog's result. |
| Ui.UiToolsReportFailures | src/tools/ui.ts:25-34 | Every UI tool whose request fails replies `Error: <message>` with `isError`. |
| Analytics.GenerateInsights | src/tools/smart-actions.ts:230-274 | The pushes of `generateInsights` produce exactly the rate, accuracy and missing-estimate insights of the specification, in that order. |
| Analytics.RatioAbove | src/tools/smart-actions.ts:237-267 | For a positive denominator, comparing a ratio with a constant is comparing the cross products. |
| Analytics.InsightsMeaning | src/tools/smart-actions.ts:236-271 | High completion is emitted exactly when the rate exceeds 0.8, and low completion exactly when it is below 0.4; never both. An empty window is low. An accuracy insight needs a positive estimate, and compares spent/estimated with 1.2 and 0.8. The missing-estimate insight exactly when over 30% lack one. |
| Analytics.WindowSpec | src/tools/smart-actions.ts:19-25 | A task is recent exactly when it was created, or done, since `now - days·86400000`. The completed tasks are the done recent ones, in order, so they number no more than the recent ones. |
| Analytics.TotalsSpec | src/tools/smart-actions.ts:26-30 | Non-negative estimates give a non-negative estimated total. The spent total is NaN exactly when some task has no time spent. |
| Analytics.TotalEstimatedAppend | src/tools/smart-actions.ts:26-29 | The estimated total of two runs of tasks is the sum of their totals. |
| Analytics.TotalSpentAppend | src/tools/smart-actions.ts:30 | The spent total of two runs of tasks is NaN exactly when either part's is, and otherwise the sum of the two. |
| Analytics.TotalsOfOne | src/tools/smart-actions.ts:26-30 | One task contributes its estimate (0 without one) and its time spent. |
| Analytics.UnestimatedAddNothing | src/tools/smart-actions.ts:26-29 | Tasks without an estimate add nothing: the estimated total equals that of the estimated tasks alone. |
| Priorities.Score | src/tools/smart-actions.ts:94-117 | The priority score lies in 0..110. |
| Priorities.ScoreMeaning | src/tools/smart-actions.ts:98-115 | The due band is 50, 30 or 10 exactly when a truthy due date is under 1, 3 or 7 days away, counted in real days. The age bonus is 10 above 7 days and 25 above 14. |
| Priorities.PriorityScore | src/tools/smart-actions.ts:94-117 | The scoring closure's additions give exactly `Score`. |
| Priorities.ExplainPriority | src/tools/smart-actions.ts:276-295 | The pushes of `explainPriority` give exactly `Reasons`. |
| Priorities.ReasonsMatchScore | src/tools/smart-actions.ts:279-292 | Each reason is given exactly when its part of the score is: the 50 and 30 bands, the estimate and subtask bonuses, and the full age bonus. |
| Priorities.InsertSorted | src/tools/smart-actions.ts:122 | Inserting into a list sorted by descending score keeps it sorted. |
| Priorities.InsertPermutes | src/tools/smart-actions.ts:122 | Inserting adds exactly the inserted element. |
| Priorities.InsertStable | src/tools/smart-actions.ts:122 | Insertion places a new element before the equal-score ones it was listed ahead of. |
| Priorities.SortSpec | src/tools/smart-actions.ts:121-122 | `sort((a, b) => b.score - a.score)` yields non-increasing scores, is a permutation of its input, and keeps the input order among equal scores. |
| Priorities.SliceEnd | src/tools/smart-actions.ts:123 | `slice(0, k)` ends at `k` capped by the length. A negative `k` counts from the end. |
| Priorities.SuggestPriorities | src/tools/smart-actions.ts:86-129 | The handler's filter, score, sort, slice and explain loops give exactly `Suggestions`. |
| Priorities.CandidatesSpec | src/tools/smart-actions.ts:86-91 | The candidates are exactly the not-done tasks, of the given project when `projectId` is truthy. |
| Priorities.RankedSpec | src/tools/smart-actions.ts:94-122 | The ranking lists every candidate once, with its score, best first. |
| Priorities.TopIsBest | src/tools/smart-actions.ts:121-123 | No candidate left out of the top slice outscores one inside it. |
| Priorities.SuggestionsSpec | src/tools/smart-actions.ts:86-129 | There are at most `maxTasks` suggestions, in non-increasing score. Each is a not-done task of the given project with its score and reasons, and no left-out candidate outscores a chosen one. |
| DailyPlan.BreakIsFloor | src/tools/smart-actions.ts:172-176 | With breaks, the break is the floor of 15% of the available minutes; without breaks it is 0. |
| DailyPlan.Picks | src/tools/smart-actions.ts:182-193 | The greedy pass makes one decision per pending task. |
| DailyPlan.PicksAreFirstFit | src/tools/smart-actions.ts:182-193 | Each task is picked exactly when its estimate, added to what was picked before it, fits in the work time. |
| DailyPlan.FirstFitIsGreedy | src/tools/smart-actions.ts:182-193 | The greedy pass's selection is the only first-fit one. |
| DailyPlan.PicksWithinBudget | src/tools/smart-actions.ts:184 | The planned estimates never exceed the work time. |
| DailyPlan.ChosenIsSubsequence | src/tools/smart-actions.ts:182-190 | The planned tasks keep the pending tasks' order. |
| DailyPlan.ChosenMembers | src/tools/smart-actions.ts:182-190 | Every planned task is a pending task. |
| DailyPlan.EntriesSpec | src/tools/smart-actions.ts:185-190 | Entry `i` describes the `i`-th planned task with `order` `i + 1`, so the orders are exactly 1..n. |
| DailyPlan.PlanTasks | src/tools/smart-actions.ts:179-193 | The planning loop's pushes and running total are exactly the entries and summed estimates of the greedy selection. |
| DailyPlan.SelectionSpec | src/tools/smart-actions.ts:179-193 | The selection is first-fit, keeps order, stays within the budget, and numbers its entries from 1. |
| DailyPlan.PlanSpec | src/tools/smart-actions.ts:168-206 | The work time is the available time minus the breaks. Only not-done tasks are planned, in order, by first fit, within the work time, with their estimates summed and orders 1..n. The reported hours and minutes add back up to the planned time in whole minutes. |
| DailyPlan.KeepsScanningAfterMiss | src/tools/smart-actions.ts:182-192 | With one hour of work, a 90-minute task is skipped and a later 30-minute task is still planned. |
| DailyPlan.DefaultEstimateIsOneHour | src/tools/smart-actions.ts:183 | A task without an estimate counts as 3 600 000 ms, shown as 60 minutes. |
| DailyPlan.PlannedTimeOverstatesHours | src/tools/smart-actions.ts:203 | As written, 90 planned minutes read as 2 hours 30 minutes, which does not add back to 90. |
| DailyPlan.PlannedTimeAddsUp | src/tools/smart-actions.ts:203 | Whole hours plus left-over minutes give back the planned time, with under 60 minutes left over. |
| SmartActions.AnalyzeSpec | src/tools/smart-actions.ts:10-73 | `analyze_productivity` reads every task and analyses the window of the given `days` (7 by default). A non-number `days` is rejected, and a failed fetch gives `Error: <message>`. |
| SmartActions.SuggestArgs | src/tools/smart-actions.ts:79-83 | `suggest_priorities` arguments validate when `projectId` is absent or a string and `maxTasks` is a number (5 by default). |
| SmartActions.SuggestSpec | src/tools/smart-actions.ts:77-157 | `suggest_priorities` reads the current context's tasks and replies with `Suggestions` for the given project and count. A failed fetch gives `Error: <message>`. |
| SmartActions.PlanArgs | src/tools/smart-actions.ts:163-166 | `create_daily_plan` arguments validate when `availableHours` is a number (default 8) and `includeBreaks` a boolean (default true). |
| SmartActions.PlanToolSpec | src/tools/smart-actions.ts:161-226 | `create_daily_plan` reads the current context's tasks and replies with the plan for the given hours and breaks. A failed fetch gives `Error: <message>`. |
| SmartActions.AnalyzeDefaults | src/tools/smart-actions.ts:13 | With no arguments, the last seven days are analysed. |
| SmartActions.SuggestDefaults | src/tools/smart-actions.ts:80-81 | With no arguments, at most five tasks from all projects are suggested. |
| SmartActions.PlanDefaults | src/tools/smart-actions.ts:164-176 | With no arguments, eight hours are planned as 408 minutes of work and 72 minutes of breaks. |

## Left out

- Floating-point output formatting is left out: the `toFixed` percentages, the `workTime` and `breakTime` hour strings, `utilizationRate`, `completionRate`, `estimationAccuracy`, the `period` text and the `JSON.stringify` text. The model returns the structured values the strings are made from.
- The insight and reason sentences are tags (`Insight`, `Reason`) naming the condition that fired.
- `totalPlannedTime` is kept as the pair of hours and minutes (`Plan.plannedTime`), split from the planned time rounded to whole minutes, in the corrected form of the second finding.
- Numbers are integers. Fractional `days`, `availableHours` or estimates, and NaN apart from a missing `created`/`timeSpent`, are not modelled.
- The smart actions receive the fetched tasks as typed `Task` records. The TypeError the source raises when the fetch returns something else is not modelled. A task's subtask list is reduced to its length.
- `TypeFailure` stands for a TypeError raised by the engine inside a handler. Its message text is not modelled.
- zod's validation messages and its error result are not modelled; a failed validation is `InvalidParams`.
- The MCP SDK is not modelled: `McpServer`, `server.connect`, and `StreamableHTTPServerTransport.handleRequest` and its protocol handling. A transport is only the object that carries its session id.
- Express and Socket.IO are not modelled. Sockets are ids, and timers and acknowledgements are events delivered to a request. Concurrency and promise scheduling are not modelled.
- A message crossing the socket is `Json.OnWire` of what was sent, Socket.IO's JSON encoding of its arguments. Binary attachments, `toJSON` methods, functions and NaN on the wire are not modelled.
- Facade.PayloadShapes: states the payload as the server emits it. What the plugin receives is that payload through `Json.OnWire`, as `PluginLogic.DispatchOfCommand` states.
- The wall clock and `randomUUID` are parameters. `now` is a parameter, and a new session id is fresh and non-empty. `explainPriority` reads `Date.now()` again, and the model uses the same `now` for the score and the reasons.
- The CLI (`commander`, `figlet`, `chalk`, the `connect`/`projects`/`tasks`/`tags` commands), `httpServer.listen` and all console logging are left out.
- mcp-bridge-plugin/plugin.ts and src/client/sp-client.ts are not part of this model. The first is an HTTP server over an API outside the model, the second an HTTP client.
- The plugin's `connect`, `disconnect` and `connect_error` logging handlers are left out. So is the plugin API itself: its outcome is a parameter of the handlers.
- The server registers no listener for the `event:*` messages the hooks emit. The model forwards them (`PluginLogic.Forward`) and states nothing about their reception.
- Sessions.SessionTable.HandlePost: implements the corrected own-entry lookup of the first finding. The code as written, which crashes on a header naming an `Object.prototype` member, is `Sessions.PostRouteAsWritten`. The method agrees with it on every other header.
- Sessions.SessionTable.HandleSession: implements the corrected own-entry lookup of the first finding. The code as written, which passes the 404 test for a header naming an `Object.prototype` member and then crashes, is `Sessions.SessionRouteAsWritten`. The method agrees with it on every other header.
- DailyPlan.Picks: sums estimates as exact milliseconds. The source sums floating-point fractional minutes, so at the exact `<= workMinutes` boundary a rounding error could flip a decision. That difference is not modelled.
- Bridge.SocketClient.Request: the façade call's promise is the `PendingRequest` it returns. Its later settlement is stated by `Step`/`Run`, not by the method.

## Findings

| source | as written | input that shows it | evidently intended | confidence | as-written member | corrected member |
|---|---|---|---|---|---|---|
| src/index.ts:151, 195 | `transports[sessionId]` is a lookup in a plain object. It also finds `Object.prototype` members. | An `mcp-session-id` header of `toString` (or `constructor`, `__proto__`) with an empty table: POST neither starts a session nor answers 400 but calls `handleRequest` on a function, and GET/DELETE do the same instead of answering 404. | Only sessions the table holds are found: 400 on POST and 404 on GET/DELETE for any other id. | not executed | Sessions.PrototypeKeyIsTakenForASession | Sessions.RoutingAgrees |
| src/tools/smart-actions.ts:203 | `totalPlannedTime` shows `Math.round(totalTime / 60)` hours and `Math.round(totalTime % 60)` minutes. | 90 planned minutes read as `2 hours 30 minutes`. | Whole hours `floor(totalTime / 60)` and the minutes left over: `1 hours 30 minutes`. | not executed | DailyPlan.PlannedTimeOverstatesHours | DailyPlan.PlannedTimeAddsUp |
