# FaaS control plane: a Dafny model

This project models the core of a small function-as-a-service control plane.

The backend is a FastAPI service that keeps workspaces, functions and execution logs in one
DynamoDB table and function source code in an S3 bucket. A build router hands uploads to an
external builder service and polls it for the outcome.

The frontend is a React client. It keeps a cache of workspaces, functions and logs, and its
pages derive lists and totals from that cache.

The model is organised one module per source file:

- `Timezone` (timezone.dfy): conversion of datetimes to Korea Standard Time (UTC+9), with
  instants as integer seconds and an optional UTC offset.
- `Models` (models.dfy): the request models' field constraints and defaults, as parse functions
  from raw JSON fields (absent, null or given) to validated records or a validation error.
- `Database` (database.dfy): the table as a `map<(PK, SK), Item>` owned by the class
  `DynamoDBClient`, and the bucket as a `map<string, string>` owned by `S3Client`. Their methods
  update the maps step by step, as the source does with put_item, update_item and delete_item.
- `WorkspacesRouter`, `FunctionsRouter` and `LogsRouter`: the HTTP handlers. They check existence
  before they change anything, build patches, and project stored items onto response records.
- `Builds` (builds.dfy): upload checks, tag and credential normalisation, the bounded poll loops
  against the builder, task-status views, and the deploy retry. The builder is a function from
  attempt number to status reply. Sleeps are counted rather than timed.
- `AppContext` (app_context.dfy): the client cache as the class `AppState`. API replies are
  parameters (`Ok` with the mapped record, or `Err` when the request threw).
- `NewFunction`, `FunctionsList` and `WorkspaceDashboard`: the pages' handlers and derived views.
- `Wrappers`, `Text` and `Lists`: Option and Result, string helpers (prefix, substring, ASCII
  lower-casing, trim, sort-key order), and JavaScript's `filter`, `find`, `slice` and `reduce`.

## Model

| member | source | states |
|---|---|---|
| Timezone.AsTimezone | backend/app/utils/timezone.py:25 | `astimezone` on an aware datetime keeps its absolute instant and carries the requested offset |
| Timezone.ToKst | backend/app/utils/timezone.py:18-25 | the result always carries the +9h offset; an aware input keeps its instant; a naive input is read as UTC, so its wall clock moves 9 hours ahead |
| Timezone.ToKstIdempotent | backend/app/utils/timezone.py:18-25 | converting to KST twice is converting once |
| Timezone.NowKst | backend/app/utils/timezone.py:8-10 | the current instant shown with the KST offset |
| Timezone.KstOffsetText | backend/app/utils/timezone.py:5 | the KST offset of 9 hours is written "+09:00" |
| Timezone.OffsetTextRoundTrip | backend/app/utils/timezone.py:13-15 | an offset in whole minutes is read back from the offset suffix it is written as |
| Timezone.NowKstIso | backend/app/utils/timezone.py:13-15 | the ISO text of the current KST time ends in "+09:00" and that suffix reads back as 9 hours |
| Models.ParseWorkspaceCreate | backend/app/models.py:8-12 | accepted exactly when the name is given and non-empty; the description stays optional |
| Models.ParseWorkspaceUpdate | backend/app/models.py:15-19 | accepted exactly when a given name is non-empty; both fields stay optional |
| Models.ParseFunctionCreate | backend/app/models.py:35-49 | accepted exactly when every field meets its constraint (memory 128..1024, timeout 1..900, non-empty name); absent fields take their defaults |
| Models.FunctionCreateDefaults | backend/app/models.py:40-48 | a request with only name and code gets runtime "Python 3.12", memory 256, timeout 30, httpMethods ["GET"] and an empty environment |
| Models.FunctionCreateRoundTrip | backend/app/models.py:35-49 | a valid model sent back with all its fields parses to itself |
| Models.ParseFunctionUpdate | backend/app/models.py:52-66 | accepted exactly when every given field meets its bound and a given status is one of the five allowed ones; every field stays optional |
| Models.ParsePushRequest | backend/app/models.py:194-205 | accepted exactly when registry URL and workspace id are given and no defaulted field is null; the result carries every given field, with username "AWS", password "dummy-password" and tag "sha256" by default |
| Models.ParseBuildAndPushRequest | backend/app/models.py:260-269 | registry URL required; username, password and tag default to "AWS", "dummy-password" and "sha256" |
| Models.ParseScaffoldRequest | backend/app/models.py:208-214 | accepted exactly when the image reference is given and replicas is not null and at least 1; the result carries every given field, with replicas 1 by default |
| Models.ParseDeployRequest | backend/app/models.py:226-244 | accepted exactly when namespace and image reference are given, autoscaling, spot and replicas are not null and replicas is at least 1; the result carries all fourteen fields (service account, CPU and memory limits and requests, tolerations, affinity included), with replicas 1 and autoscaling and spot true by default |
| Database.Take | backend/app/database.py:25 | `s[:n]`: the first n elements, or all of them when there are fewer |
| Database.KeySchemeSeparates | backend/app/database.py:29-30 | workspace, function and log keys never coincide, and each key determines the ids it was built from |
| Database.QueryKeys | backend/app/database.py:147-150 | a key-condition query finds exactly the stored sort keys under the partition key that begin with the prefix |
| Database.Lookup | backend/app/database.py:224 | the items of a query, one per listed sort key, in order |
| Database.LogKeys | backend/app/database.py:199-200 | the log keys of a function are exactly the stored keys under "FN#"+id whose sort key begins "LOG#" |
| Database.NewWorkspaceItem | backend/app/database.py:28-38 | the metadata item carries its id, the description or "" and a zero functionCount |
| Database.GetText | backend/app/database.py:111-112 | `dict.get(key, default)` on a text field: the default only for a missing key; an explicit null stays null |
| Database.GetNumber | backend/app/database.py:113-114 | the same for memory and timeout |
| Database.GetList | backend/app/database.py:115 | the same for httpMethods |
| Database.GetMap | backend/app/database.py:116 | the same for environmentVariables |
| Database.FunctionItemWellFormed | backend/app/database.py:105-125 | the function item is well formed under its (WS#, FN#) key |
| Database.StoreFunctionItem | backend/app/database.py:127-134 | writing a well-formed function item keeps the table well formed, and the counter can then be raised exactly when the workspace exists |
| Database.NewFunctionDefaults | backend/app/database.py:105-125 | a new function gets status "active", no invocationUrl, no lastDeployed, zero counters, and runtime, memory, timeout and methods defaulted |
| Database.LogItemWellFormed | backend/app/database.py:196-212 | the log item is keyed by its function and by `LOG#{timestamp}#{id}` built from its own stored timestamp text and id |
| Database.Base | backend/app/database.py:165-170 | update_item starts from the stored item, or from the key alone when nothing is stored |
| Database.NonNullSets | backend/app/database.py:157-163 | the SET list holds exactly the non-null updates, each with its own value |
| Database.PatchFunctionEffect | backend/app/database.py:153-171 | update_function sets lastModified, sets each non-null update and leaves every other attribute as it was |
| Database.PatchedAttributes | backend/app/database.py:158-170 | a SET expression without lastModified yields lastModified = now, every set attribute with its value, every other attribute kept, and the key kept |
| Database.RenameKeepsWellFormed | backend/app/database.py:63-80 | renaming a workspace keeps the table well formed |
| Database.WorkspaceSets | backend/app/database.py:63-73 | update_workspace sets name and description exactly when they are given |
| Database.AddCount | backend/app/database.py:130-134 | the counter update succeeds exactly when the workspace's metadata item has a numeric functionCount |
| Database.AddCountEffect | backend/app/database.py:130-134 | functionCount moves by exactly delta and nothing else in the table changes |
| Database.RemoveFunction | backend/app/database.py:173-183 | the corrected delete of Findings row 1: the function's item and every log of that function are gone; every other item is unchanged |
| Database.RemoveFunctionLogs | backend/app/database.py:173-183 | delete_function as written: the function's item and exactly the listed log keys are gone; every other item is unchanged |
| Database.AsWrittenAgreesWithinLimit | backend/app/database.py:176 | with at most 100 logs, the as-written delete removes exactly what the corrected delete removes |
| Database.LogsLeftOver | backend/app/database.py:176 | after the as-written delete of a function with more than 100 logs, exactly 100 fewer logs remain |
| Database.DynamoDBClient.constructor | backend/app/database.py:15-20 | the table starts empty |
| Database.DynamoDBClient.CreateWorkspace | backend/app/database.py:23-41 | the new metadata item is stored under "ws-"+short id and read back by get_workspace; nothing else changes |
| Database.DynamoDBClient.GetWorkspace | backend/app/database.py:43-48 | the stored metadata item, or None exactly when there is none |
| Database.DynamoDBClient.ListWorkspaces | backend/app/database.py:50-57 | every workspace metadata item exactly once, and nothing else |
| Database.DynamoDBClient.UpdateWorkspace | backend/app/database.py:59-83 | with nothing to set the stored record is returned unchanged; otherwise only the given fields change |
| Database.DynamoDBClient.AdjustCount | backend/app/database.py:130-134 | the counter moves by delta; without a counter the call fails and nothing changes |
| Database.DynamoDBClient.CreateFunction | backend/app/database.py:98-136 | the item is stored, then functionCount rises by exactly 1; without a workspace the item stays and the call fails |
| Database.DynamoDBClient.GetFunction | backend/app/database.py:138-143 | the stored function item, or None exactly when there is none |
| Database.DynamoDBClient.ListFunctions | backend/app/database.py:145-151 | exactly the items under WS#ws whose sort key begins "FN#", in ascending sort-key order |
| Database.DynamoDBClient.UpdateFunction | backend/app/database.py:153-171 | the table changes only at the function's key, to the patched item; a failed update changes nothing |
| Database.DynamoDBClient.CreateLog | backend/app/database.py:193-214 | the new log is stored under (FN#id, LOG#timestamp#id) and nothing else changes |
| Database.DynamoDBClient.ListLogs | backend/app/database.py:216-224 | at most `limit` logs of one function, newest first; every log left out is older than every log returned |
| Database.DynamoDBClient.ListAllLogs | backend/app/database.py:216-224 | every log of the function, newest first (the query followed to its last page) |
| Database.DynamoDBClient.DeleteLogItems | backend/app/database.py:177-181 | each listed log is deleted under the key rebuilt from its own timestamp and id |
| Database.DynamoDBClient.DeleteFunctionAsWritten | backend/app/database.py:173-190 | as written: the logs deleted are the newest 100 that list_logs returns, then the item goes and functionCount falls by 1 (MissingCounter without a counter, the deletions kept); nothing else changes, and a function with more than 100 logs leaves all but 100 of them behind |
| Database.DynamoDBClient.DeleteFunctionItem | backend/app/database.py:182-190 | the function's item is gone and functionCount falls by 1; without a counter the call fails and the deletion stays |
| Database.DynamoDBClient.DeleteFunction | backend/app/database.py:173-190 | the corrected delete of Findings row 1: the function and all its logs are gone, functionCount falls by exactly 1 with no floor, nothing else changes |
| Database.DynamoDBClient.DeleteListedFunctions | backend/app/database.py:90-92 | with the corrected delete_function of Findings row 1, the loop over the listed functions deletes each one with its logs; it can fail only when the workspace metadata is missing while functions remain |
| Database.CascadeComplete | backend/app/database.py:90-95 | with the corrected delete_function of Findings row 1, after the loop and the final delete_item, exactly the workspace, its functions and their logs are gone, and the table stays well formed |
| Database.DynamoDBClient.DeleteWorkspace | backend/app/database.py:85-95 | with the corrected delete_function of Findings row 1, the metadata item, every function of the workspace and every log of those functions are gone; every other item is unchanged |
| Database.SavedCodeReadsBack | backend/app/database.py:234-256 | code saved from base64 is read back as a base64 string of the same text |
| Database.S3Client.constructor | backend/app/database.py:230-232 | the bucket starts empty |
| Database.S3Client.SaveCode | backend/app/database.py:234-246 | decoded text is stored at "{workspace}/{function}.py"; undecodable code or an unreachable bucket changes nothing |
| Database.S3Client.GetCode | backend/app/database.py:248-256 | the stored text re-encoded as base64, or NoSuchKey |
| Database.S3Client.DeleteCode | backend/app/database.py:258-261 | the object at the key is gone (a missing one is no error); only an unreachable bucket fails |
| Database.FunctionItemId | backend/app/database.py:105-108 | a stored function item carries the id its sort key was built from |
| Database.LogItemKey | backend/app/database.py:199-200 | a stored log item's key is rebuilt from its own timestamp and id |
| Text.SortKeys | backend/app/database.py:216-224 | query results come in strict sort-key order, every key exactly once |
| WorkspacesRouter.WorkspaceOut | backend/app/routers/workspaces.py:77-85 | the view defaults description "", functionCount 0, invocations24h 0 and errorRate 0, and shows createdAt in KST |
| WorkspacesRouter.CreatedWorkspaceView | backend/app/routers/workspaces.py:12-33 | a created workspace reads back with its name, its description or "", zero counters and a KST createdAt |
| WorkspacesRouter.WorkspaceViews | backend/app/routers/workspaces.py:42-53 | one view per item in order, or none when any item cannot be projected |
| WorkspacesRouter.CreateWorkspace | backend/app/routers/workspaces.py:12-33 | stores the workspace and returns its view |
| WorkspacesRouter.ListWorkspaces | backend/app/routers/workspaces.py:36-58 | the view of every workspace, or 500 LIST_ERROR when an item cannot be projected |
| WorkspacesRouter.GetWorkspace | backend/app/routers/workspaces.py:61-85 | 404 NOT_FOUND exactly when the workspace is missing; otherwise its view |
| WorkspacesRouter.UpdateWorkspace | backend/app/routers/workspaces.py:88-117 | 404 and no change for a missing workspace; otherwise only the given fields change |
| WorkspacesRouter.DeleteWorkspace | backend/app/routers/workspaces.py:120-138 | 404 and no change for a missing workspace; otherwise the cascade of the store (built on the corrected delete_function of Findings row 1), and nothing else changes |
| FunctionsRouter.FunctionOut | backend/app/routers/functions.py:124-149 | the view: lastDeployed None when absent or null, counters 0 when absent, description "" when absent |
| FunctionsRouter.CreateOut | backend/app/routers/functions.py:79-97 | the create response always has lastDeployed None |
| FunctionsRouter.FunctionViews | backend/app/routers/functions.py:124-149 | one view per stored item in store order, or none when any item cannot be projected |
| FunctionsRouter.CreatedFunctionView | backend/app/routers/functions.py:62-97 | the stored item projects onto exactly the documented create response |
| FunctionsRouter.CreatedIdentity | backend/app/routers/functions.py:62-97 | the created function carries its own id, workspace and name |
| FunctionsRouter.CreatedSettings | backend/app/routers/functions.py:62-97 | the created function carries the requested runtime, memory, timeout, methods and environment |
| FunctionsRouter.CreatedState | backend/app/routers/functions.py:62-97 | the created function is "active" with zero counters and no invocationUrl |
| FunctionsRouter.CreateFunction | backend/app/routers/functions.py:17-102 | checks in order, before any write: workspace exists (404), code is base64 (400 "code"), methods non-empty (400 "httpMethods"); then stores and counts the function and saves its code, a failure from there on being 500 CREATE_ERROR |
| FunctionsRouter.ListFunctions | backend/app/routers/functions.py:106-154 | 404 for a missing workspace; otherwise one view per stored function in sort-key order |
| FunctionsRouter.GetFunction | backend/app/routers/functions.py:160-197 | 404 exactly when the function is missing; otherwise its view |
| FunctionsRouter.PatchIsExact | backend/app/routers/functions.py:219-235 | the patch holds exactly one non-null entry per supplied field among the nine copied ones, and never invocationUrl |
| FunctionsRouter.UpdateSetsSuppliedFields | backend/app/routers/functions.py:219-256 | after the update every supplied field holds its new value, lastModified is set and every other attribute is unchanged |
| FunctionsRouter.PatchAccepted | backend/app/routers/functions.py:219-235 | the patch has distinct attribute names and names only copied fields |
| FunctionsRouter.FieldUpdates | backend/app/routers/functions.py:219-235 | the field-by-field statements build exactly the patch |
| FunctionsRouter.UpdateFunction | backend/app/routers/functions.py:203-280 | 404 and no write for a missing function; code that fails to decode or save gives 400 with no table write; otherwise the patch is applied |
| FunctionsRouter.DeleteFunction | backend/app/routers/functions.py:287-311 | 404 and no change for a missing function; otherwise the S3 object is deleted when reachable and the function is deleted either way, with all its logs (the corrected delete_function of Findings row 1) |
| LogsRouter.LogLimit | backend/app/routers/logs.py:14 | the limit defaults to 100 and is accepted exactly within 1..1000; otherwise 422 |
| LogsRouter.LogOut | backend/app/routers/logs.py:33-47 | the log view keeps id and timestamp; logs default to [] and level to "info" |
| LogsRouter.LogViews | backend/app/routers/logs.py:33-47 | one view per item in order, or none when any item cannot be projected |
| LogsRouter.CreatedLogView | backend/app/routers/logs.py:33-47 | a log written by create_log reads back as what was recorded, with the defaults filled in |
| LogsRouter.CreatedLogRecord | backend/app/routers/logs.py:33-47 | a recorded log reads back with its function, status, duration and status code |
| LogsRouter.CreatedLogText | backend/app/routers/logs.py:43-44 | a recorded log reads back with its log lines and level |
| LogsRouter.GetFunctionLogs | backend/app/routers/logs.py:13-54 | 422 for a bad limit, then 404 for a missing function; otherwise the newest logs with total equal to their number |
| Builds.CheckBuildUpload | backend/app/routers/builds.py:201-207 | accepts exactly a non-empty name ending in ".py" or ".zip"; a missing name and a bad extension each get their own 400 |
| Builds.CheckBuildAndPushUpload | backend/app/routers/builds.py:523-528 | accepts exactly the same names, with one 400 for both faults |
| Builds.UploadChecksAgree | backend/app/routers/builds.py:523-528 | both endpoints accept exactly the same file names |
| Builds.EffectiveTag | backend/app/routers/builds.py:539-541 | "sha256" becomes "task-"+task id; any other tag passes unchanged |
| Builds.EffectiveTagIdempotent | backend/app/routers/builds.py:539-541 | normalising the tag again changes nothing |
| Builds.NormalizeCredentials | backend/app/routers/builds.py:553-559 | "AWS" with no password or the dummy one becomes an empty pair; other pairs pass unchanged |
| Builds.NormalizeCredentialsIdempotent | backend/app/routers/builds.py:553-559 | normalised credentials never carry the default pair, and normalising again changes nothing |
| Builds.PushPassword | backend/app/routers/builds.py:126 | the push password is the given one, or the dummy one when it is empty; never empty |
| Builds.ImageUrl | backend/app/routers/builds.py:605-607 | result.image_url, else result.image_uri, else registry URL + ":" + tag when both are non-empty |
| Builds.Verdict | backend/app/routers/builds.py:586-634 | one poll ends the loop only on "completed"/"done" or "failed", or aborts on an HTTP failure or a null result; any other status keeps polling |
| Builds.Run | backend/app/routers/builds.py:586-644 | the loop stops within 120 polls, and a timeout means all 120 were made |
| Builds.RunTimesOutIff | backend/app/routers/builds.py:636-644 | the loop times out exactly when no poll has a verdict |
| Builds.RunStopsAtFirstVerdict | backend/app/routers/builds.py:586-634 | the first poll with a verdict decides the outcome, after exactly that many polls |
| Builds.RunIgnoresLaterReplies | backend/app/routers/builds.py:586-634 | replies after the deciding poll do not affect the outcome |
| Builds.PollBuilder | backend/app/routers/builds.py:65-94 | the loop with its attempt counter computes exactly the outcome and poll count of the run |
| Builds.RealBuildProcess | backend/app/routers/builds.py:37-104 | a failed submission ends the run without polling; otherwise the poll loop decides |
| Builds.RealPushProcess | backend/app/routers/builds.py:107-181 | posts the push request with the password defaulted, then polls as the loop decides |
| Builds.Writes | backend/app/routers/builds.py:600-644 | exactly one task write for every ending but an abort: "completed" on success, "failed" otherwise, with the timeout message on a timeout |
| Builds.BuildTaskStore.constructor | backend/app/routers/builds.py:213 | the task store starts with no tasks and no writes |
| Builds.BuildTaskStore.CreateBuildTask | backend/app/routers/builds.py:213 | appends one created task and writes nothing |
| Builds.BuildTaskStore.UpdateBuildTaskStatus | backend/app/routers/builds.py:610-616 | appends one status write and creates nothing |
| Builds.Build | backend/app/routers/builds.py:186-240 | a rejected upload creates no task; otherwise exactly one task is created and the answer is "pending" with the source path |
| Builds.PushToEcr | backend/app/routers/builds.py:329-364 | creates exactly one task and hands the push process the source path or "" |
| Builds.BuildAndPush | backend/app/routers/builds.py:501-661 | a rejected upload creates no task; otherwise one task and the effective tag |
| Builds.RunBuildAndPush | backend/app/routers/builds.py:562-649 | submits with normalised credentials; a failed submission writes nothing; otherwise exactly the writes of the run's outcome |
| Builds.ResultOf | backend/app/routers/builds.py:259-265 | a task carries a result exactly when its stored status is "completed" |
| Builds.GetTaskStatus | backend/app/routers/builds.py:245-278 | 404 exactly for a missing task; otherwise its status and error, with a result exactly when "completed" |
| Builds.TaskItemOf | backend/app/routers/builds.py:295-314 | one list entry per task, with timestamps defaulted to "" and a result exactly when "completed" |
| Builds.ListWorkspaceTasks | backend/app/routers/builds.py:283-324 | one entry per stored task in order, and count equals the number of entries |
| Builds.Scaffold | backend/app/routers/builds.py:369-413 | never raises; an unreachable builder or a status outside 2xx (raise_for_status, redirects included) is the HTTP-error failure response; success defaults to true |
| Builds.DeployResult | backend/app/routers/builds.py:477-496 | service_status defaults to "pending"; a null one fails validation with a 500 |
| Builds.DeployToK8s | backend/app/routers/builds.py:418-496 | posts the request's fields unchanged, at most twice; the second post happens only after a first answer below 400 without an endpoint but with an app name, and differs only in that app name; a first answer of 400 or more (the route's own test) or an unreachable builder on either post is the uncaught 500, a second answer outside 2xx (raise_for_status) the "HTTP error" 500; success is the response built from the last answer |
| Builds.HttpErrorHandlerAsWritten | backend/app/routers/builds.py:488-493 | the "HTTP error" 500 exactly for the error that carries a response (a second answer outside 2xx); every other httpx error is the uncaught 500 |
| Builds.HttpErrorHandler | backend/app/routers/builds.py:488-493 | corrected handler: every httpx error is the "HTTP error" 500, agreeing with the handler as written whenever the error carries a response |
| Builds.RejectedFirstPostIsUncaught | backend/app/routers/builds.py:455-456 | a rejected first post reaches the handler without a response and becomes the uncaught 500, unlike the corrected handler |
| Builds.HandlersDifferWithoutResponse | backend/app/routers/builds.py:488-493 | the two handlers agree exactly on the errors that carry a response |
| Lists.Filter | frontend/src/pages/FunctionsList.tsx:29 | `filter` keeps exactly the elements that satisfy the condition, each as often as it occurs, as an order-preserving sublist |
| Lists.FilterEmptyIff | frontend/src/pages/FunctionsList.tsx:78-89 | a filter keeps nothing exactly when no element satisfies it |
| Lists.FindIndex | frontend/src/pages/WorkspaceDashboard.tsx:20 | `find` stops at the first element that satisfies the condition, and finds nothing exactly when none does |
| Lists.Take | frontend/src/pages/WorkspaceDashboard.tsx:45 | `slice(0, n)`: the first n elements, or all when there are fewer |
| Lists.SumOfBounds | frontend/src/pages/WorkspaceDashboard.tsx:33-34 | a sum of terms within [lo, hi] lies within [n*lo, n*hi] |
| Lists.SumOfMonotone | frontend/src/pages/WorkspaceDashboard.tsx:33-34 | summing term by term preserves the order of the terms |
| AppContext.Without | frontend/src/contexts/AppContext.tsx:260 | exactly the entries with another id, each as often as it occurs, in order |
| AppContext.WorkspacePatch | frontend/src/contexts/AppContext.tsx:155-157 | name and description are sent exactly when truthy, so empty strings are dropped |
| AppContext.ReplaceOnlyMatching | frontend/src/contexts/AppContext.tsx:248 | replacing by id changes only the entries with that id, each to the new record; replacing again changes nothing |
| AppContext.ReplaceAbsent | frontend/src/contexts/AppContext.tsx:248 | replacing an id nobody has changes nothing |
| AppContext.DeleteUndoesCreate | frontend/src/contexts/AppContext.tsx:260 | deleting a just-appended function under a fresh id restores the list |
| AppContext.DecrementUndoesIncrement | frontend/src/contexts/AppContext.tsx:262-264 | the decrement undoes the increment while counts are not negative |
| AppContext.CountUpdates | frontend/src/contexts/AppContext.tsx:214-216 | the count updates touch only the workspace with that id, by one, never below 0 on decrement, and keep counts non-negative |
| AppContext.NameAndStatusNeverSent | frontend/src/contexts/AppContext.tsx:229-235 | the patch is the same whatever name and status the changes carry |
| AppContext.FunctionPatchFields | frontend/src/contexts/AppContext.tsx:229-235 | each of description, memory, timeout, methods, environment and code is sent exactly when defined |
| AppContext.AppState.constructor | frontend/src/contexts/AppContext.tsx:89-92 | the cache starts empty with no workspace selected |
| AppContext.AppState.LoadWorkspaces | frontend/src/contexts/AppContext.tsx:106-118 | the listed workspaces replace the cache; a failed request keeps it |
| AppContext.AppState.LoadFunctions | frontend/src/contexts/AppContext.tsx:120-135 | the listed functions replace the cache; a failed request keeps it |
| AppContext.AppState.SelectWorkspace | frontend/src/contexts/AppContext.tsx:98-104 | a change of selection loads that workspace's functions, clearing it empties them; setting the same id again changes nothing |
| AppContext.AppState.CreateWorkspace | frontend/src/contexts/AppContext.tsx:137-151 | sends the name and the description or ''; appends the returned workspace; a failure changes nothing |
| AppContext.AppState.UpdateWorkspace | frontend/src/contexts/AppContext.tsx:153-171 | sends only the truthy fields and replaces only the matching workspace |
| AppContext.AppState.DeleteWorkspace | frontend/src/contexts/AppContext.tsx:173-184 | removes the workspace; clears the selection and the functions exactly when it was the selected one |
| AppContext.AppState.CreateFunction | frontend/src/contexts/AppContext.tsx:186-223 | throws before any request without a selection; otherwise appends exactly the returned function and increments only the selected workspace's count |
| AppContext.AppState.UpdateFunction | frontend/src/contexts/AppContext.tsx:225-253 | throws before any request without a selection; otherwise sends the patch and replaces only the entry with that id |
| AppContext.AppState.DeleteFunction | frontend/src/contexts/AppContext.tsx:255-269 | throws before any request without a selection; otherwise removes the entries with that id and decrements the selected workspace's count, never below 0 |
| AppContext.AppState.InvokeFunction | frontend/src/contexts/AppContext.tsx:271-290 | throws without a selection, then 'Function not found' for an unknown id; otherwise prepends the new log |
| AppContext.AppState.GetFunctionLogs | frontend/src/contexts/AppContext.tsx:292-307 | [] without a request when nothing is selected; otherwise the fetched logs replace the cached ones |
| Text.TrimEmptyIffBlank | frontend/src/pages/NewFunction.tsx:86-89 | a trimmed name is empty exactly when it is all whitespace |
| NewFunction.Toggle | frontend/src/pages/NewFunction.tsx:63-69 | a present method is removed; an absent one is appended at the end; other methods keep their membership |
| NewFunction.ToggleTwice | frontend/src/pages/NewFunction.tsx:63-69 | toggling twice restores membership, and restores the list when the method was absent |
| NewFunction.RemoveAt | frontend/src/pages/NewFunction.tsx:75-77 | drops exactly the row at the index, keeping the others in order |
| NewFunction.RemoveUndoesAdd | frontend/src/pages/NewFunction.tsx:71-77 | removing the row just added restores the rows |
| NewFunction.SetFieldOnly | frontend/src/pages/NewFunction.tsx:79-83 | changes one field of the row at the index; every other row and the other field are unchanged |
| NewFunction.EnvMapKeys | frontend/src/pages/NewFunction.tsx:96-101 | a key is in the map exactly when some row has it untrimmed and it is not blank |
| NewFunction.EnvMapLastWins | frontend/src/pages/NewFunction.tsx:96-101 | the value under a key comes from the last row with that key |
| NewFunction.BuildEnvironment | frontend/src/pages/NewFunction.tsx:96-101 | the accumulating loop builds exactly the env map |
| NewFunction.ParseIntDecimal | frontend/src/pages/NewFunction.tsx:108-109 | parseInt reads back a decimal number, ignoring what follows it |
| NewFunction.NavigationTarget | frontend/src/pages/NewFunction.tsx:117 | the target is the new function's page under the workspace and ends in its id |
| NewFunction.NavigationTargetDistinguishes | frontend/src/pages/NewFunction.tsx:117 | functions with different ids get different pages |
| NewFunction.NavigationAsWrittenMissesFunction | frontend/src/pages/NewFunction.tsx:103-117 | as written, the target is never the page of a created function whose id is not "undefined" |
| NewFunction.NewFunctionForm.constructor | frontend/src/pages/NewFunction.tsx:55-61 | the form starts with memory "256", timeout "30", methods GET and POST and no env rows |
| NewFunction.NewFunctionForm.MethodToggle | frontend/src/pages/NewFunction.tsx:63-69 | the methods are toggled and nothing else changes |
| NewFunction.NewFunctionForm.AddEnvVar | frontend/src/pages/NewFunction.tsx:71-73 | one blank row is appended and nothing else changes |
| NewFunction.NewFunctionForm.RemoveEnvVar | frontend/src/pages/NewFunction.tsx:75-77 | the row at the index is dropped and nothing else changes |
| NewFunction.NewFunctionForm.EnvVarChange | frontend/src/pages/NewFunction.tsx:79-83 | one field of one row changes and nothing else |
| NewFunction.NewFunctionForm.Submit | frontend/src/pages/NewFunction.tsx:85-118 | refused without calling createFunction for a blank name or no method; otherwise createFunction gets the form's draft, unawaited: the page goes to ".../functions/undefined" whatever the reply; the result is createFunction's (no workspace selected, the created function, or the failed request), and only a created function is appended to the cache and counted in the selected workspace; the selection and the logs never change |
| FunctionsList.WorkspaceFunctions | frontend/src/pages/FunctionsList.tsx:29 | exactly the cached functions of the route workspace, each as often as it is cached, in order |
| FunctionsList.FilteredFunctions | frontend/src/pages/FunctionsList.tsx:31-34 | an order-preserving sublist of the workspace's functions holding exactly the matching ones, each as often as it is cached |
| FunctionsList.EmptyQueryMatchesAll | frontend/src/pages/FunctionsList.tsx:31-34 | an empty query keeps every function of the workspace |
| FunctionsList.SearchIgnoresQueryCase | frontend/src/pages/FunctionsList.tsx:31-34 | the query's case does not change the rows |
| FunctionsList.NameOccurrenceMatches | frontend/src/pages/FunctionsList.tsx:31-34 | a name containing the query, in any case, matches |
| FunctionsList.MatchHasOccurrence | frontend/src/pages/FunctionsList.tsx:31-34 | conversely, a match has an occurrence of the lower-cased query in the lower-cased name or description |
| FunctionsList.ToggledStatus | frontend/src/pages/FunctionsList.tsx:44 | 'disabled' exactly for 'active', 'active' for every other status |
| FunctionsList.ToggleStatusTwice | frontend/src/pages/FunctionsList.tsx:44 | between the two statuses, toggling twice is the identity |
| FunctionsList.View | frontend/src/pages/FunctionsList.tsx:78-89 | the empty state, the no-match message or the filtered rows |
| FunctionsList.ViewStates | frontend/src/pages/FunctionsList.tsx:78-89 | empty state exactly when the workspace has no functions; no-match exactly when it has some and none matches |
| FunctionsList.ToggleStatus | frontend/src/pages/FunctionsList.tsx:43-48 | requests the toggled status, but the request updateFunction makes carries an empty patch; the cached function is replaced by the reply, and nothing changes without a selection or on a failed request; workspaces, logs and selection never change |
| FunctionsList.DeleteFunction | frontend/src/pages/FunctionsList.tsx:36-41 | deletes only after confirmation and with a selection; a successful delete drops the function from the cache and decrements the selected workspace's count; otherwise functions and workspaces are unchanged; logs and selection never change |
| WorkspaceDashboard.RecentLogs | frontend/src/pages/WorkspaceDashboard.tsx:40-45 | the first min(10, n) of the n cached logs whose function (the first cached one with that id) belongs to the workspace, in cache order |
| WorkspaceDashboard.ErrorRate | frontend/src/pages/WorkspaceDashboard.tsx:35 | 0 without invocations; otherwise errors per invocation in percent |
| WorkspaceDashboard.AverageDuration | frontend/src/pages/WorkspaceDashboard.tsx:36-38 | 0 without functions; otherwise the mean rounded half up |
| WorkspaceDashboard.View | frontend/src/pages/WorkspaceDashboard.tsx:20-45 | not found exactly when no cached workspace has the id; otherwise that workspace, its functions, their totals and its recent logs |
| WorkspaceDashboard.TotalsIgnoreOtherWorkspaces | frontend/src/pages/WorkspaceDashboard.tsx:33-34 | a function of another workspace changes neither the functions shown nor the totals |
| WorkspaceDashboard.ErrorRateIsPercentage | frontend/src/pages/WorkspaceDashboard.tsx:35 | with errors between 0 and invocations, the error rate lies within 0..100 |
| WorkspaceDashboard.AverageWithinBounds | frontend/src/pages/WorkspaceDashboard.tsx:36-38 | the rounded average lies between the smallest and the largest per-function average |

## Left out

- Database.RemoveFunction: the corrected removal (every log of the function). The source's delete_function removes only the newest 100 logs (Findings row 1); that behaviour is Database.RemoveFunctionLogs with Database.DynamoDBClient.DeleteFunctionAsWritten.
- Database.DynamoDBClient.DeleteListedFunctions: calls the corrected delete_function of Findings row 1, so a function with more than 100 logs loses all of them; the source's loop leaves all but the newest 100 in the table.
- Database.CascadeComplete: describes the cascade of the corrected delete_function of Findings row 1; with more than 100 logs per function the source does not reach this state.
- Database.DynamoDBClient.DeleteWorkspace: built on the corrected delete_function of Findings row 1; the source keeps all but the newest 100 logs of each function.
- WorkspacesRouter.DeleteWorkspace: inherits the all-logs cascade of Database.DynamoDBClient.DeleteWorkspace; the source keeps all but the newest 100 logs of each function.
- FunctionsRouter.DeleteFunction: built on the corrected delete_function of Findings row 1, so it promises that no log of the function remains; the source keeps all but the newest 100.
- AppContext.AppState.SelectWorkspace: each selection's load is modelled as finishing before the next call; two loads whose replies arrive out of order (the older reply winning) are not modelled.
- Database.WorkspaceSets: DynamoDB reserved words are not modelled. NAME is one, and update_workspace passes no ExpressionAttributeNames, so DynamoDB rejects a rename that the model shows succeeding.
- Database.DynamoDBClient.UpdateWorkspace: the same reserved-word gap: a request that sets name is rejected by DynamoDB in the source, and succeeds in the model.
- WorkspacesRouter.UpdateWorkspace: the same reserved-word gap: renaming a workspace fails in the source and succeeds in the model.
- Database.DynamoDBClient.UpdateFunction: DynamoDB reserved words are not modelled. update_function writes `name = :name` and `status = :status` without ExpressionAttributeNames, and NAME and STATUS are reserved, so an update that sets either is rejected in the source and succeeds in the model.
- FunctionsRouter.UpdateSetsSuppliedFields: the same reserved-word gap: an update carrying name or status fails in the source and succeeds in the model.
- FunctionsRouter.UpdateFunction: for a request carrying name or status the source's update_item is rejected (reserved words, as above) with a 500 and no table write, after save_code (functions.py:240) has already replaced the S3 object when code was given; the model applies the patch and saves the code.
- Network and async plumbing: httpx calls, `asyncio.sleep`, `BackgroundTasks` and the FastAPI decorators. Builder, deploy and scaffold replies are parameters, and sleeps are counted.
- Exception message texts: errors are modelled by status and error code. The build error codes stand for the detail strings the source writes out.
- boto3 internals: the 1 MB page size of scan and query (a scan or query returns every matching item), and errors other than a missing counter or a bad limit. S3 failures are modelled only as an unreachable bucket.
- base64 and UTF-8 are a `Codec` parameter with the two laws the model uses. `shortuuid` ids and `datetime.utcnow()` are parameters.
- Timestamps are whole seconds; microseconds are not modelled. A stored timestamp keeps its ISO text (used in log sort keys) together with the datetime it was written from, and reading it back (`fromisoformat`, pydantic) yields that datetime: the parsing of ISO text is not modelled.
- `requestBody` and `responseBody` of execution logs are not modelled.
- Build-task storage: create_build_task, update_build_task_status, get_build_task_by_id, list_build_tasks and save_build_source are called by builds.py but are not part of this model. `BuildTaskStore` records the calls made to them, and stored tasks are parameters.
- A builder reply whose JSON does not parse is an abort, the same as an HTTP failure.
- backend/app/routers/metrics.py, backend/app/main.py and backend/app/config.py are not part of this model.
- Floating point: error rates are exact reals, without `toFixed(2)`. avgDuration and an execution log's duration (a float in models.py:99, read back at logs.py:39) are integer numbers of milliseconds, in the backend and in the frontend alike. The backend's errorRate is an integer field, and the frontend Workspace's errorRate is not modelled.
- The frontend API layer (frontend/src/lib/api.ts) is not part of this model. Replies are records already mapped (decodeBase64, `new Date`, `description || ''`), and `encodeBase64` is a parameter.
- Lower-casing and trimming are ASCII only.
- NewFunction.ParseIntDecimal: parseInt is modelled for decimal text; the "0x" hexadecimal prefix is not modelled.
- DEFAULT_CODE is a parameter of the form's constructor.
- The status 'active' that NewFunction passes to createFunction is not modelled, because createFunction's parameter type has no status.
- createFunction files the function under the selected workspace, not under the route's workspace; the model follows that code.
- Toasts, i18n, routing and rendering are not modelled. getLokiLogs and getPrometheusMetrics are not part of this model.

## Findings

| source | as written | input that shows it | evidently intended | confidence | as-written member | corrected member |
|---|---|---|---|---|---|---|
| backend/app/database.py:176 | delete_function deletes the logs that `list_logs(function_id)` returns, and list_logs has a default limit of 100; delete_workspace (database.py:91-92) and the delete route (functions.py:309) inherit this | a function with 101 logs: one log stays in the table after the function is gone | every log of the function is deleted; the model's DeleteListedFunctions, CascadeComplete, DeleteWorkspace and FunctionsRouter.DeleteFunction are built on the corrected delete | not executed | Database.DynamoDBClient.DeleteFunctionAsWritten | Database.DynamoDBClient.DeleteFunction |
| backend/app/routers/builds.py:490 | the `except httpx.HTTPError` handler reads `e.response`, which only an HTTPStatusError has; the bare HTTPError raised at builds.py:456 and an httpx.RequestError have none, so the read raises AttributeError out of the handler | the builder answers the first deploy post with 400, or cannot be reached: the client gets FastAPI's bare 500 instead of the "HTTP error" 500 | every httpx error is reported as the "HTTP error" 500, its response logged when there is one | not executed | Builds.HttpErrorHandlerAsWritten (used by Builds.DeployToK8s) | Builds.HttpErrorHandler |
| frontend/src/pages/NewFunction.tsx:103-117 | handleSubmit does not await `createFunction`, so `fn` is a Promise and `fn.id` is undefined; the success toast and the navigation happen even when the request fails | a function created with id "f1": the page goes to ".../functions/undefined" | navigate to the created function's page | not executed | NewFunction.NavigationAsWrittenMissesFunction | NewFunction.NavigationTargetDistinguishes |
