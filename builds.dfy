/** Model of backend/app/routers/builds.py: upload checks, tag and credential normalisation, the
    builder poll loops, the task views, scaffold and the deploy retry. The builder service is a
    scripted input: `reply(i)` is its answer to the i-th status poll, and each 5-second sleep
    is counted instead of timed. The build-task store is known only through the writes the
    router makes to it. */
module Builds {
  import opened Wrappers
  import opened Text
  import opened Models

  // ---- errors the endpoints raise ----

  const NoFilename: ApiError := ApiError(400, "NO_FILENAME", None)
  const UnsupportedFile: ApiError := ApiError(400, "UNSUPPORTED_FILE_TYPE", None)
  const TaskNotFound: ApiError := ApiError(404, "TASK_NOT_FOUND", None)
  /** deploy_to_k8s's answer to an HTTP failure talking to the builder. */
  const DeployHttpError: ApiError := ApiError(500, "HTTP_ERROR", None)

  // ---- upload validation ----

  /** An upload the build endpoints accept: a non-empty name ending in ".py" or ".zip". */
  predicate AcceptedUpload(filename: string) {
    filename != "" && (EndsWith(filename, ".py") || EndsWith(filename, ".zip"))
  }

  /** build's two checks: a missing name and an unsupported extension each have their own 400. */
  function CheckBuildUpload(filename: string): (r: Option<ApiError>)
    ensures r.None? <==> AcceptedUpload(filename)
    ensures r == Some(NoFilename) <==> filename == ""
    ensures r.Some? ==> r.value.status == 400
  {
    if filename == "" then Some(NoFilename)
    else if !(EndsWith(filename, ".py") || EndsWith(filename, ".zip")) then Some(UnsupportedFile)
    else None
  }

  /** build_and_push's single check: one 400 for both faults. */
  function CheckBuildAndPushUpload(filename: string): (r: Option<ApiError>)
    ensures r.None? <==> AcceptedUpload(filename)
    ensures r.Some? ==> r == Some(UnsupportedFile)
  {
    if filename == "" || !(EndsWith(filename, ".py") || EndsWith(filename, ".zip")) then Some(UnsupportedFile) else None
  }

  /** Both endpoints accept exactly the same file names. */
  lemma UploadChecksAgree(filename: string)
    ensures CheckBuildUpload(filename).None? <==> CheckBuildAndPushUpload(filename).None?
  {
  }

  // ---- tag and credential normalisation ----

  /** The tag build_and_push sends: the default "sha256" becomes "task-" + the task id. */
  function EffectiveTag(tag: string, taskId: string): (r: string)
    ensures tag != DefaultTag ==> r == tag
    ensures tag == DefaultTag ==> r == "task-" + taskId && r != DefaultTag
  {
    if tag == DefaultTag then
      assert ("task-" + taskId)[0] != DefaultTag[0];
      "task-" + taskId
    else tag
  }

  /** Normalising a tag twice is normalising it once: an effective tag is never "sha256". */
  lemma EffectiveTagIdempotent(tag: string, taskId: string)
    ensures EffectiveTag(EffectiveTag(tag, taskId), taskId) == EffectiveTag(tag, taskId)
  {
  }

  /** The credentials build_and_push sends: user "AWS" with no password or the dummy password
      means "use the builder's own role", sent as an empty user and password. */
  function NormalizeCredentials(username: string, password: Option<string>): (r: (string, Option<string>))
    ensures (username == DefaultUsername && (password.None? || password == Some(DefaultPassword))) ==> r == ("", Some(""))
    ensures !(username == DefaultUsername && (password.None? || password == Some(DefaultPassword))) ==> r == (username, password)
  {
    if username == DefaultUsername && (password.None? || password.value == DefaultPassword) then ("", Some(""))
    else (username, password)
  }

  /** Normalised credentials never carry the default pair, and normalising again changes nothing. */
  lemma NormalizeCredentialsIdempotent(username: string, password: Option<string>)
    ensures var r := NormalizeCredentials(username, password);
      && !(r.0 == DefaultUsername && (r.1.None? || r.1 == Some(DefaultPassword)))
      && NormalizeCredentials(r.0, r.1) == r
  {
  }

  /** The password the push process sends: `password or "dummy-password"`, never empty. */
  function PushPassword(password: string): (r: string)
    ensures r != ""
    ensures password != "" ==> r == password
  {
    if password == "" then DefaultPassword else password
  }

  // ---- the builder's status replies ----

  /** The `result` object of a builder status reply. */
  datatype BuilderResult = BuilderResult(wasmPath: Option<string>, imageUrl: Option<string>, imageUri: Option<string>)

  /** One status poll: an HTTP failure (no answer, or a status outside 2xx, which
      raise_for_status turns into an error), or the JSON body with its status, result and error. */
  datatype StatusReply =
    | Unreachable
    | StatusReply(status: Option<string>, result: Field<BuilderResult>, error: Field<string>)

  /** Python truthiness of an optional string. */
  predicate Truthy(s: Option<string>) {
    s.Some? && s.value != ""
  }

  predicate IsCompleted(status: Option<string>) {
    status == Some("completed") || status == Some("done")
  }

  /** The image URL build_and_push stores: result.image_url, else result.image_uri, else
      registry_url + ":" + tag when both of those are non-empty. */
  function ImageUrl(res: BuilderResult, registryUrl: string, tag: string): (r: Option<string>)
    ensures Truthy(res.imageUrl) ==> r == res.imageUrl
    ensures !Truthy(res.imageUrl) && Truthy(res.imageUri) ==> r == res.imageUri
    ensures !Truthy(res.imageUrl) && !Truthy(res.imageUri) && registryUrl != "" && tag != "" ==> r == Some(registryUrl + ":" + tag)
    ensures !Truthy(res.imageUrl) && !Truthy(res.imageUri) && (registryUrl == "" || tag == "") ==> r == res.imageUri
    ensures registryUrl != "" && tag != "" ==> Truthy(r)
  {
    var url := if Truthy(res.imageUrl) then res.imageUrl else res.imageUri;
    if !Truthy(url) && registryUrl != "" && tag != "" then Some(registryUrl + ":" + tag) else url
  }

  /** Which of the three poll loops runs: they differ in what a success reports and in their
      messages. */
  datatype Job = BuildJob | PushJob | BuildAndPushJob(registryUrl: string, tag: string)

  function FailureDefault(job: Job): string {
    match job
    case BuildJob => "Build failed"
    case PushJob => "Push failed"
    case BuildAndPushJob(_, _) => "Build-and-push failed"
  }

  function TimeoutMessage(job: Job): string {
    match job
    case BuildJob => "Build timeout (10 minutes exceeded)"
    case PushJob => "Push timeout (10 minutes exceeded)"
    case BuildAndPushJob(_, _) => "Build-and-push timeout (10 minutes exceeded)"
  }

  /** How a poll loop ends: success with the paths it reports, failure with the builder's error,
      timeout, or an exception that ends the background run. */
  datatype Outcome = Succeeded(wasmPath: Option<string>, imageUrl: Option<string>) | Failed(error: Option<string>) | TimedOut | Aborted

  /** What one poll decides: None to keep polling. A null result on success makes `result.get`
      raise, which ends the run like an HTTP error. */
  function Verdict(job: Job, reply: StatusReply): (r: Option<Outcome>)
    ensures r.Some? ==> !r.value.TimedOut?
    ensures reply.StatusReply? && !IsCompleted(reply.status) && reply.status != Some("failed") ==> r.None?
    ensures r == Some(Aborted) <==> reply.Unreachable? || (IsCompleted(reply.status) && reply.result.Null?)
  {
    match reply
    case Unreachable => Some(Aborted)
    case StatusReply(status, result, error) =>
      if IsCompleted(status) then
        match result
        case Null => Some(Aborted)
        case Absent => Some(Success(job, BuilderResult(None, None, None)))
        case Given(res) => Some(Success(job, res))
      else if status == Some("failed") then
        Some(Failed(match error case Absent => Some(FailureDefault(job)) case Null => None case Given(e) => Some(e)))
      else None
  }

  /** What a successful poll reports: build logs the wasm path, push the image URL with no
      registry fallback, build_and_push both with the fallback. */
  function Success(job: Job, res: BuilderResult): Outcome {
    match job
    case BuildJob => Succeeded(res.wasmPath, None)
    case PushJob => Succeeded(None, if Truthy(res.imageUrl) then res.imageUrl else res.imageUri)
    case BuildAndPushJob(registryUrl, tag) => Succeeded(res.wasmPath, ImageUrl(res, registryUrl, tag))
  }

  const MaxAttempts: nat := 120

  /** The poll loop from attempt i on: the first attempt with a verdict ends it, and running out
      of attempts is a timeout. Returns the outcome and the number of polls (and sleeps) made. */
  function Run(job: Job, reply: nat -> StatusReply, i: nat): (r: (Outcome, nat))
    requires i <= MaxAttempts
    ensures i <= r.1 <= MaxAttempts
    ensures r.0.TimedOut? ==> r.1 == MaxAttempts
    decreases MaxAttempts - i
  {
    if i == MaxAttempts then (TimedOut, MaxAttempts)
    else
      match Verdict(job, reply(i))
      case Some(o) => (o, i + 1)
      case None => Run(job, reply, i + 1)
  }

  /** The loop times out exactly when no poll from i on has a verdict. */
  lemma {:induction false} RunTimesOutIff(job: Job, reply: nat -> StatusReply, i: nat)
    requires i <= MaxAttempts
    decreases MaxAttempts - i
    ensures Run(job, reply, i).0.TimedOut? <==> forall k :: i <= k < MaxAttempts ==> Verdict(job, reply(k)).None?
  {
    if i < MaxAttempts {
      RunTimesOutIff(job, reply, i + 1);
    }
  }

  /** The first poll with a verdict decides the outcome, after exactly that many polls. */
  lemma {:induction false} RunStopsAtFirstVerdict(job: Job, reply: nat -> StatusReply, i: nat, j: nat)
    requires i <= j < MaxAttempts
    decreases MaxAttempts - i
    requires Verdict(job, reply(j)).Some?
    requires forall k :: i <= k < j ==> Verdict(job, reply(k)).None?
    ensures Run(job, reply, i) == (Verdict(job, reply(j)).value, j + 1)
  {
    if i < j {
      RunStopsAtFirstVerdict(job, reply, i + 1, j);
    }
  }

  /** Polls that keep the loop going do not affect the outcome: only the first verdict counts. */
  lemma {:induction false} RunIgnoresLaterReplies(job: Job, reply: nat -> StatusReply, other: nat -> StatusReply, i: nat)
    requires i <= MaxAttempts
    decreases MaxAttempts - i
    requires forall k :: i <= k < Run(job, reply, i).1 ==> other(k) == reply(k)
    ensures Run(job, other, i) == Run(job, reply, i)
  {
    if i < MaxAttempts && Verdict(job, reply(i)).None? {
      RunIgnoresLaterReplies(job, reply, other, i + 1);
    }
  }

  /** The poll loop of _real_build_process and _real_push_process: they only log the outcome. */
  method PollBuilder(job: Job, reply: nat -> StatusReply) returns (o: Outcome, sleeps: nat)
    ensures (o, sleeps) == Run(job, reply, 0)
  {
    sleeps := 0;
    var attempt := 0;
    while attempt < MaxAttempts
      invariant 0 <= attempt <= MaxAttempts
      invariant sleeps == attempt
      invariant Run(job, reply, attempt) == Run(job, reply, 0)
    {
      sleeps := sleeps + 1;
      var verdict := Verdict(job, reply(attempt));
      if verdict.Some? {
        return verdict.value, sleeps;
      }
      attempt := attempt + 1;
    }
    o := TimedOut;
  }

  /** _real_build_process: submit the upload, then poll; an HTTP failure on submission ends the
      run before any poll. */
  method RealBuildProcess(submitted: bool, reply: nat -> StatusReply) returns (o: Outcome, sleeps: nat)
    ensures !submitted ==> o == Aborted && sleeps == 0
    ensures submitted ==> (o, sleeps) == Run(BuildJob, reply, 0)
  {
    if !submitted {
      return Aborted, 0;
    }
    o, sleeps := PollBuilder(BuildJob, reply);
  }

  /** What _real_push_process posts to the builder's push API. */
  datatype PushSubmission = PushSubmission(
    registryUrl: string, username: string, password: string, tag: string, workspaceId: string, s3SourcePath: string)

  /** _real_push_process: post the push request (the password defaulting to the dummy one),
      then poll. */
  method RealPushProcess(ws: string, registryUrl: string, username: string, password: string, tag: string,
                         s3SourcePath: string, submitted: bool, reply: nat -> StatusReply)
    returns (sent: PushSubmission, o: Outcome, sleeps: nat)
    ensures sent == PushSubmission(registryUrl, username, PushPassword(password), tag, ws, s3SourcePath)
    ensures !submitted ==> o == Aborted && sleeps == 0
    ensures submitted ==> (o, sleeps) == Run(PushJob, reply, 0)
  {
    sent := PushSubmission(registryUrl, username, PushPassword(password), tag, ws, s3SourcePath);
    if !submitted {
      return sent, Aborted, 0;
    }
    o, sleeps := PollBuilder(PushJob, reply);
  }

  // ---- the build-task store ----

  /** A call to update_build_task_status. */
  datatype TaskWrite = TaskWrite(
    workspaceId: string, taskId: string, status: string, wasmPath: Option<string>,
    imageUrl: Option<string>, errorMessage: Option<string>)

  /** The writes build_and_push makes for an outcome: one for every ending but an exception. */
  function Writes(ws: string, taskId: string, job: Job, o: Outcome): (r: seq<TaskWrite>)
    ensures |r| <= 1
    ensures |r| == 1 <==> !o.Aborted?
    ensures |r| == 1 ==> r[0].workspaceId == ws && r[0].taskId == taskId
    ensures |r| == 1 ==> (r[0].status == "completed" <==> o.Succeeded?)
    ensures |r| == 1 && !o.Succeeded? ==> r[0].status == "failed"
    ensures o.TimedOut? ==> r[0].errorMessage == Some(TimeoutMessage(job))
  {
    match o
    case Succeeded(wasm, image) => [TaskWrite(ws, taskId, "completed", wasm, image, None)]
    case Failed(error) => [TaskWrite(ws, taskId, "failed", None, None, error)]
    case TimedOut => [TaskWrite(ws, taskId, "failed", None, None, Some(TimeoutMessage(job)))]
    case Aborted => []
  }

  /** The build-task table as far as the router uses it: the tasks it creates and the status
      updates it makes, in order. */
  class BuildTaskStore {
    var created: seq<(string, string)>
    var writes: seq<TaskWrite>

    constructor()
      ensures created == [] && writes == []
    {
      created := [];
      writes := [];
    }

    method CreateBuildTask(ws: string, taskId: string)
      modifies this
      ensures created == old(created) + [(ws, taskId)]
      ensures writes == old(writes)
    {
      created := created + [(ws, taskId)];
    }

    method UpdateBuildTaskStatus(w: TaskWrite)
      modifies this
      ensures writes == old(writes) + [w]
      ensures created == old(created)
    {
      writes := writes + [w];
    }
  }

  /** The 202 answer of build, push and build_and_push. */
  datatype BuildResponse = BuildResponse(taskId: string, status: string, message: string, sourceS3Path: Option<string>)

  /** build: check the upload, create the task, and answer "pending" with the S3 source path.
      A rejected upload creates nothing. */
  method Build(store: BuildTaskStore, filename: string, ws: string, taskId: string, s3Path: string)
    returns (r: Result<BuildResponse, ApiError>)
    modifies store
    ensures store.writes == old(store.writes)
    ensures !AcceptedUpload(filename) ==> r == Err(CheckBuildUpload(filename).value) && store.created == old(store.created)
    ensures AcceptedUpload(filename) ==>
      r == Ok(BuildResponse(taskId, "pending", "Build task created", Some(s3Path)))
      && store.created == old(store.created) + [(ws, taskId)]
  {
    var rejected := CheckBuildUpload(filename);
    if rejected.Some? {
      return Err(rejected.value);
    }
    store.CreateBuildTask(ws, taskId);
    r := Ok(BuildResponse(taskId, "pending", "Build task created", Some(s3Path)));
  }

  /** push_to_ecr: create the task and hand the push process its arguments, the S3 path
      defaulting to "". */
  method PushToEcr(store: BuildTaskStore, req: PushRequest, taskId: string)
    returns (r: BuildResponse, s3SourcePath: string)
    modifies store
    ensures store.created == old(store.created) + [(req.workspaceId, taskId)] && store.writes == old(store.writes)
    ensures r == BuildResponse(taskId, "pending", "Push task created", None)
    ensures s3SourcePath == req.s3SourcePath.GetOr("")
  {
    store.CreateBuildTask(req.workspaceId, taskId);
    s3SourcePath := if req.s3SourcePath.Some? then req.s3SourcePath.value else "";
    r := BuildResponse(taskId, "pending", "Push task created", None);
  }

  /** build_and_push: check the upload, create the task, fix the effective tag and answer
      "pending"; the background run gets the effective tag. A rejected upload creates nothing. */
  method BuildAndPush(store: BuildTaskStore, filename: string, ws: string, tag: string, taskId: string, s3Path: string)
    returns (r: Result<BuildResponse, ApiError>, effectiveTag: string)
    modifies store
    ensures store.writes == old(store.writes)
    ensures !AcceptedUpload(filename) ==> r == Err(UnsupportedFile) && store.created == old(store.created)
    ensures AcceptedUpload(filename) ==>
      r == Ok(BuildResponse(taskId, "pending", "Build and push task created", Some(s3Path)))
      && store.created == old(store.created) + [(ws, taskId)]
      && effectiveTag == EffectiveTag(tag, taskId)
  {
    effectiveTag := tag;
    var rejected := CheckBuildAndPushUpload(filename);
    if rejected.Some? {
      return Err(rejected.value), effectiveTag;
    }
    store.CreateBuildTask(ws, taskId);
    if tag == DefaultTag {
      effectiveTag := "task-" + taskId;
    }
    r := Ok(BuildResponse(taskId, "pending", "Build and push task created", Some(s3Path)));
  }

  /** The form build_and_push's background run posts to the builder. */
  datatype Submission = Submission(
    registryUrl: string, username: string, workspaceId: string, tag: string, appName: string, password: Option<string>)

  /** _build_and_push_wrapper: submit with normalised credentials, then poll at most 120 times.
      The first completed/done reply writes "completed" with the image URL, the first failed
      reply writes "failed" with the builder's error; any other status writes nothing; running
      out of polls writes the timeout. An HTTP failure or a null result ends the run with no
      write. So exactly one write follows unless the run aborts, and none precedes the verdict. */
  method RunBuildAndPush(store: BuildTaskStore, ws: string, taskId: string, registryUrl: string,
                         username: string, password: Option<string>, effectiveTag: string, appName: string,
                         submitted: bool, reply: nat -> StatusReply)
    returns (sent: Submission, sleeps: nat)
    modifies store
    ensures var creds := NormalizeCredentials(username, password);
      sent == Submission(registryUrl, creds.0, ws, effectiveTag, appName, creds.1)
    ensures store.created == old(store.created)
    ensures !submitted ==> sleeps == 0 && store.writes == old(store.writes)
    ensures submitted ==>
      var job := BuildAndPushJob(registryUrl, effectiveTag);
      && sleeps == Run(job, reply, 0).1
      && store.writes == old(store.writes) + Writes(ws, taskId, job, Run(job, reply, 0).0)
  {
    var normalizedUsername := username;
    var normalizedPassword := password;
    if username == DefaultUsername && (password.None? || password.value == DefaultPassword) {
      normalizedUsername := "";
      normalizedPassword := Some("");
    }
    sent := Submission(registryUrl, normalizedUsername, ws, effectiveTag, appName, normalizedPassword);
    sleeps := 0;
    if !submitted {
      return;
    }
    ghost var job := BuildAndPushJob(registryUrl, effectiveTag);
    var attempt := 0;
    var stopped := false;
    while attempt < MaxAttempts
      invariant 0 <= attempt <= MaxAttempts
      invariant sleeps == attempt
      invariant Run(job, reply, attempt) == Run(job, reply, 0)
      invariant store.writes == old(store.writes) && store.created == old(store.created)
      invariant !stopped
    {
      sleeps := sleeps + 1;
      var polled := reply(attempt);
      if polled.Unreachable? {
        return;
      }
      if IsCompleted(polled.status) {
        if polled.result.Null? {
          return;
        }
        var res := if polled.result.Given? then polled.result.value else BuilderResult(None, None, None);
        var imageUrl := if Truthy(res.imageUrl) then res.imageUrl else res.imageUri;
        if !Truthy(imageUrl) && registryUrl != "" && effectiveTag != "" {
          imageUrl := Some(registryUrl + ":" + effectiveTag);
        }
        store.UpdateBuildTaskStatus(TaskWrite(ws, taskId, "completed", res.wasmPath, imageUrl, None));
        stopped := true;
        break;
      } else if polled.status == Some("failed") {
        var error := match polled.error case Absent => Some("Build-and-push failed") case Null => None case Given(e) => Some(e);
        store.UpdateBuildTaskStatus(TaskWrite(ws, taskId, "failed", None, None, error));
        stopped := true;
        break;
      }
      attempt := attempt + 1;
    }
    if !stopped {
      store.UpdateBuildTaskStatus(TaskWrite(ws, taskId, "failed", None, None, Some("Build-and-push timeout (10 minutes exceeded)")));
    }
  }

  // ---- task views ----

  /** A build-task record as the task store returns it. created_at and updated_at may be
      missing (read as "") or null. */
  datatype TaskRecord = TaskRecord(
    taskId: string, status: string, appName: Option<string>, createdAt: Field<string>, updatedAt: Field<string>,
    wasmPath: Option<string>, imageUrl: Option<string>, sourceCodePath: Option<string>, errorMessage: Option<string>)

  datatype TaskResult = TaskResult(wasmPath: Option<string>, imageUrl: Option<string>, filePath: Option<string>)

  datatype TaskStatusView = TaskStatusView(taskId: string, status: string, result: Option<TaskResult>, error: Option<string>)

  /** A task carries a result exactly when its stored status is "completed". */
  function ResultOf(t: TaskRecord): (r: Option<TaskResult>)
    ensures r.Some? <==> t.status == "completed"
    ensures r.Some? ==> r.value == TaskResult(t.wasmPath, t.imageUrl, t.sourceCodePath)
  {
    if t.status == "completed" then Some(TaskResult(t.wasmPath, t.imageUrl, t.sourceCodePath)) else None
  }

  /** get_task_status: 404 for an unknown task, else its status, result and error. */
  function GetTaskStatus(task: Option<TaskRecord>): (r: Result<TaskStatusView, ApiError>)
    ensures r.Err? <==> task.None?
    ensures r.Err? ==> r.error == TaskNotFound
    ensures r.Ok? ==> r.value.taskId == task.value.taskId && r.value.status == task.value.status
    ensures r.Ok? ==> (r.value.result.Some? <==> task.value.status == "completed")
    ensures r.Ok? ==> r.value.error == task.value.errorMessage
  {
    match task
    case None => Err(TaskNotFound)
    case Some(t) => Ok(TaskStatusView(t.taskId, t.status, ResultOf(t), t.errorMessage))
  }

  datatype TaskItem = TaskItem(
    taskId: string, status: string, appName: Option<string>, createdAt: string, updatedAt: string,
    result: Option<TaskResult>, error: Option<string>)

  datatype WorkspaceTasks = WorkspaceTasks(workspaceId: string, tasks: seq<TaskItem>, count: int)

  /** One entry of the workspace task list; None when a null timestamp fails validation. */
  function TaskItemOf(t: TaskRecord): (r: Option<TaskItem>)
    ensures r.Some? <==> !t.createdAt.Null? && !t.updatedAt.Null?
    ensures r.Some? ==> r.value.taskId == t.taskId && (r.value.result.Some? <==> t.status == "completed")
    ensures r.Some? && t.createdAt.Absent? ==> r.value.createdAt == ""
  {
    if t.createdAt.Null? || t.updatedAt.Null? then None
    else Some(TaskItem(t.taskId, t.status, t.appName, Or(t.createdAt, ""), Or(t.updatedAt, ""), ResultOf(t), t.errorMessage))
  }

  /** list_workspace_tasks: one entry per stored task in order, count equal to their number;
      a task that fails validation turns the whole answer into a 500. */
  method ListWorkspaceTasks(ws: string, tasks: seq<TaskRecord>) returns (r: Result<WorkspaceTasks, ApiError>)
    ensures r.Ok? <==> forall i :: 0 <= i < |tasks| ==> TaskItemOf(tasks[i]).Some?
    ensures r.Err? ==> r.error == Internal
    ensures r.Ok? ==> r.value.workspaceId == ws && r.value.count == |r.value.tasks| == |tasks|
    ensures r.Ok? ==> forall i :: 0 <= i < |tasks| ==> TaskItemOf(tasks[i]) == Some(r.value.tasks[i])
  {
    var items: seq<TaskItem> := [];
    var i := 0;
    while i < |tasks|
      invariant 0 <= i <= |tasks|
      invariant |items| == i
      invariant forall k :: 0 <= k < i ==> TaskItemOf(tasks[k]) == Some(items[k])
    {
      var item := TaskItemOf(tasks[i]);
      if item.None? {
        return Err(Internal);
      }
      items := items + [item.value];
      i := i + 1;
    }
    r := Ok(WorkspaceTasks(ws, items, |items|));
  }

  // ---- scaffold ----

  /** The builder's answer to a scaffold request. */
  datatype ScaffoldReply = ScaffoldReply(
    statusCode: int, success: Field<bool>, yamlContent: Field<string>, filePath: Field<string>, error: Field<string>)

  datatype ScaffoldResponse = ScaffoldResponse(success: bool, yamlContent: Option<string>, filePath: Option<string>, error: Option<string>)

  const ScaffoldHttpError: string := "HTTP error"
  const ScaffoldInvalidReply: string := "invalid scaffold reply"

  /** httpx's `is_success`: the statuses `raise_for_status` lets through. Every other status,
      redirects included (httpx does not follow them by default), raises HTTPStatusError. */
  predicate IsSuccess(statusCode: int) {
    200 <= statusCode < 300
  }

  /** scaffold_spinapp: never raises. An unreachable builder or a status outside 2xx is a
      failed answer with an HTTP error; success defaults to true; a null success fails
      validation and is reported as a failed answer too. */
  function Scaffold(reply: Option<ScaffoldReply>): (r: ScaffoldResponse)
    ensures r.success ==> reply.Some? && IsSuccess(reply.value.statusCode) && !reply.value.success.Null?
    ensures reply.None? || !IsSuccess(reply.value.statusCode) ==> r == ScaffoldResponse(false, None, None, Some(ScaffoldHttpError))
    ensures reply.Some? && IsSuccess(reply.value.statusCode) && reply.value.success.Absent? ==> r.success
  {
    match reply
    case None => ScaffoldResponse(false, None, None, Some(ScaffoldHttpError))
    case Some(rep) =>
      if !IsSuccess(rep.statusCode) then ScaffoldResponse(false, None, None, Some(ScaffoldHttpError))
      else if rep.success.Null? then ScaffoldResponse(false, None, None, Some(ScaffoldInvalidReply))
      else ScaffoldResponse(Or(rep.success, true), rep.yamlContent.Get(), rep.filePath.Get(), rep.error.Get())
  }

  // ---- deploy ----

  /** The builder's answer to a deploy post. */
  datatype DeployReply = DeployReply(
    statusCode: int, appName: Field<string>, namespace: Field<string>, serviceName: Field<string>,
    serviceStatus: Field<string>, endpoint: Field<string>, enableAutoscaling: Field<bool>,
    useSpot: Field<bool>, error: Field<string>)

  /** The response built from the builder's last answer: service_status defaults to "pending";
      a null one fails validation. */
  function DeployResult(rep: DeployReply): (r: Result<DeployResponse, ApiError>)
    ensures r.Ok? <==> !rep.serviceStatus.Null?
    ensures r.Ok? ==> r.value.serviceStatus == Or(rep.serviceStatus, "pending") && r.value.endpoint == rep.endpoint.Get()
    ensures r.Err? ==> r.error == Internal
  {
    if rep.serviceStatus.Null? then Err(Internal)
    else Ok(DeployResponse(rep.appName.Get(), rep.namespace.Get(), rep.serviceName.Get(), Or(rep.serviceStatus, "pending"),
                           rep.endpoint.Get(), rep.enableAutoscaling.Get(), rep.useSpot.Get(), rep.error.Get()))
  }

  /** Whether deploy_to_k8s posts a second time after this first answer: only when it has no
      endpoint but does name the app. */
  predicate Retries(rep: DeployReply) {
    !Truthy(rep.endpoint.Get()) && Truthy(rep.appName.Get())
  }

  /** How a post to the builder fails inside deploy_to_k8s's `try`. */
  datatype PostFailure =
    | FirstRejected    // first answer of 400 or more: a bare httpx.HTTPError is raised, with no response
    | SecondRejected   // second answer outside 2xx: raise_for_status, whose error carries the response
    | NoAnswer         // no answer at all: an httpx.RequestError, with no response

  /** Whether the raised httpx error carries a `response`. */
  predicate HasResponse(f: PostFailure) {
    f.SecondRejected?
  }

  /** The `except httpx.HTTPError` handler as written: it reads `e.response`, which only
      HTTPStatusError has; on any other httpx error that read raises AttributeError inside the
      handler, which no clause catches, so FastAPI answers its bare 500. */
  function HttpErrorHandlerAsWritten(f: PostFailure): (r: ApiError)
    ensures r == DeployHttpError <==> HasResponse(f)
    ensures !HasResponse(f) ==> r == Internal
  {
    if HasResponse(f) then DeployHttpError else Internal
  }

  /** The handler as evidently intended: log the response when there is one, and answer every
      httpx error with the "HTTP error" 500. */
  function HttpErrorHandler(f: PostFailure): (r: ApiError)
    ensures r.status == 500 && r.code == "HTTP_ERROR"
    ensures HasResponse(f) ==> r == HttpErrorHandlerAsWritten(f)
  {
    DeployHttpError
  }

  /** The handler as written turns a rejected first post into the uncaught 500 instead of the
      "HTTP error" it evidently means. */
  lemma RejectedFirstPostIsUncaught()
    ensures HttpErrorHandlerAsWritten(FirstRejected) == Internal
    ensures HttpErrorHandlerAsWritten(FirstRejected) != HttpErrorHandler(FirstRejected)
  {
  }

  /** The two handlers differ on exactly the httpx errors that carry no response. */
  lemma HandlersDifferWithoutResponse(f: PostFailure)
    ensures HttpErrorHandlerAsWritten(f) == HttpErrorHandler(f) <==> HasResponse(f)
  {
  }

  /** deploy_to_k8s: post the request's fields once. When the answer has no endpoint but names
      the app, post once more with that app name in place of the request's, all other fields
      as they were. A failed post ends the call through the httpx error handler as written:
      a first answer of 400 or more (the route's own test) or an unreachable builder is the
      uncaught 500, and only a second answer outside 2xx (raise_for_status) is the "HTTP error"
      500. At most two posts. */
  method DeployToK8s(req: DeployRequest, reply: (nat, DeployRequest) -> Option<DeployReply>)
    returns (r: Result<DeployResponse, ApiError>, posted: seq<DeployRequest>)
    ensures 1 <= |posted| <= 2
    ensures posted[0] == req
    ensures reply(0, req).None? || reply(0, req).value.statusCode >= 400 ==> r == Err(Internal) && |posted| == 1
    ensures |posted| == 2 <==> reply(0, req).Some? && reply(0, req).value.statusCode < 400 && Retries(reply(0, req).value)
    ensures |posted| == 2 ==> posted[1] == req.(appName := reply(0, req).value.appName.Get())
    ensures |posted| == 2 && reply(1, posted[1]).None? ==> r == Err(Internal)
    ensures |posted| == 2 && reply(1, posted[1]).Some? && !IsSuccess(reply(1, posted[1]).value.statusCode) ==>
      r == Err(DeployHttpError)
    ensures r.Ok? ==> var last := reply(|posted| - 1, posted[|posted| - 1]);
      && last.Some?
      && (if |posted| == 1 then last.value.statusCode < 400 else IsSuccess(last.value.statusCode))
      && r == DeployResult(last.value)
  {
    var data := req;
    posted := [data];
    var first := reply(0, data);
    if first.None? {
      return Err(HttpErrorHandlerAsWritten(NoAnswer)), posted;
    }
    if first.value.statusCode >= 400 {
      return Err(HttpErrorHandlerAsWritten(FirstRejected)), posted;
    }
    var answer := first.value;
    if !Truthy(answer.endpoint.Get()) {
      var generated := answer.appName.Get();
      if Truthy(generated) {
        data := data.(appName := generated);
        posted := posted + [data];
        var second := reply(1, data);
        if second.None? {
          return Err(HttpErrorHandlerAsWritten(NoAnswer)), posted;
        }
        if !IsSuccess(second.value.statusCode) {
          return Err(HttpErrorHandlerAsWritten(SecondRejected)), posted;
        }
        answer := second.value;
      }
    }
    r := DeployResult(answer);
  }
}
