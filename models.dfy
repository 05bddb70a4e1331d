/** Model of backend/app/models.py: the request models' field constraints and defaults.
    A request arrives as a record of `Field`s (absent, explicit null, or a value); parsing it
    either yields the validated model, with pydantic's defaults filled in, or a 422. Pydantic
    reports every field that failed; the model names only the first one in declaration order. */
module Models {
  import opened Wrappers
  import Timezone

  /** A pydantic validation failure, reported by FastAPI as 422. */
  datatype ValidationError = ValidationError(field: string)

  const DefaultRuntime: string := "Python 3.12"
  const DefaultMemory: int := 256
  const MinMemory: int := 128
  const MaxMemory: int := 1024
  const DefaultTimeout: int := 30
  const MinTimeout: int := 1
  const MaxTimeout: int := 900
  const DefaultHttpMethods: seq<string> := ["GET"]
  const DefaultUsername: string := "AWS"
  const DefaultPassword: string := "dummy-password"
  const DefaultTag: string := "sha256"
  const DefaultReplicas: int := 1

  /** The statuses FunctionUpdate.status accepts (`^(active|disabled|building|deploying|failed)$`). */
  predicate IsFunctionStatus(s: string) {
    s == "active" || s == "disabled" || s == "building" || s == "deploying" || s == "failed"
  }

  // ---- the three kinds of pydantic field ----

  /** `x: T = Field(...)`: must be present and not null. */
  function Required<T>(f: Field<T>, name: string): Result<T, ValidationError> {
    if f.Given? then Ok(f.value) else Err(ValidationError(name))
  }

  /** `x: T = Field(default=d)`: absent takes the default, null is refused. */
  function Defaulted<T>(f: Field<T>, default: T, name: string): Result<T, ValidationError> {
    match f
    case Absent => Ok(default)
    case Null => Err(ValidationError(name))
    case Given(v) => Ok(v)
  }

  /** An int field with bounds `ge=lo, le=hi`. */
  function Bounded(r: Result<int, ValidationError>, lo: int, hi: int, name: string): Result<int, ValidationError> {
    if r.Ok? && !(lo <= r.value <= hi) then Err(ValidationError(name)) else r
  }

  /** An int field with `ge=1` and no upper bound. */
  function AtLeastOne(r: Result<int, ValidationError>, name: string): Result<int, ValidationError> {
    if r.Ok? && r.value < 1 then Err(ValidationError(name)) else r
  }

  /** A string field with `min_length=1`. */
  function NonEmpty(r: Result<string, ValidationError>, name: string): Result<string, ValidationError> {
    if r.Ok? && r.value == "" then Err(ValidationError(name)) else r
  }

  /** `Optional[T] = None` with a check on given values. */
  function OptionalChecked<T>(f: Field<T>, ok: T -> bool, name: string): Result<Option<T>, ValidationError> {
    match f
    case Given(v) => if ok(v) then Ok(Some(v)) else Err(ValidationError(name))
    case _ => Ok(None)
  }

  /** What a given value must satisfy, and what the field then holds. */
  predicate FieldAccepts<T>(f: Field<T>, required: bool, nullable: bool, ok: T -> bool) {
    match f
    case Absent => !required
    case Null => nullable
    case Given(v) => ok(v)
  }

  function Or<T>(f: Field<T>, default: T): T {
    if f.Given? then f.value else default
  }

  // ---- WorkspaceCreate / WorkspaceUpdate ----

  datatype WorkspaceCreateIn = WorkspaceCreateIn(name: Field<string>, description: Field<string>)
  datatype WorkspaceCreate = WorkspaceCreate(name: string, description: Option<string>)

  function ParseWorkspaceCreate(raw: WorkspaceCreateIn): (r: Result<WorkspaceCreate, ValidationError>)
    ensures r.Ok? <==> raw.name.Given? && raw.name.value != ""
    ensures r.Ok? ==> r.value.name == raw.name.value && r.value.description == raw.description.Get()
  {
    var name :- NonEmpty(Required(raw.name, "name"), "name");
    Ok(WorkspaceCreate(name, raw.description.Get()))
  }

  datatype WorkspaceUpdateIn = WorkspaceUpdateIn(name: Field<string>, description: Field<string>)
  datatype WorkspaceUpdate = WorkspaceUpdate(name: Option<string>, description: Option<string>)

  function ParseWorkspaceUpdate(raw: WorkspaceUpdateIn): (r: Result<WorkspaceUpdate, ValidationError>)
    ensures r.Ok? <==> !(raw.name.Given? && raw.name.value == "")
    ensures r.Ok? ==> r.value == WorkspaceUpdate(raw.name.Get(), raw.description.Get())
  {
    var name :- OptionalChecked(raw.name, (s: string) => s != "", "name");
    Ok(WorkspaceUpdate(name, raw.description.Get()))
  }

  // ---- FunctionCreate ----

  datatype FunctionCreateIn = FunctionCreateIn(
    name: Field<string>, description: Field<string>, runtime: Field<string>,
    memory: Field<int>, timeout: Field<int>, httpMethods: Field<seq<string>>,
    environmentVariables: Field<map<string, string>>, code: Field<string>)

  datatype FunctionCreate = FunctionCreate(
    name: string, description: Option<string>, runtime: string, memory: int, timeout: int,
    httpMethods: seq<string>, environmentVariables: map<string, string>, code: string)

  predicate ValidFunctionCreate(f: FunctionCreate) {
    f.name != "" && MinMemory <= f.memory <= MaxMemory && MinTimeout <= f.timeout <= MaxTimeout
  }

  /** The constraints of FunctionCreate, field by field. */
  predicate AcceptsFunctionCreate(raw: FunctionCreateIn) {
    && FieldAccepts(raw.name, true, false, (s: string) => s != "")
    && FieldAccepts(raw.runtime, false, false, (s: string) => true)
    && FieldAccepts(raw.memory, false, false, (m: int) => MinMemory <= m <= MaxMemory)
    && FieldAccepts(raw.timeout, false, false, (t: int) => MinTimeout <= t <= MaxTimeout)
    && FieldAccepts(raw.httpMethods, false, false, (ms: seq<string>) => true)
    && FieldAccepts(raw.environmentVariables, false, false, (e: map<string, string>) => true)
    && FieldAccepts(raw.code, true, false, (c: string) => true)
  }

  function ParseFunctionCreate(raw: FunctionCreateIn): (r: Result<FunctionCreate, ValidationError>)
    ensures r.Ok? <==> AcceptsFunctionCreate(raw)
    ensures r.Ok? ==> ValidFunctionCreate(r.value)
    ensures r.Ok? ==> r.value == FunctionCreate(
      raw.name.value, raw.description.Get(), Or(raw.runtime, DefaultRuntime),
      Or(raw.memory, DefaultMemory), Or(raw.timeout, DefaultTimeout),
      Or(raw.httpMethods, DefaultHttpMethods), Or(raw.environmentVariables, map[]), raw.code.value)
  {
    var name :- NonEmpty(Required(raw.name, "name"), "name");
    var runtime :- Defaulted(raw.runtime, DefaultRuntime, "runtime");
    var memory :- Bounded(Defaulted(raw.memory, DefaultMemory, "memory"), MinMemory, MaxMemory, "memory");
    var timeout :- Bounded(Defaulted(raw.timeout, DefaultTimeout, "timeout"), MinTimeout, MaxTimeout, "timeout");
    var methods :- Defaulted(raw.httpMethods, DefaultHttpMethods, "httpMethods");
    var env :- Defaulted(raw.environmentVariables, map[], "environmentVariables");
    var code :- Required(raw.code, "code");
    Ok(FunctionCreate(name, raw.description.Get(), runtime, memory, timeout, methods, env, code))
  }

  /** A request carrying only a name and code gets every documented default. */
  lemma FunctionCreateDefaults(name: string, code: string)
    requires name != ""
    ensures ParseFunctionCreate(FunctionCreateIn(Given(name), Absent, Absent, Absent, Absent, Absent, Absent, Given(code)))
         == Ok(FunctionCreate(name, None, "Python 3.12", 256, 30, ["GET"], map[], code))
  {
  }

  /** Every valid model is accepted back unchanged when sent with all its fields. */
  lemma FunctionCreateRoundTrip(f: FunctionCreate)
    requires ValidFunctionCreate(f)
    ensures ParseFunctionCreate(FunctionCreateIn(
      Given(f.name), if f.description.Some? then Given(f.description.value) else Null, Given(f.runtime),
      Given(f.memory), Given(f.timeout), Given(f.httpMethods), Given(f.environmentVariables), Given(f.code)))
      == Ok(f)
  {
  }

  // ---- FunctionUpdate ----

  datatype FunctionUpdateIn = FunctionUpdateIn(
    name: Field<string>, description: Field<string>, runtime: Field<string>,
    memory: Field<int>, timeout: Field<int>, httpMethods: Field<seq<string>>,
    environmentVariables: Field<map<string, string>>, code: Field<string>,
    invocationUrl: Field<string>, status: Field<string>)

  datatype FunctionUpdate = FunctionUpdate(
    name: Option<string>, description: Option<string>, runtime: Option<string>,
    memory: Option<int>, timeout: Option<int>, httpMethods: Option<seq<string>>,
    environmentVariables: Option<map<string, string>>, code: Option<string>,
    invocationUrl: Option<string>, status: Option<string>)

  predicate ValidFunctionUpdate(u: FunctionUpdate) {
    && (u.name.Some? ==> u.name.value != "")
    && (u.memory.Some? ==> MinMemory <= u.memory.value <= MaxMemory)
    && (u.timeout.Some? ==> MinTimeout <= u.timeout.value <= MaxTimeout)
    && (u.status.Some? ==> IsFunctionStatus(u.status.value))
  }

  function ParseFunctionUpdate(raw: FunctionUpdateIn): (r: Result<FunctionUpdate, ValidationError>)
    ensures r.Ok? <==>
      && !(raw.name.Given? && raw.name.value == "")
      && !(raw.memory.Given? && !(MinMemory <= raw.memory.value <= MaxMemory))
      && !(raw.timeout.Given? && !(MinTimeout <= raw.timeout.value <= MaxTimeout))
      && !(raw.status.Given? && !IsFunctionStatus(raw.status.value))
    ensures r.Ok? ==> ValidFunctionUpdate(r.value)
    ensures r.Ok? ==> r.value == FunctionUpdate(
      raw.name.Get(), raw.description.Get(), raw.runtime.Get(), raw.memory.Get(), raw.timeout.Get(),
      raw.httpMethods.Get(), raw.environmentVariables.Get(), raw.code.Get(),
      raw.invocationUrl.Get(), raw.status.Get())
  {
    var name :- OptionalChecked(raw.name, (s: string) => s != "", "name");
    var memory :- OptionalChecked(raw.memory, (m: int) => MinMemory <= m <= MaxMemory, "memory");
    var timeout :- OptionalChecked(raw.timeout, (t: int) => MinTimeout <= t <= MaxTimeout, "timeout");
    var status :- OptionalChecked(raw.status, IsFunctionStatus, "status");
    Ok(FunctionUpdate(name, raw.description.Get(), raw.runtime.Get(), memory, timeout,
                      raw.httpMethods.Get(), raw.environmentVariables.Get(), raw.code.Get(),
                      raw.invocationUrl.Get(), status))
  }

  // ---- Build, push, scaffold and deploy requests ----

  datatype PushRequestIn = PushRequestIn(
    registryUrl: Field<string>, username: Field<string>, password: Field<string>, tag: Field<string>,
    appDir: Field<string>, workspaceId: Field<string>, s3SourcePath: Field<string>)

  datatype PushRequest = PushRequest(
    registryUrl: string, username: string, password: string, tag: string,
    appDir: Option<string>, workspaceId: string, s3SourcePath: Option<string>)

  function ParsePushRequest(raw: PushRequestIn): (r: Result<PushRequest, ValidationError>)
    ensures r.Ok? <==> raw.registryUrl.Given? && raw.workspaceId.Given?
                       && !raw.username.Null? && !raw.password.Null? && !raw.tag.Null?
    ensures r.Ok? ==> r.value == PushRequest(raw.registryUrl.value, Or(raw.username, "AWS"),
                        Or(raw.password, "dummy-password"), Or(raw.tag, "sha256"), raw.appDir.Get(),
                        raw.workspaceId.value, raw.s3SourcePath.Get())
  {
    var registry :- Required(raw.registryUrl, "registry_url");
    var username :- Defaulted(raw.username, DefaultUsername, "username");
    var password :- Defaulted(raw.password, DefaultPassword, "password");
    var tag :- Defaulted(raw.tag, DefaultTag, "tag");
    var ws :- Required(raw.workspaceId, "workspace_id");
    Ok(PushRequest(registry, username, password, tag, raw.appDir.Get(), ws, raw.s3SourcePath.Get()))
  }

  datatype BuildAndPushRequestIn = BuildAndPushRequestIn(
    registryUrl: Field<string>, username: Field<string>, password: Field<string>, tag: Field<string>,
    appName: Field<string>)

  datatype BuildAndPushRequest = BuildAndPushRequest(
    registryUrl: string, username: string, password: string, tag: string, appName: Option<string>)

  function ParseBuildAndPushRequest(raw: BuildAndPushRequestIn): (r: Result<BuildAndPushRequest, ValidationError>)
    ensures r.Ok? <==> raw.registryUrl.Given? && !raw.username.Null? && !raw.password.Null? && !raw.tag.Null?
    ensures r.Ok? ==> r.value == BuildAndPushRequest(raw.registryUrl.value, Or(raw.username, "AWS"),
                        Or(raw.password, "dummy-password"), Or(raw.tag, "sha256"), raw.appName.Get())
  {
    var registry :- Required(raw.registryUrl, "registry_url");
    var username :- Defaulted(raw.username, DefaultUsername, "username");
    var password :- Defaulted(raw.password, DefaultPassword, "password");
    var tag :- Defaulted(raw.tag, DefaultTag, "tag");
    Ok(BuildAndPushRequest(registry, username, password, tag, raw.appName.Get()))
  }

  datatype ScaffoldRequestIn = ScaffoldRequestIn(
    imageRef: Field<string>, component: Field<string>, replicas: Field<int>, outputPath: Field<string>)

  datatype ScaffoldRequest = ScaffoldRequest(
    imageRef: string, component: Option<string>, replicas: int, outputPath: Option<string>)

  function ParseScaffoldRequest(raw: ScaffoldRequestIn): (r: Result<ScaffoldRequest, ValidationError>)
    ensures r.Ok? <==> raw.imageRef.Given? && !raw.replicas.Null? && (raw.replicas.Given? ==> raw.replicas.value >= 1)
    ensures r.Ok? ==> r.value.replicas >= 1
    ensures r.Ok? ==> r.value == ScaffoldRequest(raw.imageRef.value, raw.component.Get(), Or(raw.replicas, 1),
                        raw.outputPath.Get())
  {
    var image :- Required(raw.imageRef, "image_ref");
    var replicas :- AtLeastOne(Defaulted(raw.replicas, DefaultReplicas, "replicas"), "replicas");
    Ok(ScaffoldRequest(image, raw.component.Get(), replicas, raw.outputPath.Get()))
  }

  /** A JSON value, for the free-form Kubernetes tolerations and affinity a deploy passes on. */
  datatype Json =
    | JNull
    | JBool(b: bool)
    | JNumber(n: int)
    | JString(s: string)
    | JArray(items: seq<Json>)
    | JObject(members: map<string, Json>)

  datatype DeployRequestIn = DeployRequestIn(
    appName: Field<string>, namespace: Field<string>, serviceAccount: Field<string>,
    cpuLimit: Field<string>, memoryLimit: Field<string>, cpuRequest: Field<string>, memoryRequest: Field<string>,
    imageRef: Field<string>, enableAutoscaling: Field<bool>, replicas: Field<int>, useSpot: Field<bool>,
    customTolerations: Field<seq<map<string, Json>>>, customAffinity: Field<map<string, Json>>,
    functionId: Field<string>)

  /** DeployRequest; deploy_to_k8s forwards every one of these fields to the builder as they are. */
  datatype DeployRequest = DeployRequest(
    appName: Option<string>, namespace: string, serviceAccount: Option<string>,
    cpuLimit: Option<string>, memoryLimit: Option<string>, cpuRequest: Option<string>, memoryRequest: Option<string>,
    imageRef: string, enableAutoscaling: bool, replicas: int, useSpot: bool,
    customTolerations: Option<seq<map<string, Json>>>, customAffinity: Option<map<string, Json>>,
    functionId: Option<string>)

  function ParseDeployRequest(raw: DeployRequestIn): (r: Result<DeployRequest, ValidationError>)
    ensures r.Ok? <==> raw.namespace.Given? && raw.imageRef.Given?
                       && !raw.enableAutoscaling.Null? && !raw.useSpot.Null?
                       && !raw.replicas.Null? && (raw.replicas.Given? ==> raw.replicas.value >= 1)
    ensures r.Ok? ==> r.value.replicas >= 1
    ensures r.Ok? ==> r.value == DeployRequest(raw.appName.Get(), raw.namespace.value, raw.serviceAccount.Get(),
                        raw.cpuLimit.Get(), raw.memoryLimit.Get(), raw.cpuRequest.Get(), raw.memoryRequest.Get(),
                        raw.imageRef.value, Or(raw.enableAutoscaling, true), Or(raw.replicas, 1), Or(raw.useSpot, true),
                        raw.customTolerations.Get(), raw.customAffinity.Get(), raw.functionId.Get())
  {
    var ns :- Required(raw.namespace, "namespace");
    var image :- Required(raw.imageRef, "image_ref");
    var autoscaling :- Defaulted(raw.enableAutoscaling, true, "enable_autoscaling");
    var replicas :- AtLeastOne(Defaulted(raw.replicas, DefaultReplicas, "replicas"), "replicas");
    var spot :- Defaulted(raw.useSpot, true, "use_spot");
    Ok(DeployRequest(raw.appName.Get(), ns, raw.serviceAccount.Get(), raw.cpuLimit.Get(), raw.memoryLimit.Get(),
                     raw.cpuRequest.Get(), raw.memoryRequest.Get(), image, autoscaling, replicas, spot,
                     raw.customTolerations.Get(), raw.customAffinity.Get(), raw.functionId.Get()))
  }

  /** DeployResponse: service_status is a required string. */
  datatype DeployResponse = DeployResponse(
    appName: Option<string>, namespace: Option<string>, serviceName: Option<string>,
    serviceStatus: string, endpoint: Option<string>,
    enableAutoscaling: Option<bool>, useSpot: Option<bool>, error: Option<string>)

  // ---- Response models ----

  /** Workspace: the workspace view the API returns. errorRate is a float in the source; the
      table stores it as the number 0, kept here as an integer. */
  datatype Workspace = Workspace(
    id: string, name: string, description: Option<string>, createdAt: Timezone.DateTime,
    functionCount: int, invocations24h: int, errorRate: int)

  /** FunctionConfig: the function view the API returns (avgDuration kept as an integer). */
  datatype FunctionConfig = FunctionConfig(
    id: string, workspaceId: string, name: string, description: Option<string>, runtime: string,
    memory: int, timeout: int, httpMethods: seq<string>, environmentVariables: map<string, string>,
    code: string, invocationUrl: Option<string>, status: string, lastModified: Timezone.DateTime,
    lastDeployed: Option<Timezone.DateTime>, invocations24h: int, errors24h: int, avgDuration: int)

  /** ExecutionLog without its free-form requestBody and responseBody (duration in whole ms). */
  datatype ExecutionLog = ExecutionLog(
    id: string, functionId: string, timestamp: Timezone.DateTime, status: string, duration: int,
    statusCode: int, logs: seq<string>, level: string)

  datatype LogsResponse = LogsResponse(logs: seq<ExecutionLog>, total: int)

  /** An error response: HTTP status, error code and, for validation errors, the field at fault. */
  datatype ApiError = ApiError(status: int, code: string, field: Option<string>)

  const NotFound: ApiError := ApiError(404, "NOT_FOUND", None)
  /** What FastAPI answers for an exception no handler catches. */
  const Internal: ApiError := ApiError(500, "INTERNAL_SERVER_ERROR", None)

  function InvalidField(field: string): ApiError {
    ApiError(400, "VALIDATION_ERROR", Some(field))
  }

  function Unprocessable(e: ValidationError): ApiError {
    ApiError(422, "VALIDATION_ERROR", Some(e.field))
  }
}
