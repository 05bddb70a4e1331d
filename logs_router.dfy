/** Model of backend/app/routers/logs.py: the execution-log endpoint of one function. */
module LogsRouter {
  import opened Wrappers
  import opened Models
  import opened Database
  import opened Text
  import Timezone

  const DefaultLimit: int := 100
  const MaxLimit: int := 1000

  /** The `limit` query parameter: 100 when omitted, otherwise accepted only within 1..1000;
      anything else is a 422 validation error before the handler runs. */
  function LogLimit(limit: Option<int>): (r: Result<int, ApiError>)
    ensures limit.None? ==> r == Ok(DefaultLimit)
    ensures limit.Some? ==> (r.Ok? <==> 1 <= limit.value <= MaxLimit)
    ensures r.Ok? ==> 1 <= r.value <= MaxLimit
    ensures r.Err? ==> r.error == Unprocessable(ValidationError("limit"))
  {
    match limit
    case None => Ok(DefaultLimit)
    case Some(n) =>
      if 1 <= n <= MaxLimit then Ok(n) else Err(Unprocessable(ValidationError("limit")))
  }

  /** The ExecutionLog view of a log item: the timestamp as stored (not shifted to KST), logs
      defaulting to [] and level to "info". */
  function LogOut(item: Item): (r: Option<ExecutionLog>)
    ensures r.Some? ==> StrAttr(item, "id") == Some(r.value.id) && StampAttr(item, "timestamp") == Some(r.value.timestamp)
    ensures r.Some? && "logs" !in item ==> r.value.logs == []
    ensures r.Some? && "level" !in item ==> r.value.level == "info"
  {
    var id :- StrAttr(item, "id");
    var functionId :- StrAttr(item, "functionId");
    var timestamp :- StampAttr(item, "timestamp");
    var status :- StrAttr(item, "status");
    var duration :- IntAttr(item, "duration");
    var statusCode :- IntAttr(item, "statusCode");
    var logs :- ListAttrOr(item, "logs", []);
    var level :- StrAttrOr(item, "level", "info");
    Some(ExecutionLog(id, functionId, timestamp, status, duration, statusCode, logs, level))
  }

  function LogViews(items: seq<Item>): (r: Option<seq<ExecutionLog>>)
    ensures r.Some? <==> forall i :: 0 <= i < |items| ==> LogOut(items[i]).Some?
    ensures r.Some? ==> |r.value| == |items| && forall i :: 0 <= i < |items| ==> LogOut(items[i]) == Some(r.value[i])
  {
    if items == [] then Some([])
    else
      match (LogOut(items[0]), LogViews(items[1..]))
      case (Some(l), Some(ls)) => Some([l] + ls)
      case _ => None
  }

  /** A log written by create_log reads back as what was recorded, with the defaults for the
      fields left out and the creation time when no timestamp was given; one written with an
      explicit null logs or level is stored as null and cannot be listed. */
  lemma CreatedLogView(id: string, data: LogData, now: Timezone.IsoDateTime)
    ensures !data.logs.Null? && !data.level.Null? ==>
      LogOut(NewLogItem(id, data, now)) == Some(ExecutionLog(
        id, data.functionId, data.timestamp.GetOr(now), data.status, data.duration, data.statusCode,
        if data.logs.Given? then data.logs.value else [],
        if data.level.Given? then data.level.value else "info"))
    ensures data.logs.Null? || data.level.Null? ==> LogOut(NewLogItem(id, data, now)).None?
  {
    CreatedLogRecord(id, data, now);
    CreatedLogText(id, data, now);
  }

  lemma CreatedLogRecord(id: string, data: LogData, now: Timezone.IsoDateTime)
    ensures var item := NewLogItem(id, data, now);
      && StrAttr(item, "id") == Some(id) && StrAttr(item, "functionId") == Some(data.functionId)
      && StampAttr(item, "timestamp") == Some(data.timestamp.GetOr(now))
      && StrAttr(item, "status") == Some(data.status)
      && IntAttr(item, "duration") == Some(data.duration) && IntAttr(item, "statusCode") == Some(data.statusCode)
  {
    CreatedLogOrigin(id, data, now);
    CreatedLogOutcome(id, data, now);
  }

  lemma CreatedLogOrigin(id: string, data: LogData, now: Timezone.IsoDateTime)
    ensures var item := NewLogItem(id, data, now);
      && StrAttr(item, "id") == Some(id) && StrAttr(item, "functionId") == Some(data.functionId)
      && StampAttr(item, "timestamp") == Some(data.timestamp.GetOr(now))
  {
  }

  lemma CreatedLogOutcome(id: string, data: LogData, now: Timezone.IsoDateTime)
    ensures var item := NewLogItem(id, data, now);
      && StrAttr(item, "status") == Some(data.status)
      && IntAttr(item, "duration") == Some(data.duration) && IntAttr(item, "statusCode") == Some(data.statusCode)
  {
  }

  lemma CreatedLogText(id: string, data: LogData, now: Timezone.IsoDateTime)
    ensures var item := NewLogItem(id, data, now);
      && ListAttrOr(item, "logs", []) == (match data.logs case Given(ls) => Some(ls) case Absent => Some([]) case Null => None)
      && StrAttrOr(item, "level", "info") == (match data.level case Given(l) => Some(l) case Absent => Some("info") case Null => None)
  {
  }

  /** get_function_logs: 422 for a limit outside 1..1000, 404 for a missing function; otherwise
      at most `limit` logs, newest first, each newer than every log left out, with total their
      count; 500 LIST_ERROR when a log cannot be projected. */
  method GetFunctionLogs(db: DynamoDBClient, ws: string, fn: string, limit: Option<int>)
    returns (r: Result<LogsResponse, ApiError>, ghost sks: seq<string>)
    ensures LogLimit(limit).Err? ==> r == Err(Unprocessable(ValidationError("limit")))
    ensures LogLimit(limit).Ok? && FunctionKey(ws, fn) !in db.table ==> r == Err(NotFound)
    ensures LogLimit(limit).Ok? && FunctionKey(ws, fn) in db.table ==>
      var all := QueryKeys(db.table, FunctionPrefix + fn, LogPrefix);
      && StrictlyOrdered(sks, true)
      && |sks| == (if LogLimit(limit).value < |all| then LogLimit(limit).value else |all|)
      && (forall sk :: sk in sks ==> sk in all)
      && (forall sk, i :: sk in all && sk !in sks && 0 <= i < |sks| ==> Precedes(sks[i], sk, true))
      && (forall i :: 0 <= i < |sks| ==> (FunctionPrefix + fn, sks[i]) in db.table)
      && (r.Ok? <==> forall i :: 0 <= i < |sks| ==> LogOut(db.table[(FunctionPrefix + fn, sks[i])]).Some?)
      && (r.Err? ==> r.error == ApiError(500, "LIST_ERROR", None))
      && (r.Ok? ==> r.value.total == |r.value.logs| == |sks|)
      && (r.Ok? ==> forall i :: 0 <= i < |sks| ==> LogOut(db.table[(FunctionPrefix + fn, sks[i])]) == Some(r.value.logs[i]))
  {
    sks := [];
    var checked := LogLimit(limit);
    if checked.Err? {
      return checked.PropagateFailure(), sks;
    }
    var n := checked.value;
    var stored := db.GetFunction(ws, fn);
    if stored.None? {
      return Err(NotFound), sks;
    }
    var listed;
    listed, sks := db.ListLogs(fn, n);
    var views := if listed.Ok? then LogViews(listed.value) else None;
    r := if views.Some? then Ok(LogsResponse(views.value, |views.value|)) else Err(ApiError(500, "LIST_ERROR", None));
  }
}
