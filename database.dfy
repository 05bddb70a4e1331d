/** Model of backend/app/database.py: the single DynamoDB table that holds workspaces,
    functions and execution logs, and the S3 bucket that holds function source code.

    The table is a map from (partition key, sort key) to an item, an attribute map.
    Key scheme:
      workspace metadata   ("WS#" + workspaceId, "METADATA")
      function             ("WS#" + workspaceId, "FN#" + functionId)
      execution log        ("FN#" + functionId,  "LOG#" + isoTimestamp + "#" + logId)
    Generated ids (shortuuid) and the current time are parameters of the operations. */
module Database {
  import opened Wrappers
  import opened Text
  import Timezone

  /** An attribute value. Decimal numbers are kept as integers; a timestamp attribute is the
      ISO text the table stores, kept together with the datetime it reads back as. */
  datatype Value =
    | NULL
    | S(s: string)
    | N(n: int)
    | L(l: seq<string>)
    | M(m: map<string, string>)
    | Stamp(t: Timezone.IsoDateTime, text: string)

  type Item = map<string, Value>
  /** (PK, SK) */
  type Key = (string, string)
  type Table = map<Key, Item>

  /** The exceptions DynamoDB raises for the requests this client makes. */
  datatype DbError =
    | InvalidLimit                   // Limit below 1 in a query
    | KeyAttributeUpdate(attr: string) // SET on PK or SK
    | OverlappingPaths(attr: string)   // the same attribute SET twice in one expression
    | MissingCounter                 // arithmetic on an absent item or a non-numeric attribute

  const WorkspacePrefix: string := "WS#"
  const FunctionPrefix: string := "FN#"
  const LogPrefix: string := "LOG#"
  const MetadataKey: string := "METADATA"
  /** The default page size of list_logs. */
  const DefaultLogLimit: int := 100

  /** The first n elements of s, or all of them when there are fewer (Python's s[:n]). */
  function Take<T>(s: seq<T>, n: nat): (r: seq<T>)
    ensures |r| == if n < |s| then n else |s|
    ensures r <= s
  {
    if n < |s| then s[..n] else s
  }

  /** `shortuuid.uuid()[:8]` for the generated uuid `uid`. */
  function ShortId(uid: string): string {
    Take(uid, 8)
  }

  // ---- Key scheme ----

  function WorkspaceKey(ws: string): Key {
    (WorkspacePrefix + ws, MetadataKey)
  }

  function FunctionKey(ws: string, fn: string): Key {
    (WorkspacePrefix + ws, FunctionPrefix + fn)
  }

  /** `f"LOG#{timestamp}#{id}"`, from the stored timestamp text. */
  function LogSortKey(stamp: string, id: string): string {
    LogPrefix + stamp + "#" + id
  }

  /** A datetime as the table stores it: `dt.isoformat()`. */
  function StampOf(dt: Timezone.IsoDateTime): Value {
    Stamp(dt, Timezone.IsoText(dt))
  }

  predicate IsWorkspaceKey(k: Key) {
    StartsWith(k.0, WorkspacePrefix) && k.1 == MetadataKey
  }

  predicate IsFunctionKey(k: Key) {
    StartsWith(k.0, WorkspacePrefix) && StartsWith(k.1, FunctionPrefix)
  }

  predicate IsLogKey(k: Key) {
    StartsWith(k.0, FunctionPrefix) && StartsWith(k.1, LogPrefix)
  }

  lemma {:induction false} PrefixSplit(p: string, s: string)
    requires StartsWith(s, p)
    ensures p + s[|p|..] == s
  {
    assert s == s[..|p|] + s[|p|..];
  }

  lemma {:induction false} PrefixedParts(p: string, s: string)
    ensures StartsWith(p + s, p) && (p + s)[|p|..] == s
  {
    assert (p + s)[..|p|] == p;
  }

  /** The three kinds of key never coincide, and each key determines the ids it was built from. */
  lemma {:induction false} KeySchemeSeparates(ws: string, fn: string, ws2: string, fn2: string)
    ensures IsWorkspaceKey(WorkspaceKey(ws)) && !IsFunctionKey(WorkspaceKey(ws)) && !IsLogKey(WorkspaceKey(ws))
    ensures IsFunctionKey(FunctionKey(ws, fn)) && !IsWorkspaceKey(FunctionKey(ws, fn)) && !IsLogKey(FunctionKey(ws, fn))
    ensures WorkspaceKey(ws) == WorkspaceKey(ws2) <==> ws == ws2
    ensures FunctionKey(ws, fn) == FunctionKey(ws2, fn2) <==> ws == ws2 && fn == fn2
  {
    PrefixedParts(WorkspacePrefix, ws);
    PrefixedParts(WorkspacePrefix, ws2);
    PrefixedParts(FunctionPrefix, fn);
    PrefixedParts(FunctionPrefix, fn2);
    assert MetadataKey[0] != FunctionPrefix[0];
    assert (FunctionPrefix + fn)[0] == 'F' && MetadataKey[0] == 'M';
    assert (WorkspacePrefix + ws)[0] == 'W';
  }

  // ---- Item shape ----

  predicate HasKey(item: Item, k: Key) {
    && "PK" in item && item["PK"] == S(k.0)
    && "SK" in item && item["SK"] == S(k.1)
  }

  /** The sort key a log item is deleted under: built from its own timestamp and id. */
  function LogSortKeyOf(item: Item): Option<string> {
    if "timestamp" in item && item["timestamp"].Stamp? && "id" in item && item["id"].S?
    then Some(LogSortKey(item["timestamp"].text, item["id"].s))
    else None
  }

  /** What every item written by this client satisfies. */
  predicate WellFormedItem(k: Key, item: Item) {
    && HasKey(item, k)
    && (IsWorkspaceKey(k) ==> "functionCount" in item && item["functionCount"].N?)
    && (IsFunctionKey(k) ==> "id" in item && item["id"] == S(k.1[|FunctionPrefix|..]))
    && (IsLogKey(k) ==> LogSortKeyOf(item) == Some(k.1))
  }

  predicate WellFormed(t: Table) {
    forall k :: k in t ==> WellFormedItem(k, t[k])
  }

  // ---- Queries ----

  /** The sort keys under partition key pk that begin with prefix: the key condition of a query. */
  function QueryKeys(t: Table, pk: string, prefix: string): (r: set<string>)
    ensures forall sk :: sk in r <==> (pk, sk) in t && StartsWith(sk, prefix)
  {
    var r := set k | k in t && k.0 == pk && StartsWith(k.1, prefix) :: k.1;
    assert forall sk :: (pk, sk) in t && StartsWith(sk, prefix) ==> sk in r by {
      forall sk | (pk, sk) in t && StartsWith(sk, prefix) ensures sk in r {
        var k := (pk, sk);
        assert k in t && k.0 == pk && StartsWith(k.1, prefix);
      }
    }
    r
  }

  /** The items stored under pk at the sort keys sks, in that order. */
  function Lookup(t: Table, pk: string, sks: seq<string>): (r: seq<Item>)
    requires forall sk :: sk in sks ==> (pk, sk) in t
    ensures |r| == |sks| && forall i :: 0 <= i < |sks| ==> r[i] == t[(pk, sks[i])]
  {
    if sks == [] then [] else [t[(pk, sks[0])]] + Lookup(t, pk, sks[1..])
  }

  /** All log keys of function fn. */
  function LogKeys(t: Table, fn: string): (r: set<Key>)
    ensures forall k :: k in r <==> k in t && k.0 == FunctionPrefix + fn && StartsWith(k.1, LogPrefix)
  {
    set k | k in t && k.0 == FunctionPrefix + fn && StartsWith(k.1, LogPrefix)
  }

  // ---- Items written by the client ----

  function NewWorkspaceItem(ws: string, name: string, description: Option<string>, now: Timezone.IsoDateTime): (r: Item)
    ensures WellFormedItem(WorkspaceKey(ws), r)
    ensures "id" in r && r["id"] == S(ws) && r["functionCount"] == N(0)
    ensures "description" in r && r["description"] == S(description.GetOr(""))
  {
    KeySchemeSeparates(ws, "", ws, "");
    map["PK" := S(WorkspacePrefix + ws), "SK" := S(MetadataKey), "id" := S(ws), "name" := S(name),
        "description" := S(description.GetOr("")), "createdAt" := StampOf(now),
        "functionCount" := N(0), "invocations24h" := N(0), "errorRate" := N(0)]
  }

  /** The fields create_function reads from its dict argument. name and code are required keys;
      each other key may be missing (a default applies) or hold null (null is stored). */
  datatype FunctionData = FunctionData(
    name: string, description: Field<string>, runtime: Field<string>, memory: Field<int>,
    timeout: Field<int>, httpMethods: Field<seq<string>>, environmentVariables: Field<map<string, string>>,
    code: string)

  /** `dict.get(key, default)` for a text attribute: the default only when the key is missing;
      an explicit null stays null. */
  function GetText(f: Field<string>, default: string): (r: Value)
    ensures f.Absent? ==> r == S(default)
    ensures f.Null? ==> r == NULL
    ensures f.Given? ==> r == S(f.value)
  {
    match f
    case Absent => S(default)
    case Null => NULL
    case Given(v) => S(v)
  }

  /** `dict.get(key, default)` for a number attribute. */
  function GetNumber(f: Field<int>, default: int): (r: Value)
    ensures f.Absent? ==> r == N(default)
    ensures f.Null? ==> r == NULL
    ensures f.Given? ==> r == N(f.value)
  {
    match f
    case Absent => N(default)
    case Null => NULL
    case Given(v) => N(v)
  }

  /** `dict.get(key, default)` for a list attribute. */
  function GetList(f: Field<seq<string>>, default: seq<string>): (r: Value)
    ensures f.Absent? ==> r == L(default)
    ensures f.Null? ==> r == NULL
    ensures f.Given? ==> r == L(f.value)
  {
    match f
    case Absent => L(default)
    case Null => NULL
    case Given(v) => L(v)
  }

  /** `dict.get(key, default)` for a map attribute. */
  function GetMap(f: Field<map<string, string>>, default: map<string, string>): (r: Value)
    ensures f.Absent? ==> r == M(default)
    ensures f.Null? ==> r == NULL
    ensures f.Given? ==> r == M(f.value)
  {
    match f
    case Absent => M(default)
    case Null => NULL
    case Given(v) => M(v)
  }

  function NewFunctionItem(ws: string, fn: string, data: FunctionData, now: Timezone.IsoDateTime): (r: Item)
  {
    map["PK" := S(WorkspacePrefix + ws), "SK" := S(FunctionPrefix + fn), "id" := S(fn),
        "workspaceId" := S(ws), "name" := S(data.name),
        "description" := GetText(data.description, ""),
        "runtime" := GetText(data.runtime, "Python 3.12"),
        "memory" := GetNumber(data.memory, 256),
        "timeout" := GetNumber(data.timeout, 30),
        "httpMethods" := GetList(data.httpMethods, ["GET"]),
        "environmentVariables" := GetMap(data.environmentVariables, map[]),
        "code" := S(data.code), "invocationUrl" := NULL, "status" := S("active"),
        "lastModified" := StampOf(now), "lastDeployed" := NULL,
        "invocations24h" := N(0), "errors24h" := N(0), "avgDuration" := N(0)]
  }

  /** The function item is well formed under its (WS#, FN#) key: it carries the key and the
      function id the sort key names. */
  lemma FunctionItemWellFormed(ws: string, fn: string, data: FunctionData, now: Timezone.IsoDateTime)
    ensures WellFormedItem(FunctionKey(ws, fn), NewFunctionItem(ws, fn, data, now))
  {
    KeySchemeSeparates(ws, fn, ws, fn);
  }

  /** A function created from a dict holding only name and code gets the documented defaults. */
  lemma NewFunctionDefaults(ws: string, fn: string, name: string, code: string, now: Timezone.IsoDateTime)
    ensures var r := NewFunctionItem(ws, fn, FunctionData(name, Absent, Absent, Absent, Absent, Absent, Absent, code), now);
      && r["description"] == S("") && r["runtime"] == S("Python 3.12") && r["memory"] == N(256)
      && r["timeout"] == N(30) && r["httpMethods"] == L(["GET"]) && r["environmentVariables"] == M(map[])
      && r["status"] == S("active") && r["invocationUrl"] == NULL && r["lastDeployed"] == NULL
  {
    DefaultSettings(ws, fn, name, code, now);
    DefaultState(ws, fn, name, code, now);
  }

  lemma DefaultSettings(ws: string, fn: string, name: string, code: string, now: Timezone.IsoDateTime)
    ensures var r := NewFunctionItem(ws, fn, FunctionData(name, Absent, Absent, Absent, Absent, Absent, Absent, code), now);
      && r["description"] == S("") && r["runtime"] == S("Python 3.12") && r["memory"] == N(256)
      && r["timeout"] == N(30)
  {
  }

  lemma DefaultState(ws: string, fn: string, name: string, code: string, now: Timezone.IsoDateTime)
    ensures var r := NewFunctionItem(ws, fn, FunctionData(name, Absent, Absent, Absent, Absent, Absent, Absent, code), now);
      && r["httpMethods"] == L(["GET"]) && r["environmentVariables"] == M(map[])
      && r["status"] == S("active") && r["invocationUrl"] == NULL && r["lastDeployed"] == NULL
  {
  }

  /** The fields create_log reads from its dict argument. A missing timestamp means "now". */
  datatype LogData = LogData(
    functionId: string, timestamp: Option<Timezone.IsoDateTime>, status: string, duration: int,
    statusCode: int, logs: Field<seq<string>>, level: Field<string>)

  function NewLogItem(id: string, data: LogData, now: Timezone.IsoDateTime): (r: Item)
  {
    var stamp := Timezone.IsoText(data.timestamp.GetOr(now));
    map["PK" := S(FunctionPrefix + data.functionId), "SK" := S(LogSortKey(stamp, id)), "id" := S(id),
        "functionId" := S(data.functionId), "timestamp" := Stamp(data.timestamp.GetOr(now), stamp), "status" := S(data.status),
        "duration" := N(data.duration), "statusCode" := N(data.statusCode),
        "logs" := GetList(data.logs, []), "level" := GetText(data.level, "info")]
  }

  /** The log item is well formed under its (FN#, LOG#) key: the sort key is rebuilt from the
      item's own timestamp and id. */
  lemma LogItemWellFormed(id: string, data: LogData, now: Timezone.IsoDateTime)
    ensures WellFormedItem((FunctionPrefix + data.functionId, LogSortKey(Timezone.IsoText(data.timestamp.GetOr(now)), id)), NewLogItem(id, data, now))
  {
    var ts := data.timestamp.GetOr(now);
    var stamp := Timezone.IsoText(ts);
    var item := NewLogItem(id, data, now);
    var k := (FunctionPrefix + data.functionId, LogSortKey(stamp, id));
    PrefixedParts(FunctionPrefix, data.functionId);
    PrefixedParts(LogPrefix, stamp + "#" + id);
    assert LogSortKey(stamp, id) == LogPrefix + (stamp + "#" + id);
    assert k.0[0] == 'F' && k.1[0] == 'L';
    assert HasKey(item, k) by {
      assert item["PK"] == S(k.0) && item["SK"] == S(k.1);
    }
    assert LogSortKeyOf(item) == Some(k.1) by {
      assert item["timestamp"] == Stamp(ts, stamp) && item["id"] == S(id);
    }
  }

  // ---- update_item ----

  /** The item update_item starts from: the stored item, or only the key when there is none. */
  function Base(t: Table, k: Key): (r: Item)
    ensures HasKey(r, k) ==> k in t || r == map["PK" := S(k.0), "SK" := S(k.1)]
  {
    if k in t then t[k] else map["PK" := S(k.0), "SK" := S(k.1)]
  }

  /** The attributes an update_function call SETs besides lastModified: its non-null entries.
      A Python dict has distinct keys, and a later entry would win anyway. */
  function NonNull(updates: seq<(string, Value)>): map<string, Value>
  {
    if updates == [] then map[]
    else
      var rest := NonNull(updates[..|updates| - 1]);
      var (attr, v) := updates[|updates| - 1];
      if v == NULL then rest else rest[attr := v]
  }

  predicate DistinctNames(updates: seq<(string, Value)>) {
    forall i, j :: 0 <= i < j < |updates| ==> updates[i].0 != updates[j].0
  }

  /** Exactly the non-null entries of the updates are SET, each to its own value. */
  lemma {:induction false} NonNullSets(updates: seq<(string, Value)>)
    requires DistinctNames(updates)
    ensures forall i :: 0 <= i < |updates| && updates[i].1 != NULL ==>
      updates[i].0 in NonNull(updates) && NonNull(updates)[updates[i].0] == updates[i].1
    ensures forall a :: a in NonNull(updates) ==>
      exists i :: 0 <= i < |updates| && updates[i].0 == a && updates[i].1 != NULL
  {
    if updates != [] {
      var init := updates[..|updates| - 1];
      NonNullSets(init);
      var last := updates[|updates| - 1];
      assert NonNull(updates) == if last.1 == NULL then NonNull(init) else NonNull(init)[last.0 := last.1];
      forall i | 0 <= i < |updates| && updates[i].1 != NULL
        ensures updates[i].0 in NonNull(updates) && NonNull(updates)[updates[i].0] == updates[i].1
      {
        if i < |updates| - 1 {
          assert updates[i] == init[i];
        }
      }
      forall a | a in NonNull(updates)
        ensures exists i :: 0 <= i < |updates| && updates[i].0 == a && updates[i].1 != NULL
      {
        if a == last.0 && last.1 != NULL {
          assert updates[|updates| - 1].0 == a;
        } else {
          assert a in NonNull(init);
          var i :| 0 <= i < |init| && init[i].0 == a && init[i].1 != NULL;
          assert updates[i] == init[i];
        }
      }
    }
  }

  /** The result of update_function's update_item on a stored or missing item. */
  function PatchFunction(t: Table, k: Key, updates: seq<(string, Value)>, now: Timezone.IsoDateTime): Result<Item, DbError>
  {
    var sets := NonNull(updates);
    if "PK" in sets then Err(KeyAttributeUpdate("PK"))
    else if "SK" in sets then Err(KeyAttributeUpdate("SK"))
    else if "lastModified" in sets then Err(OverlappingPaths("lastModified"))
    else Ok(Base(t, k) + sets["lastModified" := StampOf(now)])
  }

  /** update_function: lastModified becomes now, each non-null update is SET, and every other
      attribute keeps its stored value; it fails exactly when a key attribute or lastModified
      itself is among the non-null updates. */
  lemma PatchFunctionEffect(t: Table, k: Key, updates: seq<(string, Value)>, now: Timezone.IsoDateTime)
    requires DistinctNames(updates)
    ensures var r := PatchFunction(t, k, updates, now);
      && (r.Err? <==> exists i :: 0 <= i < |updates| && updates[i].0 in {"PK", "SK", "lastModified"} && updates[i].1 != NULL)
      && (r.Ok? ==>
        && (k !in t ==> HasKey(r.value, k))
        && r.value["lastModified"] == StampOf(now)
        && (forall i :: 0 <= i < |updates| && updates[i].1 != NULL ==> updates[i].0 in r.value && r.value[updates[i].0] == updates[i].1)
        && (forall a :: a in Base(t, k) && a != "lastModified" && a !in NonNull(updates) ==> a in r.value && r.value[a] == Base(t, k)[a])
        && (forall a :: a in r.value ==> a in Base(t, k) || a == "lastModified" || a in NonNull(updates)))
  {
    NonNullSets(updates);
    var sets := NonNull(updates);
    if "PK" in sets || "SK" in sets || "lastModified" in sets {
      var a := if "PK" in sets then "PK" else if "SK" in sets then "SK" else "lastModified";
      var i :| 0 <= i < |updates| && updates[i].0 == a && updates[i].1 != NULL;
    } else {
      PatchedAttributes(Base(t, k), sets, now, k);
    }
  }

  /** The item SET builds: lastModified is now, every SET attribute has its new value, and every
      other attribute keeps the value it had; the key survives when it is not SET. */
  lemma PatchedAttributes(base: Item, sets: map<string, Value>, now: Timezone.IsoDateTime, k: Key)
    requires "lastModified" !in sets
    ensures var r := base + sets["lastModified" := StampOf(now)];
      && "lastModified" in r && r["lastModified"] == StampOf(now)
      && (forall a :: a in sets ==> a in r && r[a] == sets[a])
      && (forall a :: a in base && a != "lastModified" && a !in sets ==> a in r && r[a] == base[a])
      && (forall a :: a in r ==> a in base || a == "lastModified" || a in sets)
      && (HasKey(base, k) && "PK" !in sets && "SK" !in sets ==> HasKey(r, k))
  {
  }

  /** The SETs of update_workspace: name and description when given. */
  function WorkspaceSets(name: Option<string>, description: Option<string>): (r: map<string, Value>)
    ensures "name" in r <==> name.Some?
    ensures "description" in r <==> description.Some?
    ensures r.Keys <= {"name", "description"}
  {
    (if name.Some? then map["name" := S(name.value)] else map[])
      + (if description.Some? then map["description" := S(description.value)] else map[])
  }

  /** `SET functionCount = functionCount + delta` on a workspace's metadata item; None when the
      item or a numeric counter is missing. */
  function AddCount(t: Table, ws: string, delta: int): (r: Option<Table>)
    ensures r.Some? <==> WorkspaceKey(ws) in t && "functionCount" in t[WorkspaceKey(ws)] && t[WorkspaceKey(ws)]["functionCount"].N?
  {
    var k := WorkspaceKey(ws);
    if k in t && "functionCount" in t[k] && t[k]["functionCount"].N?
    then Some(t[k := t[k]["functionCount" := N(t[k]["functionCount"].n + delta)]])
    else None
  }

  /** The counter moves by exactly delta; nothing else in the table changes. */
  lemma AddCountEffect(t: Table, ws: string, delta: int)
    requires AddCount(t, ws, delta).Some?
    ensures var t' := AddCount(t, ws, delta).value;
      && t'.Keys == t.Keys
      && t'[WorkspaceKey(ws)]["functionCount"] == N(t[WorkspaceKey(ws)]["functionCount"].n + delta)
      && (forall a :: a in t[WorkspaceKey(ws)] && a != "functionCount" ==> t'[WorkspaceKey(ws)][a] == t[WorkspaceKey(ws)][a])
      && (forall k :: k in t && k != WorkspaceKey(ws) ==> t'[k] == t[k])
      && (WellFormed(t) ==> WellFormed(t'))
  {
  }

  /** What delete_function removes: the function's item and every log item of that function id. */
  function RemoveFunction(t: Table, ws: string, fn: string): (r: Table)
    ensures forall k :: k in r <==> k in t && k != FunctionKey(ws, fn) && k !in LogKeys(t, fn)
    ensures forall k :: k in r ==> r[k] == t[k]
  {
    t - LogKeys(t, fn) - {FunctionKey(ws, fn)}
  }

  /** What delete_function as written removes: the function's item and the log items whose sort
      keys list_logs returned. */
  function RemoveFunctionLogs(t: Table, ws: string, fn: string, sks: seq<string>): (r: Table)
    ensures forall k :: k in r <==> k in t && k != FunctionKey(ws, fn) && !(k.0 == FunctionPrefix + fn && k.1 in sks)
    ensures forall k :: k in r ==> r[k] == t[k]
  {
    t - KeysUnder(FunctionPrefix + fn, sks) - {FunctionKey(ws, fn)}
  }

  /** The sort keys list_logs returns for a limit: at most `limit` log keys of the partition,
      newest first, and every log key left out is older than every one returned. */
  ghost predicate NewestLogs(t: Table, pk: string, limit: int, sks: seq<string>) {
    && StrictlyOrdered(sks, true)
    && |sks| == (if limit < |QueryKeys(t, pk, LogPrefix)| then limit else |QueryKeys(t, pk, LogPrefix)|)
    && (forall sk :: sk in sks ==> sk in QueryKeys(t, pk, LogPrefix))
    && (forall sk, i :: sk in QueryKeys(t, pk, LogPrefix) && sk !in sks && 0 <= i < |sks| ==> Precedes(sks[i], sk, true))
  }

  /** After delete_function as written, the function's item is gone and, beyond the first 100,
      its logs remain: exactly 100 fewer than before. */
  lemma LogsLeftOver(t0: Table, t: Table, ws: string, fn: string, sks: seq<string>)
    requires NewestLogs(t0, FunctionPrefix + fn, DefaultLogLimit, sks)
    requires t == RemoveFunctionLogs(t0, ws, fn, sks)
      || (AddCount(RemoveFunctionLogs(t0, ws, fn, sks), ws, -1).Some? && t == AddCount(RemoveFunctionLogs(t0, ws, fn, sks), ws, -1).value)
    ensures FunctionKey(ws, fn) !in t
    ensures |QueryKeys(t0, FunctionPrefix + fn, LogPrefix)| > DefaultLogLimit ==>
      |QueryKeys(t, FunctionPrefix + fn, LogPrefix)| == |QueryKeys(t0, FunctionPrefix + fn, LogPrefix)| - DefaultLogLimit
  {
    var pk := FunctionPrefix + fn;
    var removed := RemoveFunctionLogs(t0, ws, fn, sks);
    if t != removed {
      AddCountEffect(removed, ws, -1);
      QuerySameKeys(removed, t, pk, LogPrefix);
    }
    QueryAfterDelete(t0, pk, sks);
    QueryIgnoresFunctionKey(t0 - KeysUnder(pk, sks), ws, fn);
    if |QueryKeys(t0, pk, LogPrefix)| > DefaultLogLimit {
      DistinctCount(sks);
      CardinalityOfDifference(QueryKeys(t0, pk, LogPrefix), Elems(sks));
    }
  }

  /** Up to the limit the two deletes agree: with at most 100 logs, delete_function as written
      removes exactly what the corrected delete removes. */
  lemma AsWrittenAgreesWithinLimit(t: Table, ws: string, fn: string, sks: seq<string>)
    requires NewestLogs(t, FunctionPrefix + fn, DefaultLogLimit, sks)
    requires |QueryKeys(t, FunctionPrefix + fn, LogPrefix)| <= DefaultLogLimit
    ensures RemoveFunctionLogs(t, ws, fn, sks) == RemoveFunction(t, ws, fn)
  {
    var q := QueryKeys(t, FunctionPrefix + fn, LogPrefix);
    DistinctCount(sks);
    SubsetOfSameSize(Elems(sks), q);
    AllLogKeys(t, fn, sks);
  }

  /** A key delete_workspace removes once the functions with ids in `ids` are deleted. */
  predicate Cascaded(k: Key, ws: string, ids: set<string>) {
    || (k.0 == WorkspacePrefix + ws && StartsWith(k.1, FunctionPrefix) && k.1[|FunctionPrefix|..] in ids)
    || (StartsWith(k.0, FunctionPrefix) && k.0[|FunctionPrefix|..] in ids && StartsWith(k.1, LogPrefix))
  }

  /** The ids of the functions stored in workspace ws. */
  function FunctionIds(t: Table, ws: string): set<string> {
    IdsOf(QueryKeys(t, WorkspacePrefix + ws, FunctionPrefix))
  }

  /** The function ids named by "FN#" sort keys. */
  function IdsOf(sks: set<string>): set<string> {
    set sk | sk in sks && StartsWith(sk, FunctionPrefix) :: sk[|FunctionPrefix|..]
  }

  class DynamoDBClient {
    var table: Table

    ghost predicate Valid()
      reads this
    {
      WellFormed(table)
    }

    constructor()
      ensures table == map[] && Valid()
    {
      table := map[];
    }

    // ---- Workspaces ----

    method CreateWorkspace(uid: string, name: string, description: Option<string>, now: Timezone.IsoDateTime)
      returns (item: Item)
      requires Valid()
      modifies this
      ensures Valid()
      ensures item == NewWorkspaceItem("ws-" + ShortId(uid), name, description, now)
      ensures table == old(table)[WorkspaceKey("ws-" + ShortId(uid)) := item]
      ensures GetWorkspace("ws-" + ShortId(uid)) == Some(item)
    {
      var ws := "ws-" + ShortId(uid);
      item := NewWorkspaceItem(ws, name, description, now);
      table := table[WorkspaceKey(ws) := item];
    }

    function GetWorkspace(ws: string): (r: Option<Item>)
      reads this
      ensures r.Some? <==> WorkspaceKey(ws) in table
      ensures r.Some? ==> r.value == table[WorkspaceKey(ws)]
    {
      if WorkspaceKey(ws) in table then Some(table[WorkspaceKey(ws)]) else None
    }

    /** A scan filtered to metadata items: every workspace exactly once, in no particular order. */
    method ListWorkspaces() returns (items: seq<Item>, ghost keys: seq<Key>)
      ensures forall k :: k in keys <==> k in table && IsWorkspaceKey(k)
      ensures forall i, j :: 0 <= i < j < |keys| ==> keys[i] != keys[j]
      ensures |items| == |keys| && forall i :: 0 <= i < |keys| ==> items[i] == table[keys[i]]
    {
      items := [];
      keys := [];
      var rest := set k | k in table && IsWorkspaceKey(k);
      ghost var all := rest;
      while rest != {}
        invariant forall k :: k in all <==> k in keys || k in rest
        invariant forall k :: k in all <==> k in table && IsWorkspaceKey(k)
        invariant forall k :: k in keys ==> k !in rest
        invariant forall i, j :: 0 <= i < j < |keys| ==> keys[i] != keys[j]
        invariant |items| == |keys| && forall i :: 0 <= i < |keys| ==> keys[i] in table && items[i] == table[keys[i]]
        decreases rest
      {
        var k :| k in rest;
        items := items + [table[k]];
        keys := keys + [k];
        rest := rest - {k};
      }
    }

    method UpdateWorkspace(ws: string, name: Option<string>, description: Option<string>) returns (r: Option<Item>)
      requires Valid()
      modifies this
      ensures name.None? && description.None? ==> table == old(table) && r == old(GetWorkspace(ws))
      ensures name.Some? || description.Some? ==>
        && table == old(table)[WorkspaceKey(ws) := Base(old(table), WorkspaceKey(ws)) + WorkspaceSets(name, description)]
        && r == Some(table[WorkspaceKey(ws)])
      ensures WorkspaceKey(ws) in old(table) ==> Valid()
    {
      var sets: map<string, Value> := map[];
      if name.Some? {
        sets := sets["name" := S(name.value)];
      }
      if description.Some? {
        sets := sets["description" := S(description.value)];
      }
      if sets == map[] {
        r := GetWorkspace(ws);
        return;
      }
      assert sets == WorkspaceSets(name, description);
      var k := WorkspaceKey(ws);
      var item := Base(table, k) + sets;
      if k in table {
        RenameKeepsWellFormed(table, ws, name, description);
      }
      table := table[k := item];
      r := Some(item);
    }

    // ---- Functions ----

    /** `SET functionCount = functionCount + delta`; fails, changing nothing, when there is no counter. */
    method AdjustCount(ws: string, delta: int) returns (r: Result<(), DbError>)
      modifies this
      ensures AddCount(old(table), ws, delta).Some? ==> r.Ok? && table == AddCount(old(table), ws, delta).value
      ensures AddCount(old(table), ws, delta).None? ==> r == Err(MissingCounter) && table == old(table)
    {
      var k := WorkspaceKey(ws);
      if k in table && "functionCount" in table[k] && table[k]["functionCount"].N? {
        var item := table[k];
        table := table[k := item["functionCount" := N(item["functionCount"].n + delta)]];
        r := Ok(());
      } else {
        r := Err(MissingCounter);
      }
    }

    /** Stores the new function, then raises the workspace's functionCount; when that fails the
        function item has already been written. */
    method CreateFunction(ws: string, uid: string, data: FunctionData, now: Timezone.IsoDateTime)
      returns (item: Item, r: Result<(), DbError>)
      requires Valid()
      modifies this
      ensures Valid()
      ensures item == NewFunctionItem(ws, "fn-" + ShortId(uid), data, now)
      ensures var written := old(table)[FunctionKey(ws, "fn-" + ShortId(uid)) := item];
        && (AddCount(written, ws, 1).Some? ==> r.Ok? && table == AddCount(written, ws, 1).value)
        && (AddCount(written, ws, 1).None? ==> r.Err? && table == written)
      ensures r.Ok? <==> old(GetWorkspace(ws)).Some?
    {
      var fn := "fn-" + ShortId(uid);
      item := NewFunctionItem(ws, fn, data, now);
      FunctionItemWellFormed(ws, fn, data, now);
      StoreFunctionItem(table, ws, fn, item);
      table := table[FunctionKey(ws, fn) := item];
      ghost var written := table;
      r := AdjustCount(ws, 1);
      if r.Ok? {
        AddCountEffect(written, ws, 1);
      }
    }

    function GetFunction(ws: string, fn: string): (r: Option<Item>)
      reads this
      ensures r.Some? <==> FunctionKey(ws, fn) in table
      ensures r.Some? ==> r.value == table[FunctionKey(ws, fn)]
    {
      if FunctionKey(ws, fn) in table then Some(table[FunctionKey(ws, fn)]) else None
    }

    /** A query on the workspace's partition for sort keys beginning "FN#": every function of
        the workspace, ascending by sort key. */
    method ListFunctions(ws: string) returns (items: seq<Item>, ghost sks: seq<string>)
      ensures StrictlyOrdered(sks, false)
      ensures forall sk :: sk in sks <==> sk in QueryKeys(table, WorkspacePrefix + ws, FunctionPrefix)
      ensures |items| == |sks|
      ensures forall i :: 0 <= i < |sks| ==> (WorkspacePrefix + ws, sks[i]) in table && items[i] == table[(WorkspacePrefix + ws, sks[i])]
    {
      var pk := WorkspacePrefix + ws;
      var order := SortKeys(QueryKeys(table, pk, FunctionPrefix), false);
      items := Lookup(table, pk, order);
      sks := order;
    }

    /** update_function: builds the SET list in a loop over the updates, skipping nulls, and
        applies it to the stored item (or to a new item holding only the key). */
    method UpdateFunction(ws: string, fn: string, updates: seq<(string, Value)>, now: Timezone.IsoDateTime)
      returns (r: Result<Item, DbError>)
      requires Valid()
      requires DistinctNames(updates)
      modifies this
      ensures r == PatchFunction(old(table), FunctionKey(ws, fn), updates, now)
      ensures r.Ok? ==> table == old(table)[FunctionKey(ws, fn) := r.value]
      ensures r.Err? ==> table == old(table)
      ensures r.Err? || (FunctionKey(ws, fn) in old(table) && "id" !in NonNull(updates)) ==> Valid()
    {
      var sets: map<string, Value> := map[];
      var i := 0;
      while i < |updates|
        invariant 0 <= i <= |updates|
        invariant sets == NonNull(updates[..i])
      {
        var (attr, v) := updates[i];
        assert updates[..i + 1][..i] == updates[..i];
        if v != NULL {
          sets := sets[attr := v];
        }
        i := i + 1;
      }
      assert updates[..i] == updates;
      var k := FunctionKey(ws, fn);
      if "PK" in sets {
        r := Err(KeyAttributeUpdate("PK"));
      } else if "SK" in sets {
        r := Err(KeyAttributeUpdate("SK"));
      } else if "lastModified" in sets {
        r := Err(OverlappingPaths("lastModified"));
      } else {
        var item := Base(table, k) + sets["lastModified" := StampOf(now)];
        KeySchemeSeparates(ws, fn, ws, fn);
        table := table[k := item];
        r := Ok(item);
      }
    }
  
    // ---- Execution logs ----

    method CreateLog(uid: string, data: LogData, now: Timezone.IsoDateTime) returns (item: Item)
      requires Valid()
      modifies this
      ensures Valid()
      ensures item == NewLogItem(ShortId(uid), data, now)
      ensures table == old(table)[(FunctionPrefix + data.functionId, LogSortKey(Timezone.IsoText(data.timestamp.GetOr(now)), ShortId(uid))) := item]
    {
      var id := ShortId(uid);
      var stamp := Timezone.IsoText(data.timestamp.GetOr(now));
      item := NewLogItem(id, data, now);
      LogItemWellFormed(id, data, now);
      table := table[(FunctionPrefix + data.functionId, LogSortKey(stamp, id)) := item];
    }

    /** list_logs: a descending query over the function's "LOG#" sort keys, cut at limit items;
        DynamoDB refuses a limit below 1. The logs returned are the newest ones: every log left
        out sorts after every log returned. */
    method ListLogs(fn: string, limit: int) returns (r: Result<seq<Item>, DbError>, ghost sks: seq<string>)
      ensures r.Err? <==> limit < 1
      ensures r.Err? ==> r.error == InvalidLimit
      ensures r.Ok? ==>
        && NewestLogs(table, FunctionPrefix + fn, limit, sks)
        && (forall sk :: sk in sks ==> (FunctionPrefix + fn, sk) in table)
        && r.value == Lookup(table, FunctionPrefix + fn, sks)
    {
      if limit < 1 {
        r := Err(InvalidLimit);
        sks := [];
        return;
      }
      var pk := FunctionPrefix + fn;
      var all := SortKeys(QueryKeys(table, pk, LogPrefix), true);
      var page := Take(all, limit);
      forall sk, i | sk in QueryKeys(table, pk, LogPrefix) && sk !in page && 0 <= i < |page|
        ensures Precedes(page[i], sk, true)
      {
        var j :| 0 <= j < |all| && all[j] == sk;
        assert forall m :: 0 <= m < |page| ==> page[m] == all[m];
        assert j >= |page|;
        assert page[i] == all[i];
      }
      r := Ok(Lookup(table, pk, page));
      sks := page;
    }

    /** Every log of the function, following the query's pages to the end. */
    method ListAllLogs(fn: string) returns (items: seq<Item>, ghost sks: seq<string>)
      ensures StrictlyOrdered(sks, true)
      ensures forall sk :: sk in sks <==> sk in QueryKeys(table, FunctionPrefix + fn, LogPrefix)
      ensures items == Lookup(table, FunctionPrefix + fn, sks)
    {
      var order := SortKeys(QueryKeys(table, FunctionPrefix + fn, LogPrefix), true);
      items := Lookup(table, FunctionPrefix + fn, order);
      sks := order;
    }

    /** Deletes, one by one, the log items listed for fn, each under the key built from its own
        timestamp and id. */
    method DeleteLogItems(fn: string, logs: seq<Item>, ghost sks: seq<string>)
      requires Valid()
      requires forall sk :: sk in sks ==> (FunctionPrefix + fn, sk) in table && StartsWith(sk, LogPrefix)
      requires logs == Lookup(table, FunctionPrefix + fn, sks)
      modifies this
      ensures Valid()
      ensures table == old(table) - KeysUnder(FunctionPrefix + fn, sks)
    {
      var pk := FunctionPrefix + fn;
      PrefixedParts(FunctionPrefix, fn);
      ghost var t0 := table;
      assert Listed(t0, pk, sks, logs);
      for i := 0 to |logs|
        invariant table == t0 - KeysUnder(pk, sks[..i])
      {
        DeleteLogItem(pk, logs, t0, sks, i);
      }
      assert sks[..|logs|] == sks;
      SubTableWellFormed(table, t0);
    }

    /** One delete_item of delete_function's loop: the i-th listed log item is removed under
        the key rebuilt from its own timestamp and id, which is the key it is stored under. */
    method DeleteLogItem(pk: string, logs: seq<Item>, ghost t0: Table, ghost sks: seq<string>, i: nat)
      requires Listed(t0, pk, sks, logs) && i < |logs|
      requires table == t0 - KeysUnder(pk, sks[..i])
      modifies this
      ensures table == t0 - KeysUnder(pk, sks[..i + 1])
    {
      var log := logs[i];
      LogItemKey(t0, pk, sks[i]);
      table := table - {(pk, LogSortKey(log["timestamp"].text, log["id"].s))};
      DeleteOneMore(t0, pk, sks, i);
    }

    /** delete_function as written: the logs it removes are those of list_logs(function_id)
        with its default limit of 100, so a function with more than 100 logs keeps all but
        its newest 100 logs in the table after the function is gone. */
    method DeleteFunctionAsWritten(ws: string, fn: string) returns (r: Result<(), DbError>, ghost deleted: seq<string>)
      requires Valid()
      modifies this
      ensures Valid()
      ensures NewestLogs(old(table), FunctionPrefix + fn, DefaultLogLimit, deleted)
      ensures var removed := RemoveFunctionLogs(old(table), ws, fn, deleted);
        && (AddCount(removed, ws, -1).Some? ==> r.Ok? && table == AddCount(removed, ws, -1).value)
        && (AddCount(removed, ws, -1).None? ==> r == Err(MissingCounter) && table == removed)
      ensures FunctionKey(ws, fn) !in table
      ensures |QueryKeys(old(table), FunctionPrefix + fn, LogPrefix)| > DefaultLogLimit ==>
        |QueryKeys(table, FunctionPrefix + fn, LogPrefix)| == |QueryKeys(old(table), FunctionPrefix + fn, LogPrefix)| - DefaultLogLimit
    {
      ghost var t0 := table;
      var listed, sks := ListLogs(fn, DefaultLogLimit);
      deleted := sks;
      DeleteLogItems(fn, listed.value, sks);
      r := DeleteFunctionItem(ws, fn);
      LogsLeftOver(t0, table, ws, fn, sks);
    }

    /** The last two requests of delete_function: delete_item on the function's key, then the
        counter decrement, which fails without a counter and leaves the deletion in place. */
    method DeleteFunctionItem(ws: string, fn: string) returns (r: Result<(), DbError>)
      requires Valid()
      modifies this
      ensures Valid()
      ensures var removed := old(table) - {FunctionKey(ws, fn)};
        && (AddCount(removed, ws, -1).Some? ==> r.Ok? && table == AddCount(removed, ws, -1).value)
        && (AddCount(removed, ws, -1).None? ==> r == Err(MissingCounter) && table == removed)
    {
      table := table - {FunctionKey(ws, fn)};
      ghost var removed := table;
      r := AdjustCount(ws, -1);
      if r.Ok? {
        AddCountEffect(removed, ws, -1);
      }
    }

    /** delete_function with every log of the function removed: afterwards the table holds
        exactly what it held before minus the function's item and all its logs, with the
        workspace's functionCount one lower; when the workspace has no counter the deletions
        still happen and the call fails. */
    method DeleteFunction(ws: string, fn: string) returns (r: Result<(), DbError>)
      requires Valid()
      modifies this
      ensures Valid()
      ensures var removed := RemoveFunction(old(table), ws, fn);
        && (AddCount(removed, ws, -1).Some? ==> r.Ok? && table == AddCount(removed, ws, -1).value)
        && (AddCount(removed, ws, -1).None? ==> r == Err(MissingCounter) && table == removed)
      ensures LogKeys(table, fn) == {} && FunctionKey(ws, fn) !in table
    {
      var pk := FunctionPrefix + fn;
      ghost var t0 := table;
      var logs, sks := ListAllLogs(fn);
      DeleteLogItems(fn, logs, sks);
      AllLogKeys(t0, fn, sks);
      ghost var removed := table - {FunctionKey(ws, fn)};
      assert removed == RemoveFunction(t0, ws, fn);
      KeySchemeSeparates(ws, fn, ws, fn);
      r := DeleteFunctionItem(ws, fn);
      if r.Ok? {
        AddCountEffect(removed, ws, -1);
      }
      assert LogKeys(table, fn) == {} by {
        forall k | k in table ensures k !in LogKeys(table, fn) {
          assert k in removed;
        }
      }
    }
    /** delete_workspace: deletes each function of the workspace (with its logs) and then the
        metadata item. On success every key of the workspace and every log of its functions is
        gone and every other item is untouched. It fails only when the workspace has functions
        but no metadata item, whose counter the first function deletion cannot decrement. */
    method DeleteWorkspace(ws: string) returns (r: Result<(), DbError>)
      requires Valid()
      modifies this
      ensures Valid()
      ensures r.Ok? <==> WorkspaceKey(ws) in old(table) || FunctionIds(old(table), ws) == {}
      ensures r.Ok? ==> forall k :: k in table <==>
        k in old(table) && k != WorkspaceKey(ws) && !Cascaded(k, ws, FunctionIds(old(table), ws))
      ensures r.Ok? ==> forall k :: k in table ==> table[k] == old(table)[k]
    {
      ghost var t0 := table;
      var functions, sks := ListFunctions(ws);
      assert ListedFunctions(t0, ws, functions, sks);
      r := DeleteListedFunctions(ws, functions, sks, t0);
      if r.Err? {
        return;
      }
      CascadeComplete(t0, table, ws, sks);
      table := table - {WorkspaceKey(ws)};
    }

    /** The loop of delete_workspace: delete_function on each listed function in turn, stopping
        at the first failure. */
    method DeleteListedFunctions(ws: string, functions: seq<Item>, ghost sks: seq<string>, ghost t0: Table)
      returns (r: Result<(), DbError>)
      requires Valid() && ListedFunctions(t0, ws, functions, sks) && table == t0
      modifies this
      ensures Valid()
      ensures r.Err? ==> WorkspaceKey(ws) !in t0 && FunctionIds(t0, ws) != {}
      ensures r.Ok? ==> CascadeState(t0, table, ws, IdsOf(Elems(sks))) && (sks != [] ==> WorkspaceKey(ws) in t0)
    {
      r := Ok(());
      assert Elems(sks[..0]) == {};
      assert IdsOf({}) == {};
      var i := 0;
      while i < |functions|
        invariant 0 <= i <= |functions|
        invariant Valid()
        invariant CascadeState(t0, table, ws, IdsOf(Elems(sks[..i])))
        invariant i > 0 ==> WorkspaceKey(ws) in t0
        invariant r.Ok?
      {
        r := DeleteListedFunction(ws, functions, sks, i, t0);
        if r.Err? {
          return;
        }
        i := i + 1;
      }
      assert sks[..i] == sks;
    }

    /** One turn of delete_workspace's loop: delete_function on the i-th listed function, whose
        id is read from its item. On success the cascade covers one more function; a failure
        means the workspace had no metadata item. */
    method DeleteListedFunction(ws: string, functions: seq<Item>, ghost sks: seq<string>, i: nat, ghost t0: Table)
      returns (r: Result<(), DbError>)
      requires Valid() && ListedFunctions(t0, ws, functions, sks) && i < |functions|
      requires CascadeState(t0, table, ws, IdsOf(Elems(sks[..i])))
      modifies this
      ensures Valid()
      ensures r.Err? ==> WorkspaceKey(ws) !in t0 && FunctionIds(t0, ws) != {}
      ensures r.Ok? ==> WorkspaceKey(ws) in t0 && CascadeState(t0, table, ws, IdsOf(Elems(sks[..i + 1])))
    {
      var pk := WorkspacePrefix + ws;
      assert sks[i] in QueryKeys(t0, pk, FunctionPrefix);
      FunctionItemId(t0, pk, sks[i]);
      var item: Item := functions[i];
      var fid := item["id"].s;
      ghost var prev := table;
      ghost var ids := IdsOf(Elems(sks[..i]));
      r := DeleteFunction(ws, fid);
      if r.Err? {
        CascadeCounter(t0, prev, ws, ids, fid);
        IdsOfMember(QueryKeys(t0, pk, FunctionPrefix), sks[i]);
        return;
      }
      CascadeStep(t0, prev, table, ws, ids, fid);
      IdsOfSnoc(sks, i);
    }
  }

  // ---- Reading items into response models ----
  // `item["a"]` raises when the attribute is missing, and pydantic refuses a value of the
  // wrong type; both make these readers return None.

  function StrAttr(item: Item, a: string): Option<string> {
    if a in item && item[a].S? then Some(item[a].s) else None
  }

  function IntAttr(item: Item, a: string): Option<int> {
    if a in item && item[a].N? then Some(item[a].n) else None
  }

  function StampAttr(item: Item, a: string): Option<Timezone.IsoDateTime> {
    if a in item && item[a].Stamp? then Some(item[a].t) else None
  }

  function ListAttr(item: Item, a: string): Option<seq<string>> {
    if a in item && item[a].L? then Some(item[a].l) else None
  }

  function MapAttr(item: Item, a: string): Option<map<string, string>> {
    if a in item && item[a].M? then Some(item[a].m) else None
  }

  /** `item.get(a, default)` into an Optional[str] field: null reads as None. */
  function OptStrAttr(item: Item, a: string, default: Option<string>): Option<Option<string>> {
    if a !in item then Some(default)
    else match item[a]
      case NULL => Some(None)
      case S(s) => Some(Some(s))
      case _ => None
  }

  /** `item.get(a, default)` into an int field. */
  function IntAttrOr(item: Item, a: string, default: int): Option<int> {
    if a !in item then Some(default) else IntAttr(item, a)
  }

  /** `item.get(a, default)` into a str field. */
  function StrAttrOr(item: Item, a: string, default: string): Option<string> {
    if a !in item then Some(default) else StrAttr(item, a)
  }

  /** `item.get(a, default)` into a List[str] field. */
  function ListAttrOr(item: Item, a: string, default: seq<string>): Option<seq<string>> {
    if a !in item then Some(default) else ListAttr(item, a)
  }

  // ---- S3 ----

  /** base64 over UTF-8 as the backend uses it: whether `base64.b64decode(s)` succeeds, the text
      `base64.b64decode(s).decode("utf-8")` (None when either step raises), and
      `base64.b64encode(text.encode("utf-8")).decode("utf-8")`. */
  datatype Codec = Codec(accepts: string -> bool, decode: string -> Option<string>, encode: string -> string)

  /** The laws of base64 over UTF-8 the model relies on: text that decodes was accepted by the
      base64 step, and encoding any text decodes back to it. */
  ghost predicate Lawful(c: Codec) {
    && (forall s :: c.decode(s).Some? ==> c.accepts(s))
    && (forall t :: c.decode(c.encode(t)) == Some(t))
  }

  /** InvalidCode: the source is not base64 of UTF-8 text; Unreachable: the S3 request itself fails. */
  datatype S3Error = InvalidCode | NoSuchKey | Unreachable

  /** The object key of a function's source: "{workspace_id}/{function_id}.py". */
  function CodeKey(ws: string, fn: string): string {
    ws + "/" + fn + ".py"
  }

  /** Code saved from a base64 string is read back as a base64 string of the same text. */
  lemma SavedCodeReadsBack(c: Codec, objects: map<string, string>, ws: string, fn: string, b64: string)
    requires Lawful(c) && c.decode(b64).Some?
    ensures var saved := objects[CodeKey(ws, fn) := c.decode(b64).value];
      c.decode(c.encode(saved[CodeKey(ws, fn)])) == c.decode(b64) && c.accepts(c.encode(saved[CodeKey(ws, fn)]))
  {
    var t := c.decode(b64).value;
    assert c.decode(c.encode(t)) == Some(t);
  }

  /** The bucket of function sources, by object key. */
  class S3Client {
    var objects: map<string, string>

    constructor()
      ensures objects == map[]
    {
      objects := map[];
    }

    /** save_code: decodes the base64 source to UTF-8 text and stores the text under CodeKey.
        `reachable` says whether the put_object request succeeds. */
    method SaveCode(ws: string, fn: string, codeB64: string, codec: Codec, reachable: bool)
      returns (r: Result<string, S3Error>)
      modifies this
      ensures codec.decode(codeB64).None? ==> r == Err(InvalidCode) && objects == old(objects)
      ensures codec.decode(codeB64).Some? && !reachable ==> r == Err(Unreachable) && objects == old(objects)
      ensures codec.decode(codeB64).Some? && reachable ==>
        r == Ok(CodeKey(ws, fn)) && objects == old(objects)[CodeKey(ws, fn) := codec.decode(codeB64).value]
    {
      var decoded := codec.decode(codeB64);
      if decoded.None? {
        return Err(InvalidCode);
      }
      var key := CodeKey(ws, fn);
      if !reachable {
        return Err(Unreachable);
      }
      objects := objects[key := decoded.value];
      r := Ok(key);
    }

    /** get_code: the stored text, base64-encoded again; a missing object raises NoSuchKey. */
    method GetCode(ws: string, fn: string, codec: Codec) returns (r: Result<string, S3Error>)
      ensures CodeKey(ws, fn) in objects ==> r == Ok(codec.encode(objects[CodeKey(ws, fn)]))
      ensures CodeKey(ws, fn) !in objects ==> r == Err(NoSuchKey)
    {
      var key := CodeKey(ws, fn);
      if key !in objects {
        return Err(NoSuchKey);
      }
      r := Ok(codec.encode(objects[key]));
    }

    /** delete_code: S3 deletes a missing object without complaint; only an unreachable
        service makes it fail. */
    method DeleteCode(ws: string, fn: string, reachable: bool) returns (r: Result<(), S3Error>)
      modifies this
      ensures reachable ==> r.Ok? && objects == old(objects) - {CodeKey(ws, fn)}
      ensures !reachable ==> r == Err(Unreachable) && objects == old(objects)
    {
      if !reachable {
        return Err(Unreachable);
      }
      objects := objects - {CodeKey(ws, fn)};
      r := Ok(());
    }
  }

  /** A stored function item carries the id its sort key was built from. */
  lemma FunctionItemId(t: Table, pk: string, sk: string)
    requires WellFormed(t) && (pk, sk) in t
    requires StartsWith(pk, WorkspacePrefix) && StartsWith(sk, FunctionPrefix)
    ensures "id" in t[(pk, sk)] && t[(pk, sk)]["id"] == S(sk[|FunctionPrefix|..])
  {
    assert WellFormedItem((pk, sk), t[(pk, sk)]);
  }

  /** Deleting function fid extends the cascade by fid. */
  lemma {:induction false} CascadeGrows(k: Key, ws: string, ids: set<string>, fid: string)
    ensures Cascaded(k, ws, ids + {fid}) <==>
      Cascaded(k, ws, ids) || k == FunctionKey(ws, fid) || (k.0 == FunctionPrefix + fid && StartsWith(k.1, LogPrefix))
  {
    PrefixedParts(FunctionPrefix, fid);
    if StartsWith(k.1, FunctionPrefix) { PrefixSplit(FunctionPrefix, k.1); }
    if StartsWith(k.0, FunctionPrefix) { PrefixSplit(FunctionPrefix, k.0); }
  }

  /** The table during delete_workspace once the functions with ids in `ids` are deleted. */
  /** What ListFunctions returned for workspace ws of table t: the function items, at the
      sort keys sks, which are exactly the workspace's function keys. */
  ghost predicate ListedFunctions(t: Table, ws: string, functions: seq<Item>, sks: seq<string>) {
    && WellFormed(t) && |functions| == |sks|
    && (forall sk :: sk in sks <==> sk in QueryKeys(t, WorkspacePrefix + ws, FunctionPrefix))
    && (forall i :: 0 <= i < |sks| ==> (WorkspacePrefix + ws, sks[i]) in t && functions[i] == t[(WorkspacePrefix + ws, sks[i])])
  }

  ghost predicate CascadeState(t0: Table, t: Table, ws: string, ids: set<string>) {
    && (WorkspaceKey(ws) in t <==> WorkspaceKey(ws) in t0)
    && (forall k :: k != WorkspaceKey(ws) ==> (k in t <==> k in t0 && !Cascaded(k, ws, ids)))
    && (forall k :: k in t && k != WorkspaceKey(ws) ==> t[k] == t0[k])
  }

  lemma CascadeStep(t0: Table, prev: Table, next: Table, ws: string, ids: set<string>, fid: string)
    requires CascadeState(t0, prev, ws, ids) && WellFormed(prev)
    requires AddCount(RemoveFunction(prev, ws, fid), ws, -1).Some? ==> next == AddCount(RemoveFunction(prev, ws, fid), ws, -1).value
    requires AddCount(RemoveFunction(prev, ws, fid), ws, -1).None? ==> next == RemoveFunction(prev, ws, fid)
    ensures CascadeState(t0, next, ws, ids + {fid})
  {
    var removed := RemoveFunction(prev, ws, fid);
    KeySchemeSeparates(ws, fid, ws, fid);
    if AddCount(removed, ws, -1).Some? {
      AddCountEffect(removed, ws, -1);
    }
    forall k | k != WorkspaceKey(ws)
      ensures k in next <==> k in t0 && !Cascaded(k, ws, ids + {fid})
    {
      CascadeGrows(k, ws, ids, fid);
    }
  }

  /** During the cascade the counter can be decremented whenever the workspace had a metadata item. */
  lemma CascadeCounter(t0: Table, prev: Table, ws: string, ids: set<string>, fid: string)
    requires CascadeState(t0, prev, ws, ids) && WellFormed(prev)
    ensures WorkspaceKey(ws) in t0 ==> AddCount(RemoveFunction(prev, ws, fid), ws, -1).Some?
  {
    KeySchemeSeparates(ws, fid, ws, fid);
    var k := WorkspaceKey(ws);
    if k in t0 {
      assert WellFormedItem(k, prev[k]);
      assert k in RemoveFunction(prev, ws, fid);
    }
  }

  lemma CascadeDone(t0: Table, t: Table, ws: string, ids: set<string>)
    requires CascadeState(t0, t, ws, ids)
    ensures forall k :: k in t - {WorkspaceKey(ws)} <==> k in t0 && k != WorkspaceKey(ws) && !Cascaded(k, ws, ids)
    ensures SubTable(t - {WorkspaceKey(ws)}, t0)
  {
  }

  /** Once every listed function is deleted, removing the metadata item leaves exactly the keys
      outside the workspace's cascade, each with its original item. */
  lemma CascadeComplete(t0: Table, t: Table, ws: string, sks: seq<string>)
    requires WellFormed(t0) && CascadeState(t0, t, ws, IdsOf(Elems(sks)))
    requires forall sk :: sk in sks <==> sk in QueryKeys(t0, WorkspacePrefix + ws, FunctionPrefix)
    ensures forall k :: k in t - {WorkspaceKey(ws)} <==>
      k in t0 && k != WorkspaceKey(ws) && !Cascaded(k, ws, FunctionIds(t0, ws))
    ensures forall k :: k in t - {WorkspaceKey(ws)} ==> (t - {WorkspaceKey(ws)})[k] == t0[k]
    ensures WellFormed(t - {WorkspaceKey(ws)})
    ensures sks == [] ==> FunctionIds(t0, ws) == {}
  {
    assert Elems(sks) == QueryKeys(t0, WorkspacePrefix + ws, FunctionPrefix);
    CascadeDone(t0, t, ws, FunctionIds(t0, ws));
    SubTableWellFormed(t - {WorkspaceKey(ws)}, t0);
  }

  lemma IdsOfMember(sks: set<string>, sk: string)
    requires sk in sks && StartsWith(sk, FunctionPrefix)
    ensures sk[|FunctionPrefix|..] in IdsOf(sks)
  {
  }

  lemma IdsOfSnoc(sks: seq<string>, i: nat)
    requires i < |sks| && StartsWith(sks[i], FunctionPrefix)
    ensures IdsOf(Elems(sks[..i + 1])) == IdsOf(Elems(sks[..i])) + {sks[i][|FunctionPrefix|..]}
  {
    assert Elems(sks[..i + 1]) == Elems(sks[..i]) + {sks[i]} by {
      assert sks[..i + 1] == sks[..i] + [sks[i]];
    }
  }

  /** The keys (pk, sk) for the sort keys sk listed. */
  function KeysUnder(pk: string, sks: seq<string>): (r: set<Key>)
    ensures forall k :: k in r <==> k.0 == pk && k.1 in sks
  {
    set sk | sk in sks :: (pk, sk)
  }

  lemma DeleteOneMore(t: Table, pk: string, sks: seq<string>, i: nat)
    requires i < |sks|
    ensures t - KeysUnder(pk, sks[..i]) - {(pk, sks[i])} == t - KeysUnder(pk, sks[..i + 1])
  {
    assert sks[..i + 1] == sks[..i] + [sks[i]];
    assert KeysUnder(pk, sks[..i + 1]) == KeysUnder(pk, sks[..i]) + {(pk, sks[i])};
  }

  /** A stored log item is deleted under its own key: the key rebuilt from its timestamp and id. */
  lemma LogItemKey(t: Table, pk: string, sk: string)
    requires WellFormed(t) && (pk, sk) in t
    requires StartsWith(pk, FunctionPrefix) && StartsWith(sk, LogPrefix)
    ensures "timestamp" in t[(pk, sk)] && t[(pk, sk)]["timestamp"].Stamp?
    ensures "id" in t[(pk, sk)] && t[(pk, sk)]["id"].S?
    ensures LogSortKey(t[(pk, sk)]["timestamp"].text, t[(pk, sk)]["id"].s) == sk
  {
    assert WellFormedItem((pk, sk), t[(pk, sk)]);
  }

  /** Writing a well-formed function item keeps the table well formed, and the workspace's
      counter can then be raised exactly when the workspace exists. */
  lemma StoreFunctionItem(t: Table, ws: string, fn: string, item: Item)
    requires WellFormed(t) && WellFormedItem(FunctionKey(ws, fn), item)
    ensures WellFormed(t[FunctionKey(ws, fn) := item])
    ensures AddCount(t[FunctionKey(ws, fn) := item], ws, 1).Some? <==> WorkspaceKey(ws) in t
  {
    KeySchemeSeparates(ws, fn, ws, fn);
    var t' := t[FunctionKey(ws, fn) := item];
    if WorkspaceKey(ws) in t {
      assert t'[WorkspaceKey(ws)] == t[WorkspaceKey(ws)];
      assert WellFormedItem(WorkspaceKey(ws), t[WorkspaceKey(ws)]);
    }
  }

  /** The logs a query listed under the log partition pk, stored at the sort keys sks of a
      well-formed table. */
  predicate Listed(t: Table, pk: string, sks: seq<string>, logs: seq<Item>) {
    && WellFormed(t) && StartsWith(pk, FunctionPrefix) && |logs| == |sks|
    && (forall i :: 0 <= i < |sks| ==> (pk, sks[i]) in t && StartsWith(sks[i], LogPrefix) && logs[i] == t[(pk, sks[i])])
  }

  /** Setting a stored workspace's name or description keeps the table well formed: the key
      and the counter are untouched. */
  lemma RenameKeepsWellFormed(t: Table, ws: string, name: Option<string>, description: Option<string>)
    requires WellFormed(t) && WorkspaceKey(ws) in t
    ensures WellFormed(t[WorkspaceKey(ws) := t[WorkspaceKey(ws)] + WorkspaceSets(name, description)])
  {
    KeySchemeSeparates(ws, "", ws, "");
    var k := WorkspaceKey(ws);
    var sets := WorkspaceSets(name, description);
    assert "PK" !in sets && "SK" !in sets && "functionCount" !in sets;
    assert WellFormedItem(k, t[k]);
  }

  predicate SubTable(t: Table, t0: Table) {
    forall k :: k in t ==> k in t0 && t[k] == t0[k]
  }

  lemma SubTableWellFormed(t: Table, t0: Table)
    requires WellFormed(t0) && SubTable(t, t0)
    ensures WellFormed(t)
  {
  }

  /** Deleting listed log keys removes exactly those sort keys from the function's log query. */
  lemma QueryAfterDelete(t: Table, pk: string, sks: seq<string>)
    ensures QueryKeys(t - KeysUnder(pk, sks), pk, LogPrefix) == QueryKeys(t, pk, LogPrefix) - Elems(sks)
  {
  }

  /** A function item never answers a log query. */
  lemma QueryIgnoresFunctionKey(t: Table, ws: string, fn: string)
    ensures QueryKeys(t - {FunctionKey(ws, fn)}, FunctionPrefix + fn, LogPrefix) == QueryKeys(t, FunctionPrefix + fn, LogPrefix)
  {
    KeySchemeSeparates(ws, fn, ws, fn);
    PrefixedParts(FunctionPrefix, fn);
    assert (FunctionPrefix + fn)[0] != (WorkspacePrefix + ws)[0];
  }

  lemma QuerySameKeys(t: Table, t': Table, pk: string, prefix: string)
    requires t.Keys == t'.Keys
    ensures QueryKeys(t, pk, prefix) == QueryKeys(t', pk, prefix)
  {
  }

  /** The listed sort keys of a full log query are the function's log keys. */
  lemma AllLogKeys(t: Table, fn: string, sks: seq<string>)
    requires forall sk :: sk in sks <==> sk in QueryKeys(t, FunctionPrefix + fn, LogPrefix)
    ensures KeysUnder(FunctionPrefix + fn, sks) == LogKeys(t, fn)
  {
  }

  lemma {:induction false} CardinalityOfDifference(a: set<string>, b: set<string>)
    requires b <= a
    ensures |a - b| == |a| - |b|
  {
    assert a == (a - b) + b;
    assert (a - b) * b == {};
  }

  /** A strictly ordered sequence has no repeats: it has as many distinct elements as entries. */
  function Elems(s: seq<string>): set<string> {
    set x | x in s
  }

  /** A subset as large as its superset is the superset. */
  lemma SubsetOfSameSize(a: set<string>, b: set<string>)
    requires a <= b && |a| == |b|
    ensures a == b
  {
    CardinalityOfDifference(b, a);
    assert |b - a| == 0;
  }

  lemma {:induction false} DistinctCount(s: seq<string>)
    requires StrictlyOrdered(s, true)
    ensures |Elems(s)| == |s|
  {
    if s != [] {
      assert forall x :: x in s[1..] ==> x != s[0] by {
        forall x | x in s[1..] ensures x != s[0] {
          var j :| 0 <= j < |s[1..]| && s[1..][j] == x;
          assert s[j + 1] == x;
          LexLessIrreflexive(x);
        }
      }
      assert StrictlyOrdered(s[1..], true);
      DistinctCount(s[1..]);
      assert Elems(s) == Elems(s[1..]) + {s[0]};
    }
  }
}
