/** Model of backend/app/routers/functions.py: the function endpoints. Create validates in a
    fixed order before writing; update builds its patch field by field and saves new code to
    S3 before touching the table; list and get project stored items onto FunctionConfig. */
module FunctionsRouter {
  import opened Wrappers
  import opened Models
  import opened Database
  import opened Text
  import Timezone

  /** Python truthiness of a stored value. */
  predicate Truthy(v: Value) {
    match v
    case NULL => false
    case S(s) => s != ""
    case N(n) => n != 0
    case L(l) => l != []
    case M(m) => m != map[]
    case Stamp(_, _) => true
  }

  /** `fromisoformat(item["lastDeployed"]) if item.get("lastDeployed") else None`: a missing or
      falsy value reads as None; a stored timestamp is read back; anything else fails. */
  function LastDeployedAttr(item: Item): Option<Option<Timezone.DateTime>> {
    if "lastDeployed" !in item || !Truthy(item["lastDeployed"]) then Some(None)
    else if item["lastDeployed"].Stamp? then Some(Some(item["lastDeployed"].t))
    else None
  }

  /** The FunctionConfig constructor call shared by every handler, with lastDeployed given. */
  function Project(item: Item, lastDeployed: Option<Option<Timezone.DateTime>>): Option<FunctionConfig> {
    var id :- StrAttr(item, "id");
    var workspaceId :- StrAttr(item, "workspaceId");
    var name :- StrAttr(item, "name");
    var description :- OptStrAttr(item, "description", Some(""));
    var runtime :- StrAttr(item, "runtime");
    var memory :- IntAttr(item, "memory");
    var timeout :- IntAttr(item, "timeout");
    var methods :- ListAttr(item, "httpMethods");
    var env :- MapAttr(item, "environmentVariables");
    var code :- StrAttr(item, "code");
    var invocationUrl :- OptStrAttr(item, "invocationUrl", None);
    var status :- StrAttr(item, "status");
    var lastModified :- StampAttr(item, "lastModified");
    var deployed :- lastDeployed;
    var invocations :- IntAttrOr(item, "invocations24h", 0);
    var errors :- IntAttrOr(item, "errors24h", 0);
    var avgDuration :- IntAttrOr(item, "avgDuration", 0);
    Some(FunctionConfig(id, workspaceId, name, description, runtime, memory, timeout, methods, env, code,
                        invocationUrl, status, lastModified, deployed, invocations, errors, avgDuration))
  }

  /** The view list, get and update return: lastDeployed is None when absent or null, the
      counters default to 0, description to "" and invocationUrl to None. */
  function FunctionOut(item: Item): (r: Option<FunctionConfig>)
    ensures r.Some? ==> StrAttr(item, "id") == Some(r.value.id) && StampAttr(item, "lastModified") == Some(r.value.lastModified)
    ensures r.Some? && ("lastDeployed" !in item || item["lastDeployed"] == NULL) ==> r.value.lastDeployed.None?
    ensures r.Some? && "invocations24h" !in item ==> r.value.invocations24h == 0
    ensures r.Some? && "errors24h" !in item ==> r.value.errors24h == 0
    ensures r.Some? && "avgDuration" !in item ==> r.value.avgDuration == 0
    ensures r.Some? && "description" !in item ==> r.value.description == Some("")
    ensures r.Some? && "invocationUrl" !in item ==> r.value.invocationUrl.None?
  {
    Project(item, LastDeployedAttr(item))
  }

  /** The view create returns: lastDeployed is None whatever the item holds. */
  function CreateOut(item: Item): (r: Option<FunctionConfig>)
    ensures r.Some? ==> r.value.lastDeployed.None?
    ensures r.Some? ==> StrAttr(item, "id") == Some(r.value.id)
  {
    Project(item, Some(None))
  }

  function FunctionViews(items: seq<Item>): (r: Option<seq<FunctionConfig>>)
    ensures r.Some? <==> forall i :: 0 <= i < |items| ==> FunctionOut(items[i]).Some?
    ensures r.Some? ==> |r.value| == |items| && forall i :: 0 <= i < |items| ==> FunctionOut(items[i]) == Some(r.value[i])
  {
    if items == [] then Some([])
    else
      match (FunctionOut(items[0]), FunctionViews(items[1..]))
      case (Some(f), Some(fs)) => Some([f] + fs)
      case _ => None
  }

  /** The dict create_function hands to the table: every field of the validated request. */
  function DataOf(req: FunctionCreate): FunctionData {
    FunctionData(req.name, if req.description.Some? then Given(req.description.value) else Null,
                 Given(req.runtime), Given(req.memory), Given(req.timeout), Given(req.httpMethods),
                 Given(req.environmentVariables), req.code)
  }

  /** The response to a successful create: the request's fields, status "active", no
      invocation URL, never deployed, zero counters, lastModified the creation time. */
  function CreatedConfig(ws: string, fn: string, req: FunctionCreate, nowUtc: int): FunctionConfig {
    FunctionConfig(fn, ws, req.name, req.description, req.runtime, req.memory, req.timeout,
                   req.httpMethods, req.environmentVariables, req.code, None, "active",
                   Timezone.DateTime(nowUtc, None), None, 0, 0, 0)
  }

  /** The item create_function stores projects onto exactly the documented response. */
  lemma CreatedFunctionView(ws: string, fn: string, req: FunctionCreate, nowUtc: int)
    ensures CreateOut(NewFunctionItem(ws, fn, DataOf(req), Timezone.DateTime(nowUtc, None))) == Some(CreatedConfig(ws, fn, req, nowUtc))
    ensures FunctionOut(NewFunctionItem(ws, fn, DataOf(req), Timezone.DateTime(nowUtc, None))) == Some(CreatedConfig(ws, fn, req, nowUtc))
  {
    CreatedIdentity(ws, fn, req, nowUtc);
    CreatedSettings(ws, fn, req, nowUtc);
    CreatedState(ws, fn, req, nowUtc);
  }

  lemma CreatedIdentity(ws: string, fn: string, req: FunctionCreate, nowUtc: int)
    ensures var item := NewFunctionItem(ws, fn, DataOf(req), Timezone.DateTime(nowUtc, None));
      && StrAttr(item, "id") == Some(fn) && StrAttr(item, "workspaceId") == Some(ws)
      && StrAttr(item, "name") == Some(req.name) && StrAttr(item, "code") == Some(req.code)
      && OptStrAttr(item, "description", Some("")) == Some(req.description)
  {
    CreatedOwner(ws, fn, req, nowUtc);
    CreatedSource(ws, fn, req, nowUtc);
  }

  lemma CreatedOwner(ws: string, fn: string, req: FunctionCreate, nowUtc: int)
    ensures var item := NewFunctionItem(ws, fn, DataOf(req), Timezone.DateTime(nowUtc, None));
      && StrAttr(item, "id") == Some(fn) && StrAttr(item, "workspaceId") == Some(ws)
  {
  }

  lemma CreatedSource(ws: string, fn: string, req: FunctionCreate, nowUtc: int)
    ensures var item := NewFunctionItem(ws, fn, DataOf(req), Timezone.DateTime(nowUtc, None));
      && StrAttr(item, "name") == Some(req.name) && StrAttr(item, "code") == Some(req.code)
      && OptStrAttr(item, "description", Some("")) == Some(req.description)
  {
  }

  lemma CreatedSettings(ws: string, fn: string, req: FunctionCreate, nowUtc: int)
    ensures var item := NewFunctionItem(ws, fn, DataOf(req), Timezone.DateTime(nowUtc, None));
      && StrAttr(item, "runtime") == Some(req.runtime)
      && IntAttr(item, "memory") == Some(req.memory) && IntAttr(item, "timeout") == Some(req.timeout)
      && ListAttr(item, "httpMethods") == Some(req.httpMethods)
      && MapAttr(item, "environmentVariables") == Some(req.environmentVariables)
  {
    CreatedLimits(ws, fn, req, nowUtc);
    CreatedRouting(ws, fn, req, nowUtc);
  }

  lemma CreatedLimits(ws: string, fn: string, req: FunctionCreate, nowUtc: int)
    ensures var item := NewFunctionItem(ws, fn, DataOf(req), Timezone.DateTime(nowUtc, None));
      && StrAttr(item, "runtime") == Some(req.runtime)
      && IntAttr(item, "memory") == Some(req.memory) && IntAttr(item, "timeout") == Some(req.timeout)
  {
  }

  lemma CreatedRouting(ws: string, fn: string, req: FunctionCreate, nowUtc: int)
    ensures var item := NewFunctionItem(ws, fn, DataOf(req), Timezone.DateTime(nowUtc, None));
      && ListAttr(item, "httpMethods") == Some(req.httpMethods)
      && MapAttr(item, "environmentVariables") == Some(req.environmentVariables)
  {
  }

  lemma CreatedState(ws: string, fn: string, req: FunctionCreate, nowUtc: int)
    ensures var item := NewFunctionItem(ws, fn, DataOf(req), Timezone.DateTime(nowUtc, None));
      && StrAttr(item, "status") == Some("active") && OptStrAttr(item, "invocationUrl", None) == Some(None)
      && StampAttr(item, "lastModified") == Some(Timezone.DateTime(nowUtc, None))
      && LastDeployedAttr(item) == Some(None)
      && IntAttrOr(item, "invocations24h", 0) == Some(0) && IntAttrOr(item, "errors24h", 0) == Some(0)
      && IntAttrOr(item, "avgDuration", 0) == Some(0)
  {
    CreatedLifecycle(ws, fn, req, nowUtc);
    CreatedCounters(ws, fn, req, nowUtc);
  }

  lemma CreatedLifecycle(ws: string, fn: string, req: FunctionCreate, nowUtc: int)
    ensures var item := NewFunctionItem(ws, fn, DataOf(req), Timezone.DateTime(nowUtc, None));
      && StrAttr(item, "status") == Some("active") && OptStrAttr(item, "invocationUrl", None) == Some(None)
      && StampAttr(item, "lastModified") == Some(Timezone.DateTime(nowUtc, None))
      && LastDeployedAttr(item) == Some(None)
  {
  }

  lemma CreatedCounters(ws: string, fn: string, req: FunctionCreate, nowUtc: int)
    ensures var item := NewFunctionItem(ws, fn, DataOf(req), Timezone.DateTime(nowUtc, None));
      && IntAttrOr(item, "invocations24h", 0) == Some(0) && IntAttrOr(item, "errors24h", 0) == Some(0)
      && IntAttrOr(item, "avgDuration", 0) == Some(0)
  {
  }

  /** create_function: 404 for a missing workspace, then 400 for code that is not base64, then
      400 for an empty method list, all before any write; otherwise the function is stored
      and counted, its source saved to S3, and a failure from there on is 500 CREATE_ERROR. */
  method CreateFunction(db: DynamoDBClient, s3: S3Client, ws: string, req: FunctionCreate, uid: string,
                        nowUtc: int, codec: Codec, s3Reachable: bool)
    returns (r: Result<FunctionConfig, ApiError>)
    requires db.Valid()
    modifies db, s3
    ensures db.Valid()
    ensures WorkspaceKey(ws) !in old(db.table) ==>
      r == Err(NotFound) && db.table == old(db.table) && s3.objects == old(s3.objects)
    ensures WorkspaceKey(ws) in old(db.table) && !codec.accepts(req.code) ==>
      r == Err(InvalidField("code")) && db.table == old(db.table) && s3.objects == old(s3.objects)
    ensures WorkspaceKey(ws) in old(db.table) && codec.accepts(req.code) && req.httpMethods == [] ==>
      r == Err(InvalidField("httpMethods")) && db.table == old(db.table) && s3.objects == old(s3.objects)
    ensures WorkspaceKey(ws) in old(db.table) && codec.accepts(req.code) && req.httpMethods != [] ==>
      var fn := "fn-" + ShortId(uid);
      var written := old(db.table)[FunctionKey(ws, fn) := NewFunctionItem(ws, fn, DataOf(req), Timezone.DateTime(nowUtc, None))];
      && AddCount(written, ws, 1).Some?
      && db.table == AddCount(written, ws, 1).value
      && (codec.decode(req.code).Some? && s3Reachable ==>
            r == Ok(CreatedConfig(ws, fn, req, nowUtc))
            && s3.objects == old(s3.objects)[CodeKey(ws, fn) := codec.decode(req.code).value])
      && (codec.decode(req.code).None? || !s3Reachable ==>
            r == Err(ApiError(500, "CREATE_ERROR", None)) && s3.objects == old(s3.objects))
  {
    var workspace := db.GetWorkspace(ws);
    if workspace.None? {
      return Err(NotFound);
    }
    if !codec.accepts(req.code) {
      return Err(InvalidField("code"));
    }
    if req.httpMethods == [] {
      return Err(InvalidField("httpMethods"));
    }
    var fn := "fn-" + ShortId(uid);
    var item, counted := db.CreateFunction(ws, uid, DataOf(req), Timezone.DateTime(nowUtc, None));
    if counted.Err? {
      return Err(ApiError(500, "CREATE_ERROR", None));
    }
    var saved := s3.SaveCode(ws, fn, req.code, codec, s3Reachable);
    if saved.Err? {
      return Err(ApiError(500, "CREATE_ERROR", None));
    }
    CreatedFunctionView(ws, fn, req, nowUtc);
    var view := CreateOut(item);
    r := if view.Some? then Ok(view.value) else Err(ApiError(500, "CREATE_ERROR", None));
  }

  /** list_functions: 404 for a missing workspace; otherwise the view of every function of the
      workspace in query order, or 500 LIST_ERROR when one cannot be projected. */
  method ListFunctions(db: DynamoDBClient, ws: string) returns (r: Result<seq<FunctionConfig>, ApiError>, ghost sks: seq<string>)
    ensures WorkspaceKey(ws) !in db.table ==> r == Err(NotFound)
    ensures WorkspaceKey(ws) in db.table ==>
      && StrictlyOrdered(sks, false)
      && (forall sk :: sk in sks <==> sk in QueryKeys(db.table, WorkspacePrefix + ws, FunctionPrefix))
      && (forall i :: 0 <= i < |sks| ==> (WorkspacePrefix + ws, sks[i]) in db.table)
      && (r.Ok? <==> forall i :: 0 <= i < |sks| ==> FunctionOut(db.table[(WorkspacePrefix + ws, sks[i])]).Some?)
      && (r.Err? ==> r.error == ApiError(500, "LIST_ERROR", None))
      && (r.Ok? ==> |r.value| == |sks|)
      && (r.Ok? ==> forall i :: 0 <= i < |sks| ==> FunctionOut(db.table[(WorkspacePrefix + ws, sks[i])]) == Some(r.value[i]))
  {
    var workspace := db.GetWorkspace(ws);
    if workspace.None? {
      sks := [];
      return Err(NotFound), sks;
    }
    var items;
    items, sks := db.ListFunctions(ws);
    var views := FunctionViews(items);
    r := if views.Some? then Ok(views.value) else Err(ApiError(500, "LIST_ERROR", None));
  }

  /** get_function: 404 for a missing function, else its view. */
  function GetFunction(db: DynamoDBClient, ws: string, fn: string): (r: Result<FunctionConfig, ApiError>)
    reads db
    ensures r == Err(NotFound) <==> FunctionKey(ws, fn) !in db.table
    ensures r.Ok? ==> FunctionOut(db.table[FunctionKey(ws, fn)]) == Some(r.value)
  {
    match db.GetFunction(ws, fn)
    case None => Err(NotFound)
    case Some(item) =>
      match FunctionOut(item)
      case Some(f) => Ok(f)
      case None => Err(Internal)
  }

  // ---- update_function's patch ----

  /** The number of FunctionUpdate fields update_function may copy into update_data. */
  const OfferCount := 9

  /** The j-th field update_function tests, in source order, with the attribute value it
      carries when the request supplies it. */
  function Offer(u: FunctionUpdate, j: nat): (string, Option<Value>)
    requires j < OfferCount
  {
    if j == 0 then ("name", if u.name.Some? then Some(S(u.name.value)) else None)
    else if j == 1 then ("description", if u.description.Some? then Some(S(u.description.value)) else None)
    else if j == 2 then ("runtime", if u.runtime.Some? then Some(S(u.runtime.value)) else None)
    else if j == 3 then ("memory", if u.memory.Some? then Some(N(u.memory.value)) else None)
    else if j == 4 then ("timeout", if u.timeout.Some? then Some(N(u.timeout.value)) else None)
    else if j == 5 then ("httpMethods", if u.httpMethods.Some? then Some(L(u.httpMethods.value)) else None)
    else if j == 6 then ("environmentVariables", if u.environmentVariables.Some? then Some(M(u.environmentVariables.value)) else None)
    else if j == 7 then ("status", if u.status.Some? then Some(S(u.status.value)) else None)
    else ("code", if u.code.Some? then Some(S(u.code.value)) else None)
  }

  /** The entry an offer adds to update_data: one when the field was supplied, none otherwise. */
  function Piece(o: (string, Option<Value>)): seq<(string, Value)> {
    if o.1.Some? then [(o.0, o.1.value)] else []
  }

  /** The entries the first k offers add to update_data, in order. */
  function Collect(u: FunctionUpdate, k: nat): seq<(string, Value)>
    requires k <= OfferCount
  {
    if k == 0 then [] else Collect(u, k - 1) + Piece(Offer(u, k - 1))
  }

  /** update_data as the handler builds it. */
  function Patch(u: FunctionUpdate): seq<(string, Value)> {
    Collect(u, OfferCount)
  }

  /** Every collected entry comes from an offer with that name and value. */
  lemma {:induction false} CollectSound(u: FunctionUpdate, k: nat, i: nat) returns (j: nat)
    requires k <= OfferCount && i < |Collect(u, k)|
    ensures j < k && Offer(u, j).0 == Collect(u, k)[i].0 && Offer(u, j).1 == Some(Collect(u, k)[i].1)
  {
    if i < |Collect(u, k - 1)| {
      j := CollectSound(u, k - 1, i);
    } else {
      j := k - 1;
    }
  }

  /** Every offered value is collected. */
  lemma {:induction false} CollectComplete(u: FunctionUpdate, k: nat, j: nat) returns (i: nat)
    requires k <= OfferCount && j < k && Offer(u, j).1.Some?
    ensures i < |Collect(u, k)| && Collect(u, k)[i] == (Offer(u, j).0, Offer(u, j).1.value)
  {
    if j < k - 1 {
      i := CollectComplete(u, k - 1, j);
    } else {
      i := |Collect(u, k)| - 1;
    }
  }

  /** The offered fields have distinct names. */
  lemma OfferNamesDistinct(u: FunctionUpdate, j: nat, l: nat)
    requires j < l < OfferCount
    ensures Offer(u, j).0 != Offer(u, l).0
  {
  }

  /** Collected entries have distinct names. */
  lemma {:induction false} CollectDistinct(u: FunctionUpdate, k: nat)
    requires k <= OfferCount
    ensures DistinctNames(Collect(u, k))
  {
    if k > 0 {
      CollectDistinct(u, k - 1);
      var c := Collect(u, k);
      var ci := Collect(u, k - 1);
      forall i, i2 | 0 <= i < i2 < |c| ensures c[i].0 != c[i2].0 {
        if i2 >= |ci| {
          var j := CollectSound(u, k - 1, i);
          assert c[i] == ci[i];
          OfferNamesDistinct(u, j, k - 1);
        } else {
          assert c[i] == ci[i] && c[i2] == ci[i2];
        }
      }
    }
  }

  /** The index of the offer for a field name, if update_function copies that field. */
  function OfferIndex(a: string): Option<nat> {
    if a == "name" then Some(0)
    else if a == "description" then Some(1)
    else if a == "runtime" then Some(2)
    else if a == "memory" then Some(3)
    else if a == "timeout" then Some(4)
    else if a == "httpMethods" then Some(5)
    else if a == "environmentVariables" then Some(6)
    else if a == "status" then Some(7)
    else if a == "code" then Some(8)
    else None
  }

  /** The value a field of FunctionUpdate contributes to the patch, when the request supplies it. */
  function Supplied(u: FunctionUpdate, a: string): Option<Value> {
    match OfferIndex(a)
    case Some(j) => if j < OfferCount then Offer(u, j).1 else None
    case None => None
  }

  lemma OfferFacts(u: FunctionUpdate, j: nat)
    requires j < OfferCount
    ensures OfferIndex(Offer(u, j).0) == Some(j) && Offer(u, j).0 != "invocationUrl"
    ensures Offer(u, j).1.Some? ==> Offer(u, j).1.value != NULL
  {
  }

  lemma OfferOf(u: FunctionUpdate, a: string) returns (j: nat)
    requires Supplied(u, a).Some?
    ensures j < OfferCount && Offer(u, j).0 == a && Offer(u, j).1 == Supplied(u, a)
  {
    j := OfferIndex(a).value;
  }

  /** The patch holds one non-null entry per supplied field among name, description, runtime,
      memory, timeout, httpMethods, environmentVariables, status and code, and nothing else:
      in particular never invocationUrl. */
  lemma PatchIsExact(u: FunctionUpdate)
    ensures var p := Patch(u);
      && DistinctNames(p)
      && (forall i :: 0 <= i < |p| ==> p[i].1 != NULL && Supplied(u, p[i].0) == Some(p[i].1))
      && (forall a :: Supplied(u, a).Some? ==> exists i :: 0 <= i < |p| && p[i] == (a, Supplied(u, a).value))
      && (forall i :: 0 <= i < |p| ==> p[i].0 != "invocationUrl")
  {
    var p := Patch(u);
    CollectDistinct(u, OfferCount);
    forall i | 0 <= i < |p|
      ensures p[i].1 != NULL && Supplied(u, p[i].0) == Some(p[i].1) && p[i].0 != "invocationUrl"
    {
      var j := CollectSound(u, OfferCount, i);
      OfferFacts(u, j);
    }
    forall a | Supplied(u, a).Some?
      ensures exists i :: 0 <= i < |p| && p[i] == (a, Supplied(u, a).value)
    {
      var j := OfferOf(u, a);
      var i := CollectComplete(u, OfferCount, j);
    }
  }

  /** After a successful update_function every supplied field holds its new value, lastModified
      is the update time, and every other attribute, invocationUrl included, is unchanged. */
  lemma UpdateSetsSuppliedFields(t: Table, k: Key, u: FunctionUpdate, now: Timezone.IsoDateTime)
    ensures var r := PatchFunction(t, k, Patch(u), now);
      && r.Ok?
      && r.value["lastModified"] == StampOf(now)
      && (forall a :: Supplied(u, a).Some? ==> a in r.value && r.value[a] == Supplied(u, a).value)
      && (forall a :: a in Base(t, k) && a != "lastModified" && Supplied(u, a).None? ==> a in r.value && r.value[a] == Base(t, k)[a])
  {
    PatchIsExact(u);
    var p := Patch(u);
    PatchFunctionEffect(t, k, p, now);
    NonNullSets(p);
  }

  /** The patch passes the table's own checks and never overwrites the item id. */
  lemma PatchAccepted(u: FunctionUpdate)
    ensures DistinctNames(Patch(u))
    ensures forall a :: a in NonNull(Patch(u)) ==> OfferIndex(a).Some?
  {
    PatchIsExact(u);
    NonNullSets(Patch(u));
  }

  /** The patch names neither key attribute, nor lastModified, nor the item id: the table accepts
      it and the item keeps its identity. */
  lemma PatchSafe(u: FunctionUpdate)
    ensures DistinctNames(Patch(u))
    ensures "PK" !in NonNull(Patch(u)) && "SK" !in NonNull(Patch(u))
    ensures "lastModified" !in NonNull(Patch(u)) && "id" !in NonNull(Patch(u))
  {
    PatchAccepted(u);
    ReservedNotOffered();
  }

  /** update_function copies none of the key attributes, lastModified or the id. */
  lemma ReservedNotOffered()
    ensures OfferIndex("PK").None? && OfferIndex("SK").None?
    ensures OfferIndex("lastModified").None? && OfferIndex("id").None?
  {
  }

  /** One `if request.<field> is not None: update_data[field] = request.<field>` statement of
      update_function: the offered entry is appended when the field was supplied. */
  method Supply(data: seq<(string, Value)>, o: (string, Option<Value>)) returns (d: seq<(string, Value)>)
    ensures d == data + Piece(o)
    ensures o.1.None? ==> d == data
    ensures o.1.Some? ==> |d| == |data| + 1 && d[|data|] == (o.0, o.1.value)
  {
    d := data;
    if o.1.Some? {
      d := d + [(o.0, o.1.value)];
    }
  }

  /** The eight statements of update_function that copy the plain fields into update_data, in
      order: name, description, runtime, memory, timeout, httpMethods, environmentVariables
      and status. */
  method FieldUpdates(req: FunctionUpdate) returns (data: seq<(string, Value)>)
    ensures data == Collect(req, 8)
  {
    data := [];
    data := Supply(data, Offer(req, 0));
    assert data == Collect(req, 1);
    data := Supply(data, Offer(req, 1));
    assert data == Collect(req, 2);
    data := Supply(data, Offer(req, 2));
    assert data == Collect(req, 3);
    data := Supply(data, Offer(req, 3));
    assert data == Collect(req, 4);
    data := Supply(data, Offer(req, 4));
    assert data == Collect(req, 5);
    data := Supply(data, Offer(req, 5));
    assert data == Collect(req, 6);
    data := Supply(data, Offer(req, 6));
    assert data == Collect(req, 7);
    data := Supply(data, Offer(req, 7));
  }

  /** update_function: 404 and no change for a missing function; code that is not base64, or
      that cannot be decoded to text and saved to S3, is 400 VALIDATION_ERROR with the table
      unchanged; otherwise the table item receives the patch and its view is returned. */
  method UpdateFunction(db: DynamoDBClient, s3: S3Client, ws: string, fn: string, req: FunctionUpdate,
                        nowUtc: int, codec: Codec, s3Reachable: bool)
    returns (r: Result<FunctionConfig, ApiError>)
    requires db.Valid()
    modifies db, s3
    ensures db.Valid()
    ensures FunctionKey(ws, fn) !in old(db.table) ==>
      r == Err(NotFound) && db.table == old(db.table) && s3.objects == old(s3.objects)
    ensures FunctionKey(ws, fn) in old(db.table) && req.code.Some? &&
            (!codec.accepts(req.code.value) || codec.decode(req.code.value).None? || !s3Reachable) ==>
      r == Err(InvalidField("code")) && db.table == old(db.table) && s3.objects == old(s3.objects)
    ensures FunctionKey(ws, fn) in old(db.table) &&
            (req.code.None? || (codec.accepts(req.code.value) && codec.decode(req.code.value).Some? && s3Reachable)) ==>
      && PatchFunction(old(db.table), FunctionKey(ws, fn), Patch(req), Timezone.DateTime(nowUtc, None)).Ok?
      && db.table == old(db.table)[FunctionKey(ws, fn) :=
           PatchFunction(old(db.table), FunctionKey(ws, fn), Patch(req), Timezone.DateTime(nowUtc, None)).value]
      && (req.code.None? ==> s3.objects == old(s3.objects))
      && (req.code.Some? ==> s3.objects == old(s3.objects)[CodeKey(ws, fn) := codec.decode(req.code.value).value])
      && r != Err(NotFound)
      && (r.Ok? ==> FunctionOut(db.table[FunctionKey(ws, fn)]) == Some(r.value))
  {
    var existing := db.GetFunction(ws, fn);
    if existing.None? {
      return Err(NotFound);
    }
    var data := FieldUpdates(req);
    PatchEndsWithCode(req);
    if req.code.Some? {
      if !codec.accepts(req.code.value) {
        return Err(InvalidField("code"));
      }
      data := data + [("code", S(req.code.value))];
      var saved := s3.SaveCode(ws, fn, req.code.value, codec, s3Reachable);
      if saved.Err? {
        return Err(InvalidField("code"));
      }
    }
    r := ApplyPatch(db, ws, fn, data, req, Timezone.DateTime(nowUtc, None));
  }

  /** The code entry, when there is one, comes last in update_data. */
  lemma PatchEndsWithCode(req: FunctionUpdate)
    ensures req.code.None? ==> Patch(req) == Collect(req, 8)
    ensures req.code.Some? ==> Patch(req) == Collect(req, 8) + [("code", S(req.code.value))]
  {
    assert Patch(req) == Collect(req, 8) + Piece(Offer(req, 8));
    if req.code.None? {
      assert Collect(req, 8) + [] == Collect(req, 8);
    }
  }

  /** The table write of update_function once any new code is stored: the patch is applied to
      the stored item and the updated item's view returned. */
  method ApplyPatch(db: DynamoDBClient, ws: string, fn: string, data: seq<(string, Value)>, req: FunctionUpdate,
                    now: Timezone.IsoDateTime)
    returns (r: Result<FunctionConfig, ApiError>)
    requires db.Valid() && FunctionKey(ws, fn) in db.table && data == Patch(req)
    modifies db
    ensures db.Valid()
    ensures PatchFunction(old(db.table), FunctionKey(ws, fn), Patch(req), now).Ok?
    ensures db.table == old(db.table)[FunctionKey(ws, fn) := PatchFunction(old(db.table), FunctionKey(ws, fn), Patch(req), now).value]
    ensures r != Err(NotFound)
    ensures r.Ok? ==> FunctionOut(db.table[FunctionKey(ws, fn)]) == Some(r.value)
  {
    PatchSafe(req);
    var updated := db.UpdateFunction(ws, fn, data, now);
    var view := if updated.Ok? then FunctionOut(updated.value) else None;
    r := if view.Some? then Ok(view.value) else Err(Internal);
  }

  /** delete_function: 404 and no change for a missing function; otherwise the S3 source is
      deleted when S3 answers (a failure there is ignored) and the function and all its logs
      leave the table, the workspace counter dropping by one. */
  method DeleteFunction(db: DynamoDBClient, s3: S3Client, ws: string, fn: string, s3Reachable: bool)
    returns (r: Result<(), ApiError>)
    requires db.Valid()
    modifies db, s3
    ensures db.Valid()
    ensures FunctionKey(ws, fn) !in old(db.table) ==>
      r == Err(NotFound) && db.table == old(db.table) && s3.objects == old(s3.objects)
    ensures FunctionKey(ws, fn) in old(db.table) ==>
      && s3.objects == (if s3Reachable then old(s3.objects) - {CodeKey(ws, fn)} else old(s3.objects))
      && FunctionKey(ws, fn) !in db.table && LogKeys(db.table, fn) == {}
      && var removed := RemoveFunction(old(db.table), ws, fn);
         (AddCount(removed, ws, -1).Some? ==> r == Ok(()) && db.table == AddCount(removed, ws, -1).value)
         && (AddCount(removed, ws, -1).None? ==> r == Err(Internal) && db.table == removed)
  {
    var existing := db.GetFunction(ws, fn);
    if existing.None? {
      return Err(NotFound);
    }
    var _ := s3.DeleteCode(ws, fn, s3Reachable);
    var deleted := db.DeleteFunction(ws, fn);
    r := if deleted.Ok? then Ok(()) else Err(Internal);
  }
}
