/** Model of backend/app/routers/workspaces.py: the workspace endpoints. Each handler checks
    that the workspace exists where it needs to, delegates the change to the table, and
    projects the stored item onto the Workspace response model. */
module WorkspacesRouter {
  import opened Wrappers
  import opened Models
  import opened Database
  import Timezone

  /** The Workspace view of a metadata item as list, get and update build it: description
      defaults to "", the counters to 0, and createdAt is shown in KST. None when a required
      attribute is missing or an attribute has the wrong type. */
  function WorkspaceOut(item: Item): (r: Option<Workspace>)
    ensures r.Some? <==>
      && StrAttr(item, "id").Some? && StrAttr(item, "name").Some? && StampAttr(item, "createdAt").Some?
      && OptStrAttr(item, "description", Some("")).Some?
      && IntAttrOr(item, "functionCount", 0).Some? && IntAttrOr(item, "invocations24h", 0).Some?
      && IntAttrOr(item, "errorRate", 0).Some?
    ensures r.Some? ==>
      && r.value.id == StrAttr(item, "id").value
      && r.value.createdAt == Timezone.ToKst(StampAttr(item, "createdAt").value)
      && r.value.createdAt.offset == Some(Timezone.KstOffset)
      && ("description" !in item ==> r.value.description == Some(""))
      && ("functionCount" !in item ==> r.value.functionCount == 0)
      && ("invocations24h" !in item ==> r.value.invocations24h == 0)
      && ("errorRate" !in item ==> r.value.errorRate == 0)
  {
    var id :- StrAttr(item, "id");
    var name :- StrAttr(item, "name");
    var description :- OptStrAttr(item, "description", Some(""));
    var createdAt :- StampAttr(item, "createdAt");
    var functionCount :- IntAttrOr(item, "functionCount", 0);
    var invocations :- IntAttrOr(item, "invocations24h", 0);
    var errorRate :- IntAttrOr(item, "errorRate", 0);
    Some(Workspace(id, name, description, Timezone.ToKst(createdAt), functionCount, invocations, errorRate))
  }

  /** The view of a freshly created workspace: what was asked for, zero counters, and the
      creation time (naive UTC) shown in KST. */
  lemma CreatedWorkspaceView(ws: string, name: string, description: Option<string>, nowUtc: int)
    ensures WorkspaceOut(NewWorkspaceItem(ws, name, description, Timezone.DateTime(nowUtc, None)))
      == Some(Workspace(ws, name, Some(description.GetOr("")), Timezone.ToKst(Timezone.DateTime(nowUtc, None)), 0, 0, 0))
  {
  }

  /** The list comprehension over workspace items: all of them projected, or None as soon as
      one of them cannot be. */
  function WorkspaceViews(items: seq<Item>): (r: Option<seq<Workspace>>)
    ensures r.Some? <==> forall i :: 0 <= i < |items| ==> WorkspaceOut(items[i]).Some?
    ensures r.Some? ==> |r.value| == |items| && forall i :: 0 <= i < |items| ==> WorkspaceOut(items[i]) == Some(r.value[i])
  {
    if items == [] then Some([])
    else
      match (WorkspaceOut(items[0]), WorkspaceViews(items[1..]))
      case (Some(w), Some(ws)) => Some([w] + ws)
      case _ => None
  }

  /** create_workspace: stores a new metadata item and returns its view. */
  method CreateWorkspace(db: DynamoDBClient, req: WorkspaceCreate, uid: string, nowUtc: int)
    returns (r: Result<Workspace, ApiError>)
    requires db.Valid()
    modifies db
    ensures db.Valid()
    ensures var ws := "ws-" + ShortId(uid);
      db.table == old(db.table)[WorkspaceKey(ws) := NewWorkspaceItem(ws, req.name, req.description, Timezone.DateTime(nowUtc, None))]
    ensures r == Ok(Workspace("ws-" + ShortId(uid), req.name, Some(req.description.GetOr("")),
                              Timezone.ToKst(Timezone.DateTime(nowUtc, None)), 0, 0, 0))
  {
    var item := db.CreateWorkspace(uid, req.name, req.description, Timezone.DateTime(nowUtc, None));
    CreatedWorkspaceView("ws-" + ShortId(uid), req.name, req.description, nowUtc);
    var view := WorkspaceOut(item);
    r := if view.Some? then Ok(view.value) else Err(ApiError(500, "CREATE_ERROR", None));
  }

  /** list_workspaces: the view of every workspace in the table, or 500 LIST_ERROR when one of
      them cannot be projected. */
  method ListWorkspaces(db: DynamoDBClient) returns (r: Result<seq<Workspace>, ApiError>, ghost keys: seq<Key>)
    ensures forall k :: k in keys <==> k in db.table && IsWorkspaceKey(k)
    ensures forall i, j :: 0 <= i < j < |keys| ==> keys[i] != keys[j]
    ensures r.Ok? <==> forall i :: 0 <= i < |keys| ==> WorkspaceOut(db.table[keys[i]]).Some?
    ensures r.Err? ==> r.error == ApiError(500, "LIST_ERROR", None)
    ensures r.Ok? ==> |r.value| == |keys| && forall i :: 0 <= i < |keys| ==> WorkspaceOut(db.table[keys[i]]) == Some(r.value[i])
  {
    var items;
    items, keys := db.ListWorkspaces();
    var views := WorkspaceViews(items);
    r := if views.Some? then Ok(views.value) else Err(ApiError(500, "LIST_ERROR", None));
  }

  /** get_workspace: 404 NOT_FOUND for a missing workspace, else its view. */
  function GetWorkspace(db: DynamoDBClient, ws: string): (r: Result<Workspace, ApiError>)
    reads db
    ensures r == Err(NotFound) <==> WorkspaceKey(ws) !in db.table
    ensures r.Ok? ==> WorkspaceOut(db.table[WorkspaceKey(ws)]) == Some(r.value)
  {
    match db.GetWorkspace(ws)
    case None => Err(NotFound)
    case Some(item) =>
      match WorkspaceOut(item)
      case Some(w) => Ok(w)
      case None => Err(Internal)
  }

  /** update_workspace: 404 and no change for a missing workspace; otherwise only the given
      name and description change and the updated item's view is returned. */
  method UpdateWorkspace(db: DynamoDBClient, ws: string, req: WorkspaceUpdate) returns (r: Result<Workspace, ApiError>)
    requires db.Valid()
    modifies db
    ensures db.Valid()
    ensures WorkspaceKey(ws) !in old(db.table) ==> r == Err(NotFound) && db.table == old(db.table)
    ensures WorkspaceKey(ws) in old(db.table) ==>
      && db.table == old(db.table)[WorkspaceKey(ws) := old(db.table)[WorkspaceKey(ws)] + WorkspaceSets(req.name, req.description)]
      && r != Err(NotFound)
      && (r.Ok? ==> WorkspaceOut(db.table[WorkspaceKey(ws)]) == Some(r.value))
  {
    var existing := db.GetWorkspace(ws);
    if existing.None? {
      return Err(NotFound);
    }
    ghost var stored := old(db.table)[WorkspaceKey(ws)];
    var item := db.UpdateWorkspace(ws, req.name, req.description);
    assert Base(old(db.table), WorkspaceKey(ws)) == stored;
    if req.name.None? && req.description.None? {
      assert WorkspaceSets(req.name, req.description) == map[];
      assert stored + map[] == stored;
    }
    var view := if item.Some? then WorkspaceOut(item.value) else None;
    r := if view.Some? then Ok(view.value) else Err(Internal);
  }

  /** delete_workspace: 404 and no change for a missing workspace; otherwise the workspace, its
      functions and their logs are deleted and nothing else changes. */
  method DeleteWorkspace(db: DynamoDBClient, ws: string) returns (r: Result<(), ApiError>)
    requires db.Valid()
    modifies db
    ensures db.Valid()
    ensures WorkspaceKey(ws) !in old(db.table) ==> r == Err(NotFound) && db.table == old(db.table)
    ensures WorkspaceKey(ws) in old(db.table) ==>
      && r == Ok(())
      && (forall k :: k in db.table <==>
            k in old(db.table) && k != WorkspaceKey(ws) && !Cascaded(k, ws, FunctionIds(old(db.table), ws)))
      && (forall k :: k in db.table ==> db.table[k] == old(db.table)[k])
  {
    var existing := db.GetWorkspace(ws);
    if existing.None? {
      return Err(NotFound);
    }
    var deleted := db.DeleteWorkspace(ws);
    r := if deleted.Ok? then Ok(()) else Err(Internal);
  }
}
