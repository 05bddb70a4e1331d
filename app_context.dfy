/** Model of frontend/src/contexts/AppContext.tsx: the browser-side cache of workspaces, functions
    and execution logs, and the operations that call the API and then update that cache.

    API replies are parameters: `Ok` carries the record the server returned, already mapped into
    the cached shape, and `Err` stands for a request that threw. */
module AppContext {
  import opened Wrappers
  import Lists

  datatype Workspace = Workspace(
    id: string, name: string, description: string, createdAt: int,
    functionCount: int, invocations24h: int)

  datatype FunctionConfig = FunctionConfig(
    id: string, workspaceId: string, name: string, description: string, runtime: string,
    memory: int, timeout: int, httpMethods: seq<string>, environmentVariables: map<string, string>,
    code: string, invocationUrl: Option<string>, status: string, lastModified: int,
    lastDeployed: Option<int>, invocations24h: int, errors24h: int, avgDuration: int)

  datatype ExecutionLog = ExecutionLog(
    id: string, functionId: string, timestamp: int, status: string, duration: int,
    statusCode: int, logs: seq<string>, level: string)

  /** What createFunction is given: a FunctionConfig without the fields the server assigns.
      memory and timeout come from `parseInt`, so they may be NaN (None). */
  datatype FunctionDraft = FunctionDraft(
    workspaceId: string, name: string, description: Option<string>, runtime: string,
    memory: Option<int>, timeout: Option<int>, httpMethods: seq<string>,
    environmentVariables: map<string, string>, code: string)

  /** The fields of a `Partial<Workspace>` that updateWorkspace looks at. */
  datatype WorkspaceChanges = WorkspaceChanges(name: Option<string>, description: Option<string>)

  /** The fields of a `Partial<FunctionConfig>` that callers pass to updateFunction. */
  datatype FunctionChanges = FunctionChanges(
    name: Option<string>, description: Option<string>, memory: Option<int>, timeout: Option<int>,
    httpMethods: Option<seq<string>>, environmentVariables: Option<map<string, string>>,
    code: Option<string>, status: Option<string>)

  // ---- request bodies sent to the API ----

  datatype CreateWorkspaceData = CreateWorkspaceData(name: string, description: string)

  datatype UpdateWorkspaceData = UpdateWorkspaceData(name: Option<string>, description: Option<string>)

  datatype CreateFunctionData = CreateFunctionData(
    name: string, description: string, runtime: string, memory: Option<int>, timeout: Option<int>,
    httpMethods: seq<string>, environmentVariables: map<string, string>, code: string)

  datatype UpdateFunctionData = UpdateFunctionData(
    description: Option<string>, memory: Option<int>, timeout: Option<int>,
    httpMethods: Option<seq<string>>, environmentVariables: Option<map<string, string>>,
    code: Option<string>)

  /** Why an operation threw. */
  datatype Failure = NoWorkspaceSelected | FunctionNotFound | RequestFailed(reason: string)

  /** `if (currentWorkspaceId)`: a workspace is selected and its id is not the empty string. */
  predicate Selected(current: Option<string>) {
    current.Some? && current.value != ""
  }

  /** A JavaScript string in a boolean position: defined and not empty. */
  predicate Truthy(s: Option<string>) {
    s.Some? && s.value != ""
  }

  function WorkspaceId(w: Workspace): string { w.id }

  function FunctionId(f: FunctionConfig): string { f.id }

  // ---- the pure list updates the operations apply ----

  /** `xs.filter(x => x.id !== id)`. */
  function Without<T(==,!new)>(xs: seq<T>, idOf: T -> string, id: string): (r: seq<T>)
    ensures Lists.Sublist(r, xs)
    ensures forall i :: 0 <= i < |r| ==> idOf(r[i]) != id
    ensures forall x :: x in xs && idOf(x) != id ==> x in r
    ensures forall x :: multiset(r)[x] == if idOf(x) != id then multiset(xs)[x] else 0
  {
    Lists.Filter(xs, Other(idOf, id))
  }

  /** The filter condition of Without. */
  function Other<T>(idOf: T -> string, id: string): T -> bool {
    x => idOf(x) != id
  }

  /** `xs.map(x => x.id === id ? y : x)`. */
  function Replace<T>(xs: seq<T>, idOf: T -> string, id: string, y: T): seq<T> {
    seq(|xs|, i requires 0 <= i < |xs| => if idOf(xs[i]) == id then y else xs[i])
  }

  /** The functionCount update of createFunction: one more for the workspace with that id. */
  function Incremented(ws: seq<Workspace>, id: string): seq<Workspace> {
    seq(|ws|, i requires 0 <= i < |ws| =>
      if ws[i].id == id then ws[i].(functionCount := ws[i].functionCount + 1) else ws[i])
  }

  /** The functionCount update of deleteFunction: one fewer, but never below 0. */
  function Decremented(ws: seq<Workspace>, id: string): seq<Workspace> {
    seq(|ws|, i requires 0 <= i < |ws| =>
      if ws[i].id == id then ws[i].(functionCount := if ws[i].functionCount - 1 > 0 then ws[i].functionCount - 1 else 0)
      else ws[i])
  }

  predicate CountsNonNegative(ws: seq<Workspace>) {
    forall i :: 0 <= i < |ws| ==> ws[i].functionCount >= 0
  }

  /** The API patch of updateWorkspace: name and description only when truthy. */
  function WorkspacePatch(c: WorkspaceChanges): (r: UpdateWorkspaceData)
    ensures r.name.Some? <==> Truthy(c.name)
    ensures r.description.Some? <==> Truthy(c.description)
    ensures r.name.Some? ==> r.name == c.name
    ensures r.description.Some? ==> r.description == c.description
  {
    UpdateWorkspaceData(
      if Truthy(c.name) then c.name else None,
      if Truthy(c.description) then c.description else None)
  }

  /** The API patch of updateFunction: every defined field among description, memory, timeout,
      httpMethods, environmentVariables and code (the code base64-encoded). */
  function FunctionPatch(c: FunctionChanges, encode: string -> string): UpdateFunctionData {
    UpdateFunctionData(
      c.description, c.memory, c.timeout, c.httpMethods, c.environmentVariables,
      if c.code.Some? then Some(encode(c.code.value)) else None)
  }

  /** The request body of createFunction. */
  function CreateData(d: FunctionDraft, encode: string -> string): CreateFunctionData {
    CreateFunctionData(d.name, d.description.GetOr(""), d.runtime, d.memory, d.timeout,
      d.httpMethods, d.environmentVariables, encode(d.code))
  }

  predicate HasFunction(fs: seq<FunctionConfig>, id: string) {
    exists i :: 0 <= i < |fs| && fs[i].id == id
  }

  // ---- properties of the list updates ----

  /** Replacing by id changes only the entries with that id, each to the new record, keeps the
      length, and doing it twice is the same as once. */
  lemma ReplaceOnlyMatching<T>(xs: seq<T>, idOf: T -> string, id: string, y: T)
    ensures |Replace(xs, idOf, id, y)| == |xs|
    ensures forall i :: 0 <= i < |xs| && idOf(xs[i]) != id ==> Replace(xs, idOf, id, y)[i] == xs[i]
    ensures forall i :: 0 <= i < |xs| && idOf(xs[i]) == id ==> Replace(xs, idOf, id, y)[i] == y
    ensures Replace(Replace(xs, idOf, id, y), idOf, id, y) == Replace(xs, idOf, id, y)
  {
    var r := Replace(xs, idOf, id, y);
    var rr := Replace(r, idOf, id, y);
    assert forall i :: 0 <= i < |r| ==> rr[i] == r[i];
  }

  /** Replacing an id nobody has changes nothing. */
  lemma ReplaceAbsent<T>(xs: seq<T>, idOf: T -> string, id: string, y: T)
    requires forall i :: 0 <= i < |xs| ==> idOf(xs[i]) != id
    ensures Replace(xs, idOf, id, y) == xs
  {
  }

  /** Deleting a function that was just appended, under a fresh id, restores the list. */
  lemma DeleteUndoesCreate(fs: seq<FunctionConfig>, f: FunctionConfig)
    requires !HasFunction(fs, f.id)
    ensures Without(fs + [f], FunctionId, f.id) == fs
  {
    var p := Other(FunctionId, f.id);
    forall i | 0 <= i < |fs| ensures p(fs[i]) {
      assert fs[i].id != f.id;
    }
    Lists.FilterKeepsAll(fs, p);
    assert !p(f);
    assert Lists.Filter([f], p) == Lists.Filter([f][1..], p) == [];
    Lists.FilterAppend(fs, [f], p);
  }

  /** The decrement after an increment restores every count, as long as counts are not negative. */
  lemma DecrementUndoesIncrement(ws: seq<Workspace>, id: string)
    requires CountsNonNegative(ws)
    ensures Decremented(Incremented(ws, id), id) == ws
  {
    var r := Decremented(Incremented(ws, id), id);
    assert forall i :: 0 <= i < |ws| ==> r[i] == ws[i];
  }

  /** Both count updates keep counts non-negative, only touch the workspace with that id, and the
      decrement floors at 0. */
  lemma CountUpdates(ws: seq<Workspace>, id: string)
    ensures CountsNonNegative(ws) ==> CountsNonNegative(Incremented(ws, id))
    ensures CountsNonNegative(ws) ==> CountsNonNegative(Decremented(ws, id))
    ensures forall i :: 0 <= i < |ws| && ws[i].id != id ==> Incremented(ws, id)[i] == ws[i] && Decremented(ws, id)[i] == ws[i]
    ensures forall i :: 0 <= i < |ws| && ws[i].id == id ==>
      Incremented(ws, id)[i] == ws[i].(functionCount := ws[i].functionCount + 1)
    ensures forall i :: 0 <= i < |ws| && ws[i].id == id && ws[i].functionCount <= 0 ==>
      Decremented(ws, id)[i].functionCount == 0
  {
  }

  /** updateFunction never forwards name or status: the patch it sends is the same whatever the
      caller put there. */
  lemma NameAndStatusNeverSent(c: FunctionChanges, name: Option<string>, status: Option<string>, encode: string -> string)
    ensures FunctionPatch(c.(name := name, status := status), encode) == FunctionPatch(c, encode)
  {
  }

  /** The patch sends each of description, memory, timeout, httpMethods, environmentVariables and
      code exactly when the caller defined it, and a status-only change sends an empty patch. */
  lemma FunctionPatchFields(c: FunctionChanges, encode: string -> string)
    ensures var p := FunctionPatch(c, encode);
      && (p.description.Some? <==> c.description.Some?) && (p.memory.Some? <==> c.memory.Some?)
      && (p.timeout.Some? <==> c.timeout.Some?) && (p.httpMethods.Some? <==> c.httpMethods.Some?)
      && (p.environmentVariables.Some? <==> c.environmentVariables.Some?) && (p.code.Some? <==> c.code.Some?)
    ensures (c.description.None? && c.memory.None? && c.timeout.None? && c.httpMethods.None?
      && c.environmentVariables.None? && c.code.None?) ==>
      FunctionPatch(c, encode) == UpdateFunctionData(None, None, None, None, None, None)
  {
  }

  /** The cached state of the application: the `useState` slots of AppProvider. */
  class AppState {
    var workspaces: seq<Workspace>
    var functions: seq<FunctionConfig>
    var executionLogs: seq<ExecutionLog>
    var currentWorkspaceId: Option<string>

    constructor()
      ensures workspaces == [] && functions == [] && executionLogs == [] && currentWorkspaceId == None
    {
      workspaces := [];
      functions := [];
      executionLogs := [];
      currentWorkspaceId := None;
    }

    /** loadWorkspaces: the listed workspaces replace the cache; a failed request keeps it. */
    method LoadWorkspaces(reply: Result<seq<Workspace>, string>)
      modifies this
      ensures workspaces == (if reply.Ok? then reply.value else old(workspaces))
      ensures functions == old(functions) && executionLogs == old(executionLogs)
      ensures currentWorkspaceId == old(currentWorkspaceId)
    {
      if reply.Ok? {
        workspaces := reply.value;
      }
    }

    /** loadFunctions: the listed functions replace the cache; a failed request keeps it. */
    method LoadFunctions(workspaceId: string, reply: Result<seq<FunctionConfig>, string>)
      modifies this
      ensures functions == (if reply.Ok? then reply.value else old(functions))
      ensures workspaces == old(workspaces) && executionLogs == old(executionLogs)
      ensures currentWorkspaceId == old(currentWorkspaceId)
    {
      if reply.Ok? {
        functions := reply.value;
      }
    }

    /** setCurrentWorkspaceId followed by the effect that reacts to it. The effect runs only when
        the id changes: then the functions of the selected workspace are loaded, and with no
        workspace selected the list is emptied. Setting the same id again changes nothing. */
    method SelectWorkspace(id: Option<string>, reply: Result<seq<FunctionConfig>, string>)
      modifies this
      ensures currentWorkspaceId == id
      ensures id == old(currentWorkspaceId) ==> functions == old(functions)
      ensures id != old(currentWorkspaceId) && !Selected(id) ==> functions == []
      ensures id != old(currentWorkspaceId) && Selected(id) ==>
        functions == (if reply.Ok? then reply.value else old(functions))
      ensures workspaces == old(workspaces) && executionLogs == old(executionLogs)
    {
      if id == currentWorkspaceId {
        return;
      }
      currentWorkspaceId := id;
      if Selected(id) {
        LoadFunctions(id.value, reply);
      } else {
        functions := [];
      }
    }

    /** createWorkspace: sends the name and the description or ''; the workspace returned is
        appended to the cache. */
    method CreateWorkspace(name: string, description: Option<string>, reply: Result<Workspace, string>)
      returns (r: Result<Workspace, Failure>, sent: CreateWorkspaceData)
      modifies this
      ensures sent == CreateWorkspaceData(name, description.GetOr(""))
      ensures reply.Ok? ==> r == Ok(reply.value) && workspaces == old(workspaces) + [reply.value]
      ensures reply.Err? ==> r == Err(RequestFailed(reply.error)) && workspaces == old(workspaces)
      ensures functions == old(functions) && executionLogs == old(executionLogs)
      ensures currentWorkspaceId == old(currentWorkspaceId)
    {
      sent := CreateWorkspaceData(name, description.GetOr(""));
      if reply.Err? {
        return Err(RequestFailed(reply.error)), sent;
      }
      workspaces := workspaces + [reply.value];
      r := Ok(reply.value);
    }

    /** updateWorkspace: sends only the truthy name and description; the workspace returned
        replaces every cached workspace with that id. */
    method UpdateWorkspace(id: string, changes: WorkspaceChanges, reply: Result<Workspace, string>)
      returns (r: Result<(), Failure>, sent: UpdateWorkspaceData)
      modifies this
      ensures sent == WorkspacePatch(changes)
      ensures reply.Ok? ==> r.Ok? && workspaces == Replace(old(workspaces), WorkspaceId, id, reply.value)
      ensures reply.Err? ==> r == Err(RequestFailed(reply.error)) && workspaces == old(workspaces)
      ensures functions == old(functions) && executionLogs == old(executionLogs)
      ensures currentWorkspaceId == old(currentWorkspaceId)
    {
      sent := WorkspacePatch(changes);
      if reply.Err? {
        return Err(RequestFailed(reply.error)), sent;
      }
      workspaces := Replace(workspaces, WorkspaceId, id, reply.value);
      r := Ok(());
    }

    /** deleteWorkspace: removes the workspace from the cache and, exactly when it was the
        selected one, clears the selection, which empties the function list. */
    method DeleteWorkspace(id: string, reply: Result<(), string>) returns (r: Result<(), Failure>)
      modifies this
      ensures reply.Err? ==> r == Err(RequestFailed(reply.error))
      ensures reply.Err? ==> workspaces == old(workspaces) && functions == old(functions)
      ensures reply.Err? ==> currentWorkspaceId == old(currentWorkspaceId)
      ensures reply.Ok? ==> r.Ok? && workspaces == Without(old(workspaces), WorkspaceId, id)
      ensures reply.Ok? && old(currentWorkspaceId) == Some(id) ==> currentWorkspaceId == None && functions == []
      ensures reply.Ok? && old(currentWorkspaceId) != Some(id) ==>
        currentWorkspaceId == old(currentWorkspaceId) && functions == old(functions)
      ensures executionLogs == old(executionLogs)
    {
      if reply.Err? {
        return Err(RequestFailed(reply.error));
      }
      workspaces := Without(workspaces, WorkspaceId, id);
      if currentWorkspaceId == Some(id) {
        currentWorkspaceId := None;
        functions := [];
      }
      r := Ok(());
    }

    /** createFunction: throws before any request when no workspace is selected; otherwise sends
        the draft to the selected workspace, appends the function returned and increments the
        functionCount of the selected workspace only. */
    method CreateFunction(draft: FunctionDraft, encode: string -> string, reply: Result<FunctionConfig, string>)
      returns (r: Result<FunctionConfig, Failure>, sent: Option<CreateFunctionData>)
      modifies this
      ensures !Selected(old(currentWorkspaceId)) ==> r == Err(NoWorkspaceSelected) && sent.None?
      ensures Selected(old(currentWorkspaceId)) ==> sent == Some(CreateData(draft, encode))
      ensures Selected(old(currentWorkspaceId)) && reply.Ok? ==>
        && r == Ok(reply.value)
        && functions == old(functions) + [reply.value]
        && workspaces == Incremented(old(workspaces), old(currentWorkspaceId).value)
      ensures Selected(old(currentWorkspaceId)) && reply.Err? ==> r == Err(RequestFailed(reply.error))
      ensures r.Err? ==> functions == old(functions) && workspaces == old(workspaces)
      ensures executionLogs == old(executionLogs) && currentWorkspaceId == old(currentWorkspaceId)
    {
      if !Selected(currentWorkspaceId) {
        return Err(NoWorkspaceSelected), None;
      }
      sent := Some(CreateData(draft, encode));
      if reply.Err? {
        return Err(RequestFailed(reply.error)), sent;
      }
      functions := functions + [reply.value];
      workspaces := Incremented(workspaces, currentWorkspaceId.value);
      r := Ok(reply.value);
    }

    /** updateFunction: throws before any request when no workspace is selected; otherwise sends
        the patch (never name or status) and replaces the cached function with that id. */
    method UpdateFunction(id: string, changes: FunctionChanges, encode: string -> string, reply: Result<FunctionConfig, string>)
      returns (r: Result<(), Failure>, sent: Option<UpdateFunctionData>)
      modifies this
      ensures !Selected(old(currentWorkspaceId)) ==> r == Err(NoWorkspaceSelected) && sent.None?
      ensures Selected(old(currentWorkspaceId)) ==> sent == Some(FunctionPatch(changes, encode))
      ensures Selected(old(currentWorkspaceId)) && reply.Ok? ==>
        r.Ok? && functions == Replace(old(functions), FunctionId, id, reply.value)
      ensures Selected(old(currentWorkspaceId)) && reply.Err? ==> r == Err(RequestFailed(reply.error))
      ensures r.Err? ==> functions == old(functions)
      ensures workspaces == old(workspaces) && executionLogs == old(executionLogs)
      ensures currentWorkspaceId == old(currentWorkspaceId)
    {
      if !Selected(currentWorkspaceId) {
        return Err(NoWorkspaceSelected), None;
      }
      sent := Some(FunctionPatch(changes, encode));
      if reply.Err? {
        return Err(RequestFailed(reply.error)), sent;
      }
      functions := Replace(functions, FunctionId, id, reply.value);
      r := Ok(());
    }

    /** deleteFunction: throws before any request when no workspace is selected; otherwise
        removes every cached function with that id and decrements the selected workspace's
        functionCount, never below 0. */
    method DeleteFunction(id: string, reply: Result<(), string>) returns (r: Result<(), Failure>, called: bool)
      modifies this
      ensures called <==> Selected(old(currentWorkspaceId))
      ensures !called ==> r == Err(NoWorkspaceSelected)
      ensures called && reply.Ok? ==>
        && r.Ok?
        && functions == Without(old(functions), FunctionId, id)
        && workspaces == Decremented(old(workspaces), old(currentWorkspaceId).value)
      ensures called && reply.Err? ==> r == Err(RequestFailed(reply.error))
      ensures r.Err? ==> functions == old(functions) && workspaces == old(workspaces)
      ensures executionLogs == old(executionLogs) && currentWorkspaceId == old(currentWorkspaceId)
    {
      if !Selected(currentWorkspaceId) {
        return Err(NoWorkspaceSelected), false;
      }
      called := true;
      if reply.Err? {
        return Err(RequestFailed(reply.error)), called;
      }
      functions := Without(functions, FunctionId, id);
      workspaces := Decremented(workspaces, currentWorkspaceId.value);
      r := Ok(());
    }

    /** invokeFunction: throws 'No workspace selected', then 'Function not found' for an id
        that is not cached, both before any request; otherwise prepends the log returned. */
    method InvokeFunction(id: string, reply: Result<ExecutionLog, string>) returns (r: Result<ExecutionLog, Failure>, called: bool)
      modifies this
      ensures !Selected(old(currentWorkspaceId)) ==> r == Err(NoWorkspaceSelected) && !called
      ensures Selected(old(currentWorkspaceId)) && !HasFunction(functions, id) ==> r == Err(FunctionNotFound) && !called
      ensures called <==> Selected(old(currentWorkspaceId)) && HasFunction(functions, id)
      ensures called && reply.Ok? ==> r == Ok(reply.value) && executionLogs == [reply.value] + old(executionLogs)
      ensures called && reply.Err? ==> r == Err(RequestFailed(reply.error))
      ensures r.Err? ==> executionLogs == old(executionLogs)
      ensures workspaces == old(workspaces) && functions == old(functions)
      ensures currentWorkspaceId == old(currentWorkspaceId)
    {
      if !Selected(currentWorkspaceId) {
        return Err(NoWorkspaceSelected), false;
      }
      if !HasFunction(functions, id) {
        return Err(FunctionNotFound), false;
      }
      called := true;
      if reply.Err? {
        return Err(RequestFailed(reply.error)), called;
      }
      executionLogs := [reply.value] + executionLogs;
      r := Ok(reply.value);
    }

    /** getFunctionLogs: [] without a request when no workspace is selected; otherwise the logs
        listed replace the cached ones, and a failed request yields [] and keeps the cache. */
    method GetFunctionLogs(functionId: string, reply: Result<seq<ExecutionLog>, string>)
      returns (logs: seq<ExecutionLog>, called: bool)
      modifies this
      ensures called <==> Selected(old(currentWorkspaceId))
      ensures called && reply.Ok? ==> logs == reply.value && executionLogs == reply.value
      ensures !(called && reply.Ok?) ==> logs == [] && executionLogs == old(executionLogs)
      ensures workspaces == old(workspaces) && functions == old(functions)
      ensures currentWorkspaceId == old(currentWorkspaceId)
    {
      if !Selected(currentWorkspaceId) {
        return [], false;
      }
      called := true;
      if reply.Err? {
        return [], called;
      }
      executionLogs := reply.value;
      logs := reply.value;
    }
  }
}
