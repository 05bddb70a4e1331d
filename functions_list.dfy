/** Model of frontend/src/pages/FunctionsList.tsx: the functions of the route's workspace, the
    search filter over them, the empty and no-match states, and the row actions. */
module FunctionsList {
  import opened Wrappers
  import opened Text
  import Lists
  import AppContext

  type FunctionConfig = AppContext.FunctionConfig

  function InWorkspace(workspaceId: string): FunctionConfig -> bool {
    (f: FunctionConfig) => f.workspaceId == workspaceId
  }

  /** `functions.filter(fn => fn.workspaceId === workspaceId)`: the cached functions of this
      workspace, in cache order. */
  function WorkspaceFunctions(fs: seq<FunctionConfig>, workspaceId: string): (r: seq<FunctionConfig>)
    ensures Lists.Sublist(r, fs)
    ensures forall i :: 0 <= i < |r| ==> r[i].workspaceId == workspaceId
    ensures forall f :: f in fs && f.workspaceId == workspaceId ==> f in r
    ensures forall f :: multiset(r)[f] == if f.workspaceId == workspaceId then multiset(fs)[f] else 0
  {
    Lists.Filter(fs, InWorkspace(workspaceId))
  }

  /** The search: the lower-cased query occurs in the lower-cased name or description. */
  predicate Matches(f: FunctionConfig, query: string) {
    Contains(Lower(f.name), Lower(query)) || Contains(Lower(f.description), Lower(query))
  }

  function MatchesQuery(query: string): FunctionConfig -> bool {
    (f: FunctionConfig) => Matches(f, query)
  }

  /** The rows the table shows: the workspace's functions that match the query, in order. */
  function FilteredFunctions(fs: seq<FunctionConfig>, workspaceId: string, query: string): (r: seq<FunctionConfig>)
    ensures Lists.Sublist(r, WorkspaceFunctions(fs, workspaceId))
    ensures forall i :: 0 <= i < |r| ==> r[i].workspaceId == workspaceId && Matches(r[i], query)
    ensures forall f :: f in fs && f.workspaceId == workspaceId && Matches(f, query) ==> f in r
    ensures forall f :: multiset(r)[f] == if f.workspaceId == workspaceId && Matches(f, query) then multiset(fs)[f] else 0
  {
    Lists.Filter(WorkspaceFunctions(fs, workspaceId), MatchesQuery(query))
  }

  /** An empty query matches every function of the workspace. */
  lemma EmptyQueryMatchesAll(fs: seq<FunctionConfig>, workspaceId: string)
    ensures FilteredFunctions(fs, workspaceId, "") == WorkspaceFunctions(fs, workspaceId)
  {
    var w := WorkspaceFunctions(fs, workspaceId);
    assert Lower("") == "";
    forall i | 0 <= i < |w| ensures MatchesQuery("")(w[i]) {
      ContainsEmpty(Lower(w[i].name));
    }
    Lists.FilterKeepsAll(w, MatchesQuery(""));
  }

  lemma LowerIdempotent(s: string)
    ensures Lower(Lower(s)) == Lower(s)
  {
  }

  /** The search ignores the case of the query: typing it in upper or lower case gives the same
      rows. */
  lemma SearchIgnoresQueryCase(fs: seq<FunctionConfig>, workspaceId: string, query: string)
    ensures FilteredFunctions(fs, workspaceId, Lower(query)) == FilteredFunctions(fs, workspaceId, query)
  {
    LowerIdempotent(query);
    var w := WorkspaceFunctions(fs, workspaceId);
    SameFilter(w, MatchesQuery(Lower(query)), MatchesQuery(query));
  }

  /** Two conditions that agree on every function filter a list the same way. */
  lemma {:induction false} SameFilter(xs: seq<FunctionConfig>, p: FunctionConfig -> bool, q: FunctionConfig -> bool)
    requires forall i :: 0 <= i < |xs| ==> p(xs[i]) == q(xs[i])
    ensures Lists.Filter(xs, p) == Lists.Filter(xs, q)
    decreases |xs|
  {
    if xs != [] {
      SameFilter(xs[1..], p, q);
    }
  }

  /** A name that contains the query, in any case, is a match. */
  lemma NameOccurrenceMatches(f: FunctionConfig, query: string, i: nat)
    requires i + |query| <= |f.name| && Lower(f.name)[i..i + |query|] == Lower(query)
    ensures Matches(f, query)
  {
    ContainsAt(Lower(f.name), Lower(query), i);
  }

  /** Conversely, a match has an occurrence of the query, in any case, in the name or in the
      description. */
  lemma MatchHasOccurrence(f: FunctionConfig, query: string) returns (inName: bool, i: nat)
    requires Matches(f, query)
    ensures var text := if inName then Lower(f.name) else Lower(f.description);
      i + |Lower(query)| <= |text| && text[i..i + |Lower(query)|] == Lower(query)
  {
    if Contains(Lower(f.name), Lower(query)) {
      inName := true;
      i := ContainsHasPosition(Lower(f.name), Lower(query));
    } else {
      inName := false;
      i := ContainsHasPosition(Lower(f.description), Lower(query));
    }
  }

  /** handleToggleStatus's choice: 'disabled' for an active function, 'active' for any other. */
  function ToggledStatus(status: string): (r: string)
    ensures r == "disabled" <==> status == "active"
    ensures r == "active" <==> status != "active"
  {
    if status == "active" then "disabled" else "active"
  }

  /** Between the two statuses the toggle offers, toggling twice is the identity. */
  lemma ToggleStatusTwice(status: string)
    requires status == "active" || status == "disabled"
    ensures ToggledStatus(ToggledStatus(status)) == status
  {
  }

  /** What the page renders below the search box. */
  datatype ListView = EmptyState | NoMatch | Rows(functions: seq<FunctionConfig>)

  function View(fs: seq<FunctionConfig>, workspaceId: string, query: string): (r: ListView)
    ensures r.EmptyState? <==> WorkspaceFunctions(fs, workspaceId) == []
    ensures r.NoMatch? <==> WorkspaceFunctions(fs, workspaceId) != [] && FilteredFunctions(fs, workspaceId, query) == []
    ensures r.Rows? ==> r.functions == FilteredFunctions(fs, workspaceId, query) && r.functions != []
  {
    if |WorkspaceFunctions(fs, workspaceId)| == 0 then EmptyState
    else if |FilteredFunctions(fs, workspaceId, query)| == 0 then NoMatch
    else Rows(FilteredFunctions(fs, workspaceId, query))
  }

  /** The empty state shows exactly when no cached function belongs to the workspace, and the
      no-match message exactly when some does but none of those matches the query. */
  lemma ViewStates(fs: seq<FunctionConfig>, workspaceId: string, query: string)
    ensures View(fs, workspaceId, query).EmptyState? <==> forall i :: 0 <= i < |fs| ==> fs[i].workspaceId != workspaceId
    ensures View(fs, workspaceId, query).NoMatch? <==>
      (exists i :: 0 <= i < |fs| && fs[i].workspaceId == workspaceId)
      && (forall i :: 0 <= i < |fs| && fs[i].workspaceId == workspaceId ==> !Matches(fs[i], query))
  {
    var w := WorkspaceFunctions(fs, workspaceId);
    Lists.FilterEmptyIff(fs, InWorkspace(workspaceId));
    Lists.FilterEmptyIff(w, MatchesQuery(query));
    if forall i :: 0 <= i < |w| ==> !Matches(w[i], query) {
      forall i | 0 <= i < |fs| && fs[i].workspaceId == workspaceId ensures !Matches(fs[i], query) {
        assert fs[i] in fs;
        var j :| 0 <= j < |w| && w[j] == fs[i];
      }
    }
    if forall i :: 0 <= i < |fs| && fs[i].workspaceId == workspaceId ==> !Matches(fs[i], query) {
      forall i | 0 <= i < |w| ensures !Matches(w[i], query) {
        var j :| 0 <= j < |fs| && fs[j] == w[i];
      }
    }
  }

  /** The change handleToggleStatus passes to updateFunction: the status alone. */
  function StatusChange(status: string): AppContext.FunctionChanges {
    AppContext.FunctionChanges(None, None, None, None, None, None, None, Some(status))
  }

  /** handleToggleStatus: asks updateFunction for the toggled status; because updateFunction
      does not forward status, the request it makes carries an empty patch. */
  method ToggleStatus(app: AppContext.AppState, id: string, currentStatus: string, encode: string -> string,
                      reply: Result<FunctionConfig, string>)
    returns (requested: string, sent: Option<AppContext.UpdateFunctionData>)
    modifies app
    ensures requested == ToggledStatus(currentStatus)
    ensures sent.Some? <==> AppContext.Selected(old(app.currentWorkspaceId))
    ensures sent.Some? ==> sent.value == AppContext.UpdateFunctionData(None, None, None, None, None, None)
    ensures AppContext.Selected(old(app.currentWorkspaceId)) && reply.Ok? ==>
      app.functions == AppContext.Replace(old(app.functions), AppContext.FunctionId, id, reply.value)
    ensures !AppContext.Selected(old(app.currentWorkspaceId)) || reply.Err? ==> app.functions == old(app.functions)
    ensures app.workspaces == old(app.workspaces) && app.executionLogs == old(app.executionLogs)
    ensures app.currentWorkspaceId == old(app.currentWorkspaceId)
  {
    requested := ToggledStatus(currentStatus);
    var _, s := app.UpdateFunction(id, StatusChange(requested), encode, reply);
    AppContext.FunctionPatchFields(StatusChange(requested), encode);
    sent := s;
  }

  /** handleDeleteFunction: deletes only after the user confirms. */
  method DeleteFunction(app: AppContext.AppState, id: string, confirmed: bool, reply: Result<(), string>)
    returns (called: bool)
    modifies app
    ensures called <==> confirmed && AppContext.Selected(old(app.currentWorkspaceId))
    ensures !confirmed ==> unchanged(app)
    ensures called && reply.Ok? ==> app.functions == AppContext.Without(old(app.functions), AppContext.FunctionId, id)
    ensures called && reply.Ok? ==>
      app.workspaces == AppContext.Decremented(old(app.workspaces), old(app.currentWorkspaceId).value)
    ensures !called || reply.Err? ==> app.functions == old(app.functions) && app.workspaces == old(app.workspaces)
    ensures app.executionLogs == old(app.executionLogs) && app.currentWorkspaceId == old(app.currentWorkspaceId)
  {
    called := false;
    if confirmed {
      var _, c := app.DeleteFunction(id, reply);
      called := c;
    }
  }
}
