/** Model of frontend/src/pages/WorkspaceDashboard.tsx: the workspace lookup, the totals over the
    workspace's functions, and the most recent executions of those functions. */
module WorkspaceDashboard {
  import opened Wrappers
  import Lists
  import AppContext
  import FunctionsList

  type Workspace = AppContext.Workspace
  type FunctionConfig = AppContext.FunctionConfig
  type ExecutionLog = AppContext.ExecutionLog

  const RecentLimit: nat := 10

  function HasWorkspaceId(id: string): Workspace -> bool {
    (w: Workspace) => w.id == id
  }

  function HasFunctionId(id: string): FunctionConfig -> bool {
    (f: FunctionConfig) => f.id == id
  }

  /** `fn?.workspaceId === workspaceId` for the function `functions.find` returns for the log:
      the first cached function with the log's functionId belongs to the workspace. */
  predicate OwnedBy(fs: seq<FunctionConfig>, workspaceId: string, log: ExecutionLog) {
    var k := Lists.FindIndex(fs, HasFunctionId(log.functionId));
    k.Some? && fs[k.value].workspaceId == workspaceId
  }

  function Owned(fs: seq<FunctionConfig>, workspaceId: string): ExecutionLog -> bool {
    (log: ExecutionLog) => OwnedBy(fs, workspaceId, log)
  }

  /** recentLogs: the first ten cached logs whose function belongs to the workspace, in cache
      order (newest first, since invokeFunction prepends). */
  function RecentLogs(logs: seq<ExecutionLog>, fs: seq<FunctionConfig>, workspaceId: string): (r: seq<ExecutionLog>)
    ensures var owned := Lists.Filter(logs, Owned(fs, workspaceId));
      |r| == (if |owned| < RecentLimit then |owned| else RecentLimit) && r == owned[..|r|]
    ensures Lists.Sublist(r, logs)
    ensures forall i :: 0 <= i < |r| ==> OwnedBy(fs, workspaceId, r[i])
    ensures |r| < RecentLimit ==> forall l :: l in logs && OwnedBy(fs, workspaceId, l) ==> l in r
  {
    var owned := Lists.Filter(logs, Owned(fs, workspaceId));
    var r := Lists.Take(owned, RecentLimit);
    OwnedPrefix(logs, fs, workspaceId, |r|);
    assert owned[..|r|] == r;
    r
  }

  /** Any prefix of the owned logs is an order-preserving sublist of the cache holding only
      owned logs. */
  lemma OwnedPrefix(logs: seq<ExecutionLog>, fs: seq<FunctionConfig>, workspaceId: string, n: nat)
    requires n <= |Lists.Filter(logs, Owned(fs, workspaceId))|
    ensures var r := Lists.Filter(logs, Owned(fs, workspaceId))[..n];
      && Lists.Sublist(r, logs)
      && forall i :: 0 <= i < |r| ==> OwnedBy(fs, workspaceId, r[i])
  {
    var owned := Lists.Filter(logs, Owned(fs, workspaceId));
    Lists.SublistTake(owned, logs, n);
    forall i | 0 <= i < n ensures OwnedBy(fs, workspaceId, owned[..n][i]) {
      assert owned[..n][i] == owned[i];
    }
  }

  function Invocations(f: FunctionConfig): int { f.invocations24h }

  function Errors(f: FunctionConfig): int { f.errors24h }

  function Duration(f: FunctionConfig): int { f.avgDuration }

  /** The error rate in percent, 0 when there were no invocations (`toFixed(2)` is not modelled:
      the value is exact). */
  function ErrorRate(totalInvocations: int, totalErrors: int): (r: real)
    ensures totalInvocations <= 0 ==> r == 0.0
    ensures totalInvocations > 0 ==> r * (totalInvocations as real) == (totalErrors as real) * 100.0
  {
    if totalInvocations > 0 then (totalErrors as real / totalInvocations as real) * 100.0 else 0.0
  }

  /** The average of the per-function average durations, rounded as `Math.round` does (half
      up), 0 when there are no functions. */
  function AverageDuration(fs: seq<FunctionConfig>): (r: int)
    ensures fs == [] ==> r == 0
    ensures fs != [] ==> 2 * |fs| * r <= 2 * Lists.SumOf(fs, Duration) + |fs| < 2 * |fs| * (r + 1)
  {
    if |fs| > 0 then (2 * Lists.SumOf(fs, Duration) + |fs|) / (2 * |fs|) else 0
  }

  datatype Stats = Stats(totalInvocations: int, totalErrors: int, errorRate: real, avgDuration: int)

  function StatsOf(fs: seq<FunctionConfig>): Stats {
    var invocations := Lists.SumOf(fs, Invocations);
    var errors := Lists.SumOf(fs, Errors);
    Stats(invocations, errors, ErrorRate(invocations, errors), AverageDuration(fs))
  }

  datatype DashboardView =
    | NotFound
    | Dashboard(workspace: Workspace, functions: seq<FunctionConfig>, stats: Stats, recentLogs: seq<ExecutionLog>)

  /** The page: not found when no cached workspace has the id; otherwise the first workspace
      with that id, the totals over its functions, and its recent logs. */
  function View(ws: seq<Workspace>, fs: seq<FunctionConfig>, logs: seq<ExecutionLog>, workspaceId: string): (r: DashboardView)
    ensures r.NotFound? <==> forall i :: 0 <= i < |ws| ==> ws[i].id != workspaceId
    ensures r.Dashboard? ==> r.workspace.id == workspaceId && r.workspace in ws
    ensures r.Dashboard? ==> r.functions == FunctionsList.WorkspaceFunctions(fs, workspaceId)
    ensures r.Dashboard? ==> r.stats == StatsOf(r.functions) && r.recentLogs == RecentLogs(logs, fs, workspaceId)
  {
    match Lists.FindIndex(ws, HasWorkspaceId(workspaceId))
    case None => NotFound
    case Some(k) =>
      var own := FunctionsList.WorkspaceFunctions(fs, workspaceId);
      Dashboard(ws[k], own, StatsOf(own), RecentLogs(logs, fs, workspaceId))
  }

  /** The totals count this workspace's functions only: a function of another workspace added
      to the cache changes neither the totals nor the average. */
  lemma TotalsIgnoreOtherWorkspaces(fs: seq<FunctionConfig>, g: FunctionConfig, workspaceId: string)
    requires g.workspaceId != workspaceId
    ensures FunctionsList.WorkspaceFunctions(fs + [g], workspaceId) == FunctionsList.WorkspaceFunctions(fs, workspaceId)
    ensures StatsOf(FunctionsList.WorkspaceFunctions(fs + [g], workspaceId)) == StatsOf(FunctionsList.WorkspaceFunctions(fs, workspaceId))
  {
    var p := FunctionsList.InWorkspace(workspaceId);
    Lists.FilterAppend(fs, [g], p);
    assert !p(g);
    assert Lists.Filter([g], p) == Lists.Filter([g][1..], p) == [];
    assert Lists.Filter(fs, p) + [] == Lists.Filter(fs, p);
  }

  /** With every function's errors between 0 and its invocations, the error rate lies between
      0 and 100 percent. */
  lemma ErrorRateIsPercentage(fs: seq<FunctionConfig>)
    requires forall i :: 0 <= i < |fs| ==> 0 <= fs[i].errors24h <= fs[i].invocations24h
    ensures 0.0 <= StatsOf(fs).errorRate <= 100.0
  {
    var zero := (f: FunctionConfig) => 0;
    Lists.SumOfMonotone(fs, zero, Errors);
    Lists.SumOfMonotone(fs, Errors, Invocations);
    ZeroSum(fs);
    var inv := Lists.SumOf(fs, Invocations);
    var err := Lists.SumOf(fs, Errors);
    if inv > 0 {
      RatioWithin(err, inv);
    }
  }

  lemma {:induction false} ZeroSum(fs: seq<FunctionConfig>)
    ensures Lists.SumOf(fs, (f: FunctionConfig) => 0) == 0
    decreases |fs|
  {
    if fs != [] {
      ZeroSum(fs[..|fs| - 1]);
    }
  }

  lemma RatioWithin(err: int, inv: int)
    requires 0 <= err <= inv && inv > 0
    ensures 0.0 <= (err as real / inv as real) * 100.0 <= 100.0
  {
    var q := err as real / inv as real;
    assert q * (inv as real) == err as real;
    RealCancel(inv as real, q, 1.0);
    RealCancel(inv as real, 0.0, q);
  }

  /** Dividing both sides of c * a <= c * b by a positive c. */
  lemma RealCancel(c: real, a: real, b: real)
    requires c > 0.0 && c * a <= c * b
    ensures a <= b
  {
  }

  /** The rounded average lies between the smallest and the largest per-function average. */
  lemma AverageWithinBounds(fs: seq<FunctionConfig>, lo: int, hi: int)
    requires fs != []
    requires forall i :: 0 <= i < |fs| ==> lo <= fs[i].avgDuration <= hi
    ensures lo <= AverageDuration(fs) <= hi
  {
    Lists.SumOfBounds(fs, Duration, lo, hi);
    RoundedMeanBounds(|fs|, Lists.SumOf(fs, Duration), AverageDuration(fs), lo, hi);
  }

  /** A mean of n values within [lo, hi], rounded half up, is within [lo, hi]. */
  lemma RoundedMeanBounds(n: int, s: int, r: int, lo: int, hi: int)
    requires n > 0 && n * lo <= s <= n * hi
    requires 2 * n * r <= 2 * s + n < 2 * n * (r + 1)
    ensures lo <= r <= hi
  {
    assert 2 * n * lo <= 2 * s by {
      assert 2 * n * lo == 2 * (n * lo);
    }
    assert 2 * s + n < 2 * n * (hi + 1) by {
      assert 2 * n * (hi + 1) == 2 * (n * hi) + 2 * n;
    }
    IntCancel(2 * n, lo, r + 1);
    IntCancel(2 * n, r, hi + 1);
  }

  /** Dividing both sides of c * a < c * b by a positive c. */
  lemma IntCancel(c: int, a: int, b: int)
    requires c > 0 && c * a < c * b
    ensures a < b
  {
  }
}
