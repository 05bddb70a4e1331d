/** Model of frontend/src/pages/NewFunction.tsx: the new-function form, its handlers, and the
    submit that validates the form, builds the environment map and calls createFunction. */
module NewFunction {
  import opened Wrappers
  import opened Text
  import Lists
  import AppContext

  /** One row of the environment-variable editor. */
  datatype EnvVar = EnvVar(key: string, value: string)

  datatype EnvField = Key | Value

  const Runtime: string := "Python 3.12"
  const InitialMemory: string := "256"
  const InitialTimeout: string := "30"
  const InitialMethods: seq<string> := ["GET", "POST"]
  const BlankEnvVar: EnvVar := EnvVar("", "")

  // ---- the HTTP method checkboxes ----

  /** The filter condition that drops one method. */
  function Differs(m: string): string -> bool {
    x => x != m
  }

  /** handleMethodToggle's update: a selected method is removed (every copy of it), an
      unselected one is appended at the end. */
  function Toggle(ms: seq<string>, m: string): (r: seq<string>)
    ensures m in r <==> m !in ms
    ensures forall x :: x != m ==> (x in r <==> x in ms)
    ensures m in ms ==> Lists.Sublist(r, ms)
    ensures m !in ms ==> |r| == |ms| + 1 && r[|ms|] == m && r[..|ms|] == ms
  {
    if m in ms then Lists.Filter(ms, Differs(m)) else ms + [m]
  }

  /** Toggling a method twice restores whether it is selected, and when it was not selected
      restores the list exactly. */
  lemma ToggleTwice(ms: seq<string>, m: string)
    ensures m in Toggle(Toggle(ms, m), m) <==> m in ms
    ensures m !in ms ==> Toggle(Toggle(ms, m), m) == ms
  {
    if m !in ms {
      var p := Differs(m);
      forall i | 0 <= i < |ms| ensures p(ms[i]) {
        assert ms[i] in ms;
      }
      Lists.FilterKeepsAll(ms, p);
      assert !p(m);
      assert Lists.Filter([m], p) == Lists.Filter([m][1..], p) == [];
      Lists.FilterAppend(ms, [m], p);
    }
  }

  // ---- the environment-variable rows ----

  /** handleRemoveEnvVar's update: `envVars.filter((_, i) => i !== index)`. */
  function RemoveAt(es: seq<EnvVar>, index: int): (r: seq<EnvVar>)
    ensures 0 <= index < |es| ==> |r| == |es| - 1
    ensures 0 <= index < |es| ==> forall i :: 0 <= i < |r| ==> r[i] == es[if i < index then i else i + 1]
    ensures !(0 <= index < |es|) ==> r == es
  {
    if 0 <= index < |es| then es[..index] + es[index + 1..] else es
  }

  /** Removing the row just added restores the rows. */
  lemma RemoveUndoesAdd(es: seq<EnvVar>)
    ensures RemoveAt(es + [BlankEnvVar], |es|) == es
  {
    assert (es + [BlankEnvVar])[..|es|] == es;
  }

  /** handleEnvVarChange's update: one field of the row at index set to value. */
  function SetField(es: seq<EnvVar>, index: int, field: EnvField, value: string): seq<EnvVar> {
    seq(|es|, i requires 0 <= i < |es| =>
      if i == index then (if field == Key then es[i].(key := value) else es[i].(value := value)) else es[i])
  }

  /** Changing a field touches only that field of that row. */
  lemma SetFieldOnly(es: seq<EnvVar>, index: int, field: EnvField, value: string)
    ensures |SetField(es, index, field, value)| == |es|
    ensures forall i :: 0 <= i < |es| && i != index ==> SetField(es, index, field, value)[i] == es[i]
    ensures 0 <= index < |es| && field == Key ==>
      SetField(es, index, field, value)[index] == EnvVar(value, es[index].value)
    ensures 0 <= index < |es| && field == Value ==>
      SetField(es, index, field, value)[index] == EnvVar(es[index].key, value)
  {
  }

  // ---- the environment map handleSubmit builds ----

  /** The reduce of handleSubmit: rows in order, each with a non-blank key stored under its
      untrimmed key, a later row overwriting an earlier one. */
  function EnvMap(es: seq<EnvVar>): map<string, string>
    decreases |es|
  {
    if es == [] then map[]
    else
      var acc := EnvMap(es[..|es| - 1]);
      var e := es[|es| - 1];
      if Trim(e.key) != "" then acc[e.key := e.value] else acc
  }

  /** A key is in the map exactly when some row has it and it is not blank. */
  lemma {:induction false} EnvMapKeys(es: seq<EnvVar>, k: string)
    ensures k in EnvMap(es) <==> Trim(k) != "" && exists i :: 0 <= i < |es| && es[i].key == k
    decreases |es|
  {
    if es != [] {
      var init := es[..|es| - 1];
      EnvMapKeys(init, k);
      if exists i :: 0 <= i < |es| && es[i].key == k {
        var i :| 0 <= i < |es| && es[i].key == k;
        if i < |init| {
          assert init[i] == es[i];
        }
      }
      if exists i :: 0 <= i < |init| && init[i].key == k {
        var i :| 0 <= i < |init| && init[i].key == k;
        assert es[i] == init[i];
      }
    }
  }

  /** The value stored under a key comes from the last row with that key. */
  lemma {:induction false} EnvMapLastWins(es: seq<EnvVar>, k: string) returns (i: nat)
    requires k in EnvMap(es)
    ensures i < |es| && es[i].key == k && EnvMap(es)[k] == es[i].value
    ensures forall j :: i < j < |es| ==> es[j].key != k
    decreases |es|
  {
    EnvMapKeys(es, k);
    var init := es[..|es| - 1];
    var e := es[|es| - 1];
    if Trim(e.key) != "" && e.key == k {
      i := |es| - 1;
    } else {
      i := EnvMapLastWins(init, k);
      assert es[i] == init[i];
      forall j | i < j < |es| ensures es[j].key != k {
        if j < |init| {
          assert es[j] == init[j];
        }
      }
    }
  }

  /** The reduce of handleSubmit, which fills its accumulator in place. */
  method BuildEnvironment(es: seq<EnvVar>) returns (env: map<string, string>)
    ensures env == EnvMap(es)
  {
    env := map[];
    var i := 0;
    while i < |es|
      invariant 0 <= i <= |es|
      invariant env == EnvMap(es[..i])
    {
      assert es[..i + 1][..i] == es[..i];
      if Trim(es[i].key) != "" {
        env := env[es[i].key := es[i].value];
      }
      i := i + 1;
    }
    assert es[..|es|] == es;
  }

  // ---- parseInt on the memory and timeout fields ----

  predicate IsDigit(c: char) {
    '0' <= c <= '9'
  }

  predicate AllDigits(s: string) {
    forall i :: 0 <= i < |s| ==> IsDigit(s[i])
  }

  /** The length of the run of decimal digits at the start of s. */
  function DigitRun(s: string): (n: nat)
    ensures n <= |s|
    ensures AllDigits(s[..n])
    ensures n < |s| ==> !IsDigit(s[n])
    decreases |s|
  {
    if |s| > 0 && IsDigit(s[0]) then
      var m := DigitRun(s[1..]);
      assert s[..1 + m] == [s[0]] + s[1..][..m];
      1 + m
    else 0
  }

  function DigitsValue(s: string): nat
    requires AllDigits(s)
    decreases |s|
  {
    if s == [] then 0 else DigitsValue(s[..|s| - 1]) * 10 + (s[|s| - 1] as int - '0' as int)
  }

  /** `parseInt(s)` in base 10: leading whitespace skipped, an optional sign, then the longest
      run of digits; no digits at all is NaN (None). */
  function ParseInt(s: string): Option<int> {
    var t := TrimStart(s);
    var negative := |t| > 0 && t[0] == '-';
    var u := if |t| > 0 && (t[0] == '-' || t[0] == '+') then t[1..] else t;
    var n := DigitRun(u);
    if n == 0 then None
    else
      var v: int := DigitsValue(u[..n]);
      Some(if negative then -v else v)
  }

  function DigitChar(d: nat): char
    requires d < 10
  {
    ('0' as int + d) as char
  }

  /** A natural number written in decimal, as a number input holds it. */
  function DecimalText(n: nat): (s: string)
    ensures |s| > 0 && AllDigits(s)
    decreases n
  {
    if n < 10 then [DigitChar(n)] else DecimalText(n / 10) + [DigitChar(n % 10)]
  }

  lemma {:induction false} DecimalTextValue(n: nat)
    ensures DigitsValue(DecimalText(n)) == n
    decreases n
  {
    if n >= 10 {
      DecimalTextValue(n / 10);
      var s := DecimalText(n);
      assert s[..|s| - 1] == DecimalText(n / 10);
    }
  }

  lemma {:induction false} DigitRunStops(d: string, rest: string)
    requires AllDigits(d)
    requires rest == [] || !IsDigit(rest[0])
    ensures DigitRun(d + rest) == |d|
    decreases |d|
  {
    if d == [] {
      assert d + rest == rest;
    } else {
      assert (d + rest)[1..] == d[1..] + rest;
      DigitRunStops(d[1..], rest);
    }
  }

  /** parseInt reads back a decimal number, ignoring whatever follows it from the first
      non-digit on (so "30" gives 30 and "1e3" gives 1). */
  lemma ParseIntDecimal(n: nat, rest: string)
    requires rest == [] || !IsDigit(rest[0])
    ensures ParseInt(DecimalText(n) + rest) == Some(n)
  {
    var d := DecimalText(n);
    var s := d + rest;
    assert s[0] == d[0] && IsDigit(s[0]);
    assert TrimStart(s) == s;
    DigitRunStops(d, rest);
    assert s[..|d|] == d;
    DecimalTextValue(n);
  }

  // ---- submitting ----

  /** Where the page navigates after a successful submit: the new function's detail page. */
  function NavigationTarget(workspaceId: string, created: AppContext.FunctionConfig): (r: string)
    ensures StartsWith(r, "/workspaces/" + workspaceId + "/functions/")
    ensures EndsWith(r, created.id)
  {
    "/workspaces/" + workspaceId + "/functions/" + created.id
  }

  /** Where the page navigates as written: `fn` is the unawaited Promise returned by
      createFunction, so `fn.id` is undefined and renders as "undefined". */
  function NavigationTargetAsWritten(workspaceId: string): string {
    "/workspaces/" + workspaceId + "/functions/" + "undefined"
  }

  /** The corrected target tells created functions apart: different ids, different pages. */
  lemma NavigationTargetDistinguishes(workspaceId: string, f: AppContext.FunctionConfig, g: AppContext.FunctionConfig)
    requires f.id != g.id
    ensures NavigationTarget(workspaceId, f) != NavigationTarget(workspaceId, g)
  {
    var p := "/workspaces/" + workspaceId + "/functions/";
    assert NavigationTarget(workspaceId, f)[|p|..] == f.id;
    assert NavigationTarget(workspaceId, g)[|p|..] == g.id;
  }

  /** As written, the target does not depend on the function created: it is never the page of
      a function whose id is not literally "undefined". */
  lemma NavigationAsWrittenMissesFunction(workspaceId: string, created: AppContext.FunctionConfig)
    requires created.id != "undefined"
    ensures NavigationTargetAsWritten(workspaceId) != NavigationTarget(workspaceId, created)
  {
    var p := "/workspaces/" + workspaceId + "/functions/";
    assert NavigationTargetAsWritten(workspaceId)[|p|..] == "undefined";
    assert NavigationTarget(workspaceId, created)[|p|..] == created.id;
  }

  datatype SubmitOutcome =
    | NameRequired
    | MethodRequired
    | Submitted(draft: AppContext.FunctionDraft, result: Result<AppContext.FunctionConfig, AppContext.Failure>,
                target: string)

  /** The state of the form: the `useState` slots of the page. */
  class NewFunctionForm {
    var name: string
    var description: string
    var memory: string
    var timeout: string
    var httpMethods: seq<string>
    var code: string
    var envVars: seq<EnvVar>

    /** The initial form; the template handler code is a parameter. */
    constructor(defaultCode: string)
      ensures name == "" && description == "" && memory == InitialMemory && timeout == InitialTimeout
      ensures httpMethods == InitialMethods && code == defaultCode && envVars == []
    {
      name := "";
      description := "";
      memory := InitialMemory;
      timeout := InitialTimeout;
      httpMethods := InitialMethods;
      code := defaultCode;
      envVars := [];
    }

    method MethodToggle(m: string)
      modifies this
      ensures httpMethods == Toggle(old(httpMethods), m)
      ensures name == old(name) && description == old(description) && memory == old(memory)
      ensures timeout == old(timeout) && code == old(code) && envVars == old(envVars)
    {
      httpMethods := Toggle(httpMethods, m);
    }

    method AddEnvVar()
      modifies this
      ensures envVars == old(envVars) + [BlankEnvVar]
      ensures name == old(name) && description == old(description) && memory == old(memory)
      ensures timeout == old(timeout) && code == old(code) && httpMethods == old(httpMethods)
    {
      envVars := envVars + [BlankEnvVar];
    }

    method RemoveEnvVar(index: int)
      modifies this
      ensures envVars == RemoveAt(old(envVars), index)
      ensures name == old(name) && description == old(description) && memory == old(memory)
      ensures timeout == old(timeout) && code == old(code) && httpMethods == old(httpMethods)
    {
      envVars := RemoveAt(envVars, index);
    }

    method EnvVarChange(index: int, field: EnvField, value: string)
      modifies this
      ensures envVars == SetField(old(envVars), index, field, value)
      ensures name == old(name) && description == old(description) && memory == old(memory)
      ensures timeout == old(timeout) && code == old(code) && httpMethods == old(httpMethods)
    {
      envVars := SetField(envVars, index, field, value);
    }

    /** The function createFunction is given for the current form. */
    function Draft(workspaceId: string): AppContext.FunctionDraft
      reads this
    {
      AppContext.FunctionDraft(workspaceId, name, Some(description), Runtime, ParseInt(memory),
        ParseInt(timeout), httpMethods, EnvMap(envVars), code)
    }

    /** handleSubmit: refused, without calling createFunction, when the trimmed name is empty or
        no method is selected. Otherwise createFunction is called with the form's draft but not
        awaited: the success toast is shown and the page moves to ".../functions/undefined"
        whatever the request's outcome, while the cache is updated when the reply arrives. */
    method Submit(workspaceId: string, app: AppContext.AppState, encode: string -> string,
                  reply: Result<AppContext.FunctionConfig, string>)
      returns (outcome: SubmitOutcome)
      modifies app
      ensures Trim(name) == "" ==> outcome == NameRequired
      ensures Trim(name) != "" && httpMethods == [] ==> outcome == MethodRequired
      ensures outcome.NameRequired? || outcome.MethodRequired? ==> unchanged(app)
      ensures outcome.Submitted? <==> Trim(name) != "" && httpMethods != []
      ensures outcome.Submitted? ==> outcome.draft == Draft(workspaceId)
      ensures outcome.Submitted? ==> outcome.target == NavigationTargetAsWritten(workspaceId)
      ensures outcome.Submitted? && outcome.result.Ok? ==> app.functions == old(app.functions) + [outcome.result.value]
      ensures outcome.Submitted? ==>
        outcome.result == (if !AppContext.Selected(old(app.currentWorkspaceId)) then Err(AppContext.NoWorkspaceSelected)
                           else if reply.Ok? then Ok(reply.value)
                           else Err(AppContext.RequestFailed(reply.error)))
      ensures outcome.Submitted? && outcome.result.Err? ==> app.functions == old(app.functions)
      ensures outcome.Submitted? && outcome.result.Ok? ==>
        app.workspaces == AppContext.Incremented(old(app.workspaces), old(app.currentWorkspaceId).value)
      ensures outcome.Submitted? && outcome.result.Err? ==> app.workspaces == old(app.workspaces)
      ensures app.executionLogs == old(app.executionLogs) && app.currentWorkspaceId == old(app.currentWorkspaceId)
    {
      if Trim(name) == "" {
        return NameRequired;
      }
      if |httpMethods| == 0 {
        return MethodRequired;
      }
      var env := BuildEnvironment(envVars);
      var draft := AppContext.FunctionDraft(workspaceId, name, Some(description), Runtime,
        ParseInt(memory), ParseInt(timeout), httpMethods, env, code);
      var result, _ := app.CreateFunction(draft, encode, reply);
      outcome := Submitted(draft, result, NavigationTargetAsWritten(workspaceId));
    }
  }
}
