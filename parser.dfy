/** The configuration resolver of azext_cdf/parser.py (ConfigParser): the
    schema-validated hook section and the checks made on it, the two-phase
    variable scopes, structural interpolation, the bootstrap order of the
    `cdf.*` keys, the lazy deferral of variables that need provisioning
    results, and their later re-resolution. */
module Parser {
  import opened Values
  import Templates
  import StateStore

  // ---- the hook section of the configuration ----

  datatype OpKind = Az | Cmd | Script | Print | Call

  /** One op of a hook after schema validation (type and mode lower-cased
      and defaulted; `platform` is a string or a list of strings). */
  datatype Op = Op(
    name: Option<string>, description: Option<string>, kind: OpKind,
    platform: Value, interactive: bool, cwd: Option<string>, args: Value)

  /** One hook after schema validation (`lifecycle` is a string or a list
      of strings, `run_if` defaults to "true"). */
  datatype HookDef = HookDef(ops: seq<Op>, lifecycle: Value, description: string, runIf: string)

  /** The hooks section: hook names in declaration order. */
  type Hooks = seq<(string, HookDef)>

  function HookNamesOf(hooks: Hooks): (names: seq<string>)
    ensures |names| == |hooks|
    ensures forall i :: 0 <= i < |hooks| ==> names[i] == hooks[i].0
  {
    if hooks == [] then [] else [hooks[0].0] + HookNamesOf(hooks[1..])
  }

  /** A string or a list of strings, as the schema admits for `lifecycle`
      and `platform`. */
  predicate StrOrStrList(v: Value) {
    v.Str? || (v.List? && forall x :: x in v.items ==> x.Str?)
  }

  /** What schema validation guarantees of the hooks section: a dictionary
      (no name twice) whose lifecycles and platforms are strings or lists. */
  predicate SchemaValid(hooks: Hooks) {
    && (forall i, j :: 0 <= i < j < |hooks| ==> hooks[i].0 != hooks[j].0)
    && (forall i :: 0 <= i < |hooks| ==> StrOrStrList(hooks[i].1.lifecycle))
    && (forall i, k :: 0 <= i < |hooks| && 0 <= k < |hooks[i].1.ops| ==> StrOrStrList(hooks[i].1.ops[k].platform))
  }

  // ---- _validate_hooks ----

  /** The check on one name: its first character may not be '_'; an empty
      name has no first character (an IndexError). */
  function NameError(name: string, what: string): (r: Option<Error>)
    ensures r.None? <==> name != "" && name[0] != '_'
  {
    if name == "" then Some(OtherError("IndexError: string index out of range"))
    else if name[0] == '_' then Some(CliError(what + " '" + name + "' can't start with '_'"))
    else None
  }

  /** The name an op is checked under: an unnamed op is checked as " ". */
  function CheckedOpName(op: Op): string {
    if op.name.Some? then op.name.value else " "
  }

  /** The first failing op name of a hook, in op order. */
  function FirstOpError(ops: seq<Op>): Option<Error>
  {
    if ops == [] then None
    else if NameError(CheckedOpName(ops[0]), "op names").Some? then NameError(CheckedOpName(ops[0]), "op names")
    else FirstOpError(ops[1..])
  }

  /** The error _validate_hooks raises first: hooks in order, each hook's
      name before its ops. */
  function FirstHookError(hooks: Hooks): Option<Error>
  {
    if hooks == [] then None
    else if NameError(hooks[0].0, "Hook names").Some? then NameError(hooks[0].0, "Hook names")
    else if FirstOpError(hooks[0].1.ops).Some? then FirstOpError(hooks[0].1.ops)
    else FirstHookError(hooks[1..])
  }

  /** A name the checks accept. */
  predicate GoodName(name: string) {
    name != "" && name[0] != '_'
  }

  /** Names of hooks and named ops are non-empty and do not start with '_'. */
  predicate HookNamesOk(hooks: Hooks) {
    forall i :: 0 <= i < |hooks| ==>
      GoodName(hooks[i].0)
      && forall k :: 0 <= k < |hooks[i].1.ops| && hooks[i].1.ops[k].name.Some? ==> GoodName(hooks[i].1.ops[k].name.value)
  }

  lemma {:induction false} FirstOpErrorNone(ops: seq<Op>)
    ensures FirstOpError(ops).None? <==>
      forall k :: 0 <= k < |ops| && ops[k].name.Some? ==> GoodName(ops[k].name.value)
  {
    if ops != [] {
      FirstOpErrorNone(ops[1..]);
      assert forall k :: 0 < k < |ops| ==> ops[k] == ops[1..][k - 1];
    }
  }

  /** _validate_hooks accepts exactly the configurations whose hook names
      and op names are non-empty and do not start with '_'; unnamed ops
      always pass. */
  lemma {:induction false} ValidateHooksAccepts(hooks: Hooks)
    ensures FirstHookError(hooks).None? <==> HookNamesOk(hooks)
  {
    if hooks != [] {
      ValidateHooksAccepts(hooks[1..]);
      FirstOpErrorNone(hooks[0].1.ops);
      assert forall i :: 0 < i < |hooks| ==> hooks[i] == hooks[1..][i - 1];
    }
  }

  /** _validate_hooks, as the loop it is. */
  method ValidateHooks(hooks: Hooks) returns (r: Outcome)
    ensures r.Pass? <==> FirstHookError(hooks).None?
    ensures r.Fail? ==> r.error == FirstHookError(hooks).value
  {
    var i := 0;
    while i < |hooks|
      invariant 0 <= i <= |hooks|
      invariant FirstHookError(hooks) == FirstHookError(hooks[i..])
    {
      var e := NameError(hooks[i].0, "Hook names");
      if e.Some? {
        return Fail(e.value);
      }
      var ops := hooks[i].1.ops;
      var k := 0;
      while k < |ops|
        invariant 0 <= k <= |ops|
        invariant FirstOpError(ops) == FirstOpError(ops[k..])
      {
        var oe := NameError(CheckedOpName(ops[k]), "op names");
        if oe.Some? {
          return Fail(oe.value);
        }
        assert ops[k..][1..] == ops[k + 1..];
        k := k + 1;
      }
      assert FirstOpError(ops) == None;
      assert hooks[i..][1..] == hooks[i + 1..];
      i := i + 1;
    }
    return Pass;
  }

  // ---- hooks_ops ----

  /** The names of the named ops, in order (an empty name counts as
      unnamed, being falsy). */
  function NamedOps(ops: seq<Op>): (r: seq<string>)
    ensures forall x :: x in r ==> x != ""
  {
    if ops == [] then []
    else if ops[0].name.Some? && ops[0].name.value != "" then [ops[0].name.value] + NamedOps(ops[1..])
    else NamedOps(ops[1..])
  }

  lemma {:induction false} NamedOpsAppend(ops: seq<Op>, k: nat)
    requires k < |ops|
    ensures NamedOps(ops[..k + 1]) ==
      NamedOps(ops[..k]) + (if ops[k].name.Some? && ops[k].name.value != "" then [ops[k].name.value] else [])
    decreases k
  {
    if k > 0 {
      assert ops[..k + 1][1..] == ops[1..][..k];
      assert ops[..k][1..] == ops[1..][..k - 1];
      NamedOpsAppend(ops[1..], k - 1);
    } else {
      assert ops[..1][1..] == [];
    }
  }

  predicate Distinct(s: seq<string>) {
    forall i, j :: 0 <= i < j < |s| ==> s[i] != s[j]
  }

  /** The op signature of every hook, or the duplicate-name error. */
  predicate NoDuplicateOps(hooks: Hooks) {
    forall i :: 0 <= i < |hooks| ==> Distinct(NamedOps(hooks[i].1.ops))
  }

  /** hooks_ops: each hook maps to the set of its named ops (each with an
      empty entry in the source); a name occurring twice within one hook
      is an error. An empty hooks section gives the empty map. */
  method HooksOps(hooks: Hooks) returns (r: Result<StateStore.HookSignature>)
    requires SchemaValid(hooks)
    ensures r.Ok? <==> NoDuplicateOps(hooks)
    ensures r.Err? ==> r.error.CliError?
    ensures r.Ok? ==> r.value.Keys == set i | 0 <= i < |hooks| :: hooks[i].0
    ensures r.Ok? ==> forall i :: 0 <= i < |hooks| ==> r.value[hooks[i].0] == set x | x in NamedOps(hooks[i].1.ops)
    ensures r.Ok? ==> forall h :: h in r.value ==> "" !in r.value[h]
    ensures r.Ok? ==> HooksSignature(hooks, r.value)
  {
    var out: StateStore.HookSignature := map[];
    var i := 0;
    while i < |hooks|
      invariant 0 <= i <= |hooks|
      invariant SignatureUpTo(hooks, i, out)
    {
      var seen := OpNames(hooks[i].1.ops, hooks[i].0);
      if seen.Err? {
        return Err(seen.error);
      }
      SignatureStep(hooks, i, out, seen.value);
      out := out[hooks[i].0 := seen.value];
      i := i + 1;
    }
    return Ok(out);
  }

  /** `sig` is what hooks_ops returns: every hook's name mapped to the set
      of its named ops, none of which occurs twice in one hook. */
  predicate HooksSignature(hooks: Hooks, sig: StateStore.HookSignature) {
    SignatureUpTo(hooks, |hooks|, sig)
  }

  /** What hooks_ops has built after the first i hooks. */
  predicate SignatureUpTo(hooks: Hooks, i: nat, out: StateStore.HookSignature)
    requires i <= |hooks|
  {
    && (forall j :: 0 <= j < i ==> Distinct(NamedOps(hooks[j].1.ops)))
    && out.Keys == (set j | 0 <= j < i :: hooks[j].0)
    && (forall j :: 0 <= j < i ==> out[hooks[j].0] == set x | x in NamedOps(hooks[j].1.ops))
  }

  lemma SignatureStep(hooks: Hooks, i: nat, out: StateStore.HookSignature, seen: set<string>)
    requires SchemaValid(hooks) && i < |hooks| && SignatureUpTo(hooks, i, out)
    requires Distinct(NamedOps(hooks[i].1.ops)) && seen == set x | x in NamedOps(hooks[i].1.ops)
    ensures SignatureUpTo(hooks, i + 1, out[hooks[i].0 := seen])
  {
    var out' := out[hooks[i].0 := seen];
    assert out'.Keys == (set j | 0 <= j < i + 1 :: hooks[j].0);
    forall j | 0 <= j < i + 1 ensures out'[hooks[j].0] == set x | x in NamedOps(hooks[j].1.ops) {
      if j < i {
        assert hooks[j].0 != hooks[i].0;
      }
    }
  }

  /** The inner loop of hooks_ops: the names of one hook's ops, or the
      error for the first name that repeats. */
  method OpNames(ops: seq<Op>, hook: string) returns (r: Result<set<string>>)
    ensures r.Ok? <==> Distinct(NamedOps(ops))
    ensures r.Err? ==> r.error.CliError?
    ensures r.Ok? ==> r.value == set x | x in NamedOps(ops)
  {
    var seen: set<string> := {};
    var k := 0;
    while k < |ops|
      invariant 0 <= k <= |ops|
      invariant seen == set x | x in NamedOps(ops[..k])
      invariant Distinct(NamedOps(ops[..k]))
    {
      NamedOpsAppend(ops, k);
      if ops[k].name.Some? && ops[k].name.value != "" {
        var n := ops[k].name.value;
        if n in seen {
          var before := NamedOps(ops[..k]);
          var j :| 0 <= j < |before| && before[j] == n;
          assert NamedOps(ops[..k + 1])[j] == n == NamedOps(ops[..k + 1])[|before|];
          NamedOpsPrefix(ops, k + 1);
          return Err(CliError("config schema error duplicate op name '" + n + "'  in hook '" + hook));
        }
        seen := seen + {n};
      }
      k := k + 1;
    }
    assert ops[..|ops|] == ops;
    return Ok(seen);
  }

  /** A duplicate among the names of a prefix is a duplicate of the whole. */
  lemma {:induction false} NamedOpsPrefix(ops: seq<Op>, k: nat)
    requires k <= |ops|
    requires !Distinct(NamedOps(ops[..k]))
    ensures !Distinct(NamedOps(ops))
    decreases |ops| - k
  {
    if k < |ops| {
      NamedOpsAppend(ops, k);
      var before := NamedOps(ops[..k]);
      var a, b :| 0 <= a < b < |before| && before[a] == before[b];
      assert NamedOps(ops[..k + 1])[a] == before[a] && NamedOps(ops[..k + 1])[b] == before[b];
      NamedOpsPrefix(ops, k + 1);
    } else {
      assert ops[..k] == ops;
    }
  }

  // ---- hook_names / hook_table ----

  /** One row of hook_table; the lifecycle is always a list. */
  datatype HookRow = HookRow(name: string, description: string, lifecycle: seq<Value>)

  /** A string lifecycle becomes a one-element list. */
  function LifecycleList(v: Value): (r: seq<Value>)
    requires StrOrStrList(v)
    ensures v.Str? ==> r == [v]
    ensures v.List? ==> r == v.items
  {
    if v.Str? then [v] else v.items
  }

  /** hook_table: one row per hook, in declaration order. */
  method HookTable(hooks: Hooks) returns (r: seq<HookRow>)
    requires SchemaValid(hooks)
    ensures |r| == |hooks|
    ensures forall i :: 0 <= i < |hooks| ==>
      r[i] == HookRow(hooks[i].0, hooks[i].1.description, LifecycleList(hooks[i].1.lifecycle))
  {
    r := [];
    for i := 0 to |hooks|
      invariant |r| == i
      invariant forall j :: 0 <= j < i ==>
        r[j] == HookRow(hooks[j].0, hooks[j].1.description, LifecycleList(hooks[j].1.lifecycle))
    {
      r := r + [HookRow(hooks[i].0, hooks[i].1.description, LifecycleList(hooks[i].1.lifecycle))];
    }
  }

  // ---- interpolation ----

  /** FIRST_PHASE and SECOND_PHASE. */
  datatype Stage = FirstPhase | SecondPhase

  function StageLabel(p: Stage): string {
    if p == FirstPhase then "1" else "2"
  }

  /** Python's type(x) as an error message shows it. */
  function TypeName(v: Value): string {
    match v
    case Null => "<class 'NoneType'>"
    case Bool(_) => "<class 'bool'>"
    case Int(_) => "<class 'int'>"
    case Str(_) => "<class 'str'>"
    case List(_) => "<class 'list'>"
    case Dict(_) => "<class 'dict'>"
  }

  /** b is a's shape with every string leaf replaced by a string: lists keep
      length and order, dictionaries keep their keys in order, and every
      other leaf is unchanged. */
  predicate SameShape(a: Value, b: Value)
    decreases a
  {
    match a
    case Str(_) => b.Str?
    case List(xs) =>
      b.List? && |xs| == |b.items| && forall i :: 0 <= i < |xs| ==> SameShape(xs[i], b.items[i])
    case Dict(es) =>
      b.Dict? && KeysOf(es) == KeysOf(b.entries)
      && forall i :: 0 <= i < |es| ==> SameShape(es[i].1, b.entries[i].1)
    case _ => a == b
  }

  /** Only strings, lists and dictionaries inside. */
  predicate Interpolable(v: Value)
    decreases v
  {
    match v
    case Str(_) => true
    case List(xs) => forall i :: 0 <= i < |xs| ==> Interpolable(xs[i])
    case Dict(es) => forall i :: 0 <= i < |es| ==> Interpolable(es[i].1)
    case _ => false
  }

  /** No string inside holds a placeholder. */
  predicate PlainText(v: Value)
    decreases v
  {
    match v
    case Str(s) => Templates.Plain(s)
    case List(xs) => forall i :: 0 <= i < |xs| ==> PlainText(xs[i])
    case Dict(es) => forall i :: 0 <= i < |es| ==> PlainText(es[i].1)
    case _ => true
  }

  /** Errors interpolation can raise before they are wrapped. */
  predicate RenderError(e: Error) {
    e.UndefinedError? || e.TemplateSyntaxError? || e.CliError?
  }

  /** _interpolate_object: strings are rendered, lists and dictionaries
      are rebuilt from their interpolated members, anything else fails. */
  function InterpolateObject(template: Value, scope: Entries): (r: Result<Value>)
    ensures r.Ok? ==> SameShape(template, r.value)
    ensures r.Ok? ==> Interpolable(template)
    ensures !(template.Str? || template.List? || template.Dict?) ==> r.Err? && r.error.CliError?
    ensures r.Err? ==> RenderError(r.error)
    decreases template, 1
  {
    match template
    case Str(s) =>
      var out :- Templates.Render(s, scope);
      Ok(Str(out))
    case List(xs) =>
      var ys :- InterpolateItems(template, xs, scope);
      Ok(List(ys))
    case Dict(es) =>
      var fs :- InterpolateEntries(template, es, scope);
      Ok(Dict(fs))
    case _ => Err(CliError("unsupported type in interpolate f" + TypeName(template) + ", '" + Show(template) + "'"))
  }

  function InterpolateItems(parent: Value, xs: seq<Value>, scope: Entries): (r: Result<seq<Value>>)
    requires forall x :: x in xs ==> x < parent
    ensures r.Ok? ==> |r.value| == |xs| && forall i :: 0 <= i < |xs| ==> SameShape(xs[i], r.value[i])
    ensures r.Ok? ==> forall i :: 0 <= i < |xs| ==> Interpolable(xs[i])
    ensures r.Err? ==> RenderError(r.error)
    decreases parent, 0, |xs|
  {
    if xs == [] then Ok([])
    else
      assert xs[0] in xs;
      assert forall x :: x in xs[1..] ==> x in xs;
      var y :- InterpolateObject(xs[0], scope);
      var ys :- InterpolateItems(parent, xs[1..], scope);
      ItemsShapeStep(xs, y, ys);
      Ok([y] + ys)
  }

  /** A list rewritten head first keeps its shape when head and tail do. */
  lemma ItemsShapeStep(xs: seq<Value>, y: Value, ys: seq<Value>)
    requires xs != [] && SameShape(xs[0], y) && Interpolable(xs[0])
    requires |ys| == |xs| - 1 && forall i :: 0 <= i < |ys| ==> SameShape(xs[1..][i], ys[i])
    requires forall i :: 0 <= i < |ys| ==> Interpolable(xs[1..][i])
    ensures |[y] + ys| == |xs| && forall i :: 0 <= i < |xs| ==> SameShape(xs[i], ([y] + ys)[i])
    ensures forall i :: 0 <= i < |xs| ==> Interpolable(xs[i])
  {
    var r := [y] + ys;
    forall i | 0 <= i < |xs| ensures SameShape(xs[i], r[i]) && Interpolable(xs[i]) {
      if i > 0 {
        assert xs[i] == xs[1..][i - 1] && r[i] == ys[i - 1];
      }
    }
  }

  function InterpolateEntries(parent: Value, es: Entries, scope: Entries): (r: Result<Entries>)
    requires forall k, x :: (k, x) in es ==> x < parent
    ensures r.Ok? ==> KeysOf(es) == KeysOf(r.value) && forall i :: 0 <= i < |es| ==> SameShape(es[i].1, r.value[i].1)
    ensures r.Ok? ==> forall i :: 0 <= i < |es| ==> Interpolable(es[i].1)
    ensures r.Err? ==> RenderError(r.error)
    decreases parent, 0, |es|
  {
    if es == [] then Ok([])
    else
      assert (es[0].0, es[0].1) in es;
      assert forall e :: e in es[1..] ==> e in es;
      var y :- InterpolateObject(es[0].1, scope);
      var fs :- InterpolateEntries(parent, es[1..], scope);
      assert forall i :: 1 <= i < |es| ==> es[i] == es[1..][i - 1];
      Ok([(es[0].0, y)] + fs)
  }

  /** Text without placeholders comes back unchanged, whatever the scope. */
  lemma {:induction false} PlainIsFixpoint(t: Value, scope: Entries)
    requires Interpolable(t) && PlainText(t)
    ensures InterpolateObject(t, scope) == Ok(t)
    decreases t, 1
  {
    match t
    case Str(s) =>
    case List(xs) =>
      PlainItemsFixpoint(t, xs, scope);
    case Dict(es) =>
      PlainEntriesFixpoint(t, es, scope);
  }

  lemma {:induction false} PlainItemsFixpoint(parent: Value, xs: seq<Value>, scope: Entries)
    requires forall x :: x in xs ==> x < parent
    requires forall i :: 0 <= i < |xs| ==> Interpolable(xs[i]) && PlainText(xs[i])
    ensures InterpolateItems(parent, xs, scope) == Ok(xs)
    decreases parent, 0, |xs|
  {
    if xs != [] {
      assert xs[0] in xs;
      PlainIsFixpoint(xs[0], scope);
      assert forall i :: 0 <= i < |xs[1..]| ==> xs[1..][i] == xs[i + 1];
      assert forall x :: x in xs[1..] ==> x in xs;
      PlainItemsFixpoint(parent, xs[1..], scope);
      assert [xs[0]] + xs[1..] == xs;
    }
  }

  lemma {:induction false} PlainEntriesFixpoint(parent: Value, es: Entries, scope: Entries)
    requires forall k, x :: (k, x) in es ==> x < parent
    requires forall i :: 0 <= i < |es| ==> Interpolable(es[i].1) && PlainText(es[i].1)
    ensures InterpolateEntries(parent, es, scope) == Ok(es)
    decreases parent, 0, |es|
  {
    if es != [] {
      assert (es[0].0, es[0].1) in es;
      PlainIsFixpoint(es[0].1, scope);
      assert forall i :: 0 <= i < |es[1..]| ==> es[1..][i] == es[i + 1];
      assert forall e :: e in es[1..] ==> e in es;
      PlainEntriesFixpoint(parent, es[1..], scope);
      assert [(es[0].0, es[0].1)] + es[1..] == es;
    }
  }

  // ---- scopes ----

  /** RUNTIME_RUN_ONCE, the value of the `once` variable. */
  const RunOnce := "_ONCE_ONCE_"

  /** The first-phase variables: `cdf`, `env`, `vars`, `params` (always
      empty) and `once`. */
  function FirstScopeOf(cdf: Entries, env: Value, vars: Entries): (r: Entries)
    ensures UniqueKeys(r)
  {
    [("cdf", Dict(cdf)), ("env", env), ("vars", Dict(vars)), ("params", Dict([])), ("once", Str(RunOnce))]
  }

  /** The second-phase variables: the provisioning result and the hook
      results. */
  function SecondScopeOf(result: Value, hooksOut: Value): Entries {
    [("result", result), ("hooks", hooksOut)]
  }

  /** Which layer answers for a name: extra, then first phase, then (in
      phase 2 only) second phase. */
  function Layered(stage: Stage, first: Entries, second: Entries, extra: Entries, k: string): Option<Value> {
    if HasKey(extra, k) then Get(extra, k)
    else if HasKey(first, k) then Get(first, k)
    else if stage == SecondPhase then Get(second, k)
    else None
  }

  /** The variables a template of the given phase sees: phase 2 layers the
      first-phase variables over the second-phase ones, and the extra
      variables override both. */
  function ScopeOf(stage: Stage, first: Entries, second: Entries, extra: Entries): (r: Entries)
    requires UniqueKeys(first) && UniqueKeys(extra)
    ensures forall k :: Get(r, k) == Layered(stage, first, second, extra, k)
  {
    var base := if stage == FirstPhase then first else Merge(second, first);
    assert forall k :: !HasKey(first, k) ==> Get(first, k) == None;
    assert forall k :: Get(base, k) == (if HasKey(first, k) then Get(first, k) else if stage == SecondPhase then Get(second, k) else None);
    Merge(base, extra)
  }

  /** The phase-1 value of configuration key `k` rendered against the given
      `cdf` and `vars`, with context "key <k>". */
  function FirstValue(data: Entries, cdf: Entries, env: Value, vars: Entries, k: string): Result<Value>
    requires HasKey(data, k)
  {
    Interpolate(ScopeOf(FirstPhase, FirstScopeOf(cdf, env, vars), [], []), FirstPhase, Get(data, k).value, "key " + k, false)
  }

  /** cdf.resource_group, then cdf.location, which sees it. The first
      error stops. */
  function Grouped(data: Entries, cdf: Entries, env: Value, vars: Entries): (r: Result<(Value, Value)>)
    requires ConfigShape(data)
    ensures r.Ok? ==> r.value.0.Str?
    ensures r.Ok? ==> FirstValue(data, cdf, env, vars, "resource_group") == Ok(r.value.0)
  {
    var g := FirstValue(data, cdf, env, vars, "resource_group");
    if g.Err? then Err(g.error)
    else
      var l := FirstValue(data, Put(cdf, "resource_group", g.value), env, vars, "location");
      if l.Err? then Err(l.error) else Ok((g.value, l.value))
  }

  /** The keys rendered once the variables are resolved, in order:
      resource_group, location, then `up`, which sees both. The first
      error stops. */
  function Placement(data: Entries, cdf: Entries, env: Value, vars: Entries): (r: Result<(Value, Value, Value)>)
    requires ConfigShape(data)
    ensures r.Ok? ==> r.value.0.Str?
    ensures r.Ok? ==> Grouped(data, cdf, env, vars) == Ok((r.value.0, r.value.1))
  {
    var gl := Grouped(data, cdf, env, vars);
    if gl.Err? then Err(gl.error)
    else
      var (g, l) := gl.value;
      var u := FirstValue(data, Put(Put(cdf, "resource_group", g), "location", l), env, vars, "up");
      if u.Err? then Err(u.error) else Ok((g, l, u.value))
  }

  /** The hook engine hands its root variable `args` in as the extra
      layer. No first- or second-phase variable is called `args`, so the
      scope reads the same as with `args` layered beneath both phases. */
  lemma {:induction false} RootVarsLayerMoot(cdf: Entries, env: Value, vars: Entries, result: Value, hooksOut: Value,
                                             args: Value, k: string)
    ensures var first := FirstScopeOf(cdf, env, vars);
            var second := SecondScopeOf(result, hooksOut);
            Get(ScopeOf(SecondPhase, first, second, [("args", args)]), k)
            == (if HasKey(first, k) then Get(first, k)
                else if HasKey(second, k) then Get(second, k)
                else Get([("args", args)], k))
  {
    var first := FirstScopeOf(cdf, env, vars);
    var second := SecondScopeOf(result, hooksOut);
    assert !HasKey(first, "args") && !HasKey(second, "args");
  }

  /** The error context interpolate puts in front of a message. */
  function ErrorContext(stage: Stage, context: string): string {
    if context != "" then "in phase: '" + StageLabel(stage) + "'', Context: '" + context + "'"
    else "in phase '" + StageLabel(stage) + "'"
  }

  /** interpolate on a given scope: None is returned as is; an undefined
      reference or a syntax error becomes a CLIError naming the phase and
      the context, except that with `raw` the undefined error itself is
      re-raised. */
  function Interpolate(scope: Entries, stage: Stage, template: Value, context: string, raw: bool): (r: Result<Value>)
    ensures template.Null? ==> r == Ok(Null)
    ensures r.Ok? && !template.Null? ==> SameShape(template, r.value)
    ensures r.Err? && r.error.UndefinedError? ==> raw
    ensures r.Err? ==> r.error.CliError? || r.error.UndefinedError?
    ensures !template.Null? ==> (r.Ok? <==> InterpolateObject(template, scope).Ok?)
  {
    if template.Null? then Ok(Null)
    else
      match InterpolateObject(template, scope)
      case Ok(v) => Ok(v)
      case Err(UndefinedError(m)) =>
        if raw then Err(UndefinedError(m))
        else Err(CliError(Wrapped(stage, context, "undefined variable: " + m)))
      case Err(TemplateSyntaxError(m)) =>
        Err(CliError(Wrapped(stage, context, "template syntax: " + m)))
      case Err(e) => Err(e)
  }

  lemma ContainsSuffixOf(a: string, b: string)
    ensures Contains(a + b, b)
    decreases |a|
  {
    if a == [] {
      assert (a + b)[..|b|] == b;
    } else {
      assert (a + b)[1..] == a[1..] + b;
      ContainsSuffixOf(a[1..], b);
    }
  }

  /** The message of a wrapped error. */
  function Wrapped(stage: Stage, context: string, detail: string): string {
    "config interpolation error. " + ErrorContext(stage, context) + ", " + detail
  }

  /** The wording of the two wrapped errors: an undefined reference is
      reported as an "undefined variable" naming the phase and carrying
      the original message; a syntax error as "template syntax". */
  lemma {:induction false} InterpolateErrorWording(scope: Entries, stage: Stage, template: Value, context: string)
    requires !template.Null? && InterpolateObject(template, scope).Err?
    ensures var e := InterpolateObject(template, scope).error;
      var r := Interpolate(scope, stage, template, context, false);
      && (e.UndefinedError? ==> Contains(r.error.msg, "undefined variable: " + e.msg))
      && (e.TemplateSyntaxError? ==> Contains(r.error.msg, "template syntax: " + e.msg))
  {
    var e := InterpolateObject(template, scope).error;
    var r := Interpolate(scope, stage, template, context, false);
    if e.UndefinedError? {
      WrappedWording(stage, context, "undefined variable: " + e.msg);
    } else if e.TemplateSyntaxError? {
      WrappedWording(stage, context, "template syntax: " + e.msg);
    }
  }

  lemma WrappedWording(stage: Stage, context: string, detail: string)
    ensures Contains(Wrapped(stage, context, detail), detail)
  {
    var head := "config interpolation error. " + ErrorContext(stage, context) + ", ";
    assert Wrapped(stage, context, detail) == head + detail;
    ContainsSuffixOf(head, detail);
  }

  // ---- variable resolution ----

  /** The context string _lazy_variable_resolve passes. */
  function VarContext(key: string, value: Value): string {
    "variables in config '" + key + "':'" + Show(value) + "'"
  }

  /** _lazy_variable_resolve over the remaining definitions: each variable
      is rendered in phase 1 against the variables resolved so far; an
      undefined error whose text mentions "result" defers the key, any
      other error stops. Returns the variables, the deferred keys and the
      outcome. */
  function LazyFold(cdf: Entries, env: Value, vars: Entries, delayed: seq<string>, defs: Entries): (Entries, seq<string>, Outcome)
    decreases |defs|
  {
    if defs == [] then (vars, delayed, Pass)
    else
      var (k, v) := defs[0];
      match Interpolate(FirstScopeOf(cdf, env, vars), FirstPhase, v, VarContext(k, v), true)
      case Ok(x) => LazyFold(cdf, env, Put(vars, k, x), delayed, defs[1..])
      case Err(e) =>
        if e.UndefinedError? && Contains(e.msg, "result") then LazyFold(cdf, env, vars, delayed + [k], defs[1..])
        else (vars, delayed, Fail(e))
  }

  /** After a successful lazy pass every defined variable is either
      resolved or deferred, never both. */
  lemma LazyFoldPartition(cdf: Entries, env: Value, vars: Entries, delayed: seq<string>, defs: Entries)
    requires UniqueKeys(defs)
    requires forall i :: 0 <= i < |defs| ==> !HasKey(vars, defs[i].0) && defs[i].0 !in delayed
    requires LazyFold(cdf, env, vars, delayed, defs).2.Pass?
    ensures forall i :: 0 <= i < |defs| ==>
      (HasKey(LazyFold(cdf, env, vars, delayed, defs).0, defs[i].0) <==> defs[i].0 !in LazyFold(cdf, env, vars, delayed, defs).1)
  {
    forall i | 0 <= i < |defs|
      ensures HasKey(LazyFold(cdf, env, vars, delayed, defs).0, defs[i].0) <==> defs[i].0 !in LazyFold(cdf, env, vars, delayed, defs).1
    {
      LazyFoldKey(cdf, env, vars, delayed, defs, i);
    }
  }

  /** The key defined at index i ends up resolved or deferred. */
  lemma {:induction false} LazyFoldKey(cdf: Entries, env: Value, vars: Entries, delayed: seq<string>, defs: Entries, i: nat)
    requires UniqueKeys(defs) && i < |defs|
    requires !HasKey(vars, defs[i].0) && defs[i].0 !in delayed
    requires LazyFold(cdf, env, vars, delayed, defs).2.Pass?
    ensures HasKey(LazyFold(cdf, env, vars, delayed, defs).0, defs[i].0) <==> defs[i].0 !in LazyFold(cdf, env, vars, delayed, defs).1
    decreases i
  {
    if i == 0 {
      LazyFoldFirstKey(cdf, env, vars, delayed, defs);
    } else {
      var vars', delayed', resolved := LazyFoldStep(cdf, env, vars, delayed, defs);
      assert defs[1..][i - 1] == defs[i] && defs[i].0 != defs[0].0;
      UniqueTail(defs);
      LazyFoldKey(cdf, env, vars', delayed', defs[1..], i - 1);
    }
  }

  /** The first key of a lazy pass ends up resolved or deferred. */
  lemma LazyFoldFirstKey(cdf: Entries, env: Value, vars: Entries, delayed: seq<string>, defs: Entries)
    requires UniqueKeys(defs) && defs != []
    requires !HasKey(vars, defs[0].0) && defs[0].0 !in delayed
    requires LazyFold(cdf, env, vars, delayed, defs).2.Pass?
    ensures HasKey(LazyFold(cdf, env, vars, delayed, defs).0, defs[0].0) <==> defs[0].0 !in LazyFold(cdf, env, vars, delayed, defs).1
  {
    var k := defs[0].0;
    var vars', delayed', resolved := LazyFoldStep(cdf, env, vars, delayed, defs);
    if resolved {
      LazyFoldKeepsKeys(cdf, env, vars', delayed', defs[1..], k);
      LazyFoldDelaysOnly(cdf, env, vars', delayed', defs[1..], k);
    } else {
      LazyFoldResolvesOnly(cdf, env, vars', delayed', defs[1..], k);
      LazyFoldKeepsDelayed(cdf, env, vars', delayed', defs[1..], k);
    }
  }

  /** One step of a lazy pass that does not fail: the first definition is
      either resolved (written into the variables) or deferred. */
  lemma LazyFoldStep(cdf: Entries, env: Value, vars: Entries, delayed: seq<string>, defs: Entries)
    returns (vars': Entries, delayed': seq<string>, resolved: bool)
    requires defs != [] && LazyFold(cdf, env, vars, delayed, defs).2.Pass?
    ensures LazyFold(cdf, env, vars, delayed, defs) == LazyFold(cdf, env, vars', delayed', defs[1..])
    ensures resolved ==> delayed' == delayed && (forall k :: HasKey(vars', k) <==> k == defs[0].0 || HasKey(vars, k))
    ensures !resolved ==> vars' == vars && delayed' == delayed + [defs[0].0]
  {
    var (k0, v) := defs[0];
    match Interpolate(FirstScopeOf(cdf, env, vars), FirstPhase, v, VarContext(k0, v), true)
    case Ok(x) =>
      vars', delayed', resolved := Put(vars, k0, x), delayed, true;
    case Err(e) =>
      vars', delayed', resolved := vars, delayed + [k0], false;
  }

  lemma {:induction false} LazyFoldKeepsKeys(cdf: Entries, env: Value, vars: Entries, delayed: seq<string>, defs: Entries, k: string)
    requires HasKey(vars, k)
    ensures HasKey(LazyFold(cdf, env, vars, delayed, defs).0, k)
    decreases |defs|
  {
    if defs != [] {
      var (k0, v) := defs[0];
      match Interpolate(FirstScopeOf(cdf, env, vars), FirstPhase, v, VarContext(k0, v), true)
      case Ok(x) =>
        LazyFoldKeepsKeys(cdf, env, Put(vars, k0, x), delayed, defs[1..], k);
      case Err(e) =>
        if e.UndefinedError? && Contains(e.msg, "result") {
          LazyFoldKeepsKeys(cdf, env, vars, delayed + [k0], defs[1..], k);
        }
    }
  }

  lemma {:induction false} LazyFoldKeepsDelayed(cdf: Entries, env: Value, vars: Entries, delayed: seq<string>, defs: Entries, k: string)
    requires k in delayed
    ensures k in LazyFold(cdf, env, vars, delayed, defs).1
    decreases |defs|
  {
    if defs != [] {
      var (k0, v) := defs[0];
      match Interpolate(FirstScopeOf(cdf, env, vars), FirstPhase, v, VarContext(k0, v), true)
      case Ok(x) =>
        LazyFoldKeepsDelayed(cdf, env, Put(vars, k0, x), delayed, defs[1..], k);
      case Err(e) =>
        if e.UndefinedError? && Contains(e.msg, "result") {
          LazyFoldKeepsDelayed(cdf, env, vars, delayed + [k0], defs[1..], k);
        }
    }
  }

  lemma {:induction false} LazyFoldDelaysOnly(cdf: Entries, env: Value, vars: Entries, delayed: seq<string>, defs: Entries, k: string)
    requires k !in delayed
    requires forall i :: 0 <= i < |defs| ==> defs[i].0 != k
    ensures k !in LazyFold(cdf, env, vars, delayed, defs).1
    decreases |defs|
  {
    if defs != [] {
      var (k0, v) := defs[0];
      assert forall i :: 0 <= i < |defs[1..]| ==> defs[1..][i] == defs[i + 1];
      match Interpolate(FirstScopeOf(cdf, env, vars), FirstPhase, v, VarContext(k0, v), true)
      case Ok(x) =>
        LazyFoldDelaysOnly(cdf, env, Put(vars, k0, x), delayed, defs[1..], k);
      case Err(e) =>
        if e.UndefinedError? && Contains(e.msg, "result") {
          LazyFoldDelaysOnly(cdf, env, vars, delayed + [k0], defs[1..], k);
        }
    }
  }

  lemma {:induction false} LazyFoldResolvesOnly(cdf: Entries, env: Value, vars: Entries, delayed: seq<string>, defs: Entries, k: string)
    requires !HasKey(vars, k)
    requires forall i :: 0 <= i < |defs| ==> defs[i].0 != k
    ensures !HasKey(LazyFold(cdf, env, vars, delayed, defs).0, k)
    decreases |defs|
  {
    if defs != [] {
      var (k0, v) := defs[0];
      assert forall i :: 0 <= i < |defs[1..]| ==> defs[1..][i] == defs[i + 1];
      match Interpolate(FirstScopeOf(cdf, env, vars), FirstPhase, v, VarContext(k0, v), true)
      case Ok(x) =>
        LazyFoldResolvesOnly(cdf, env, Put(vars, k0, x), delayed, defs[1..], k);
      case Err(e) =>
        if e.UndefinedError? && Contains(e.msg, "result") {
          LazyFoldResolvesOnly(cdf, env, vars, delayed + [k0], defs[1..], k);
        }
    }
  }

  /** delayed_variable_interpolate over the remaining deferred keys: each
      is re-rendered in phase 2 (so it sees the provisioning result and
      every variable resolved so far) and its entry written. A key with no
      definition is a KeyError; any interpolation error stops. */
  function DelayedFold(cdf: Entries, env: Value, second: Entries, vars: Entries, keys: seq<string>, defs: Entries): (Entries, Outcome)
    decreases |keys|
  {
    if keys == [] then (vars, Pass)
    else
      var k := keys[0];
      match Get(defs, k)
      case None => (vars, Fail(OtherError("KeyError: '" + k + "'")))
      case Some(t) =>
        match Interpolate(ScopeOf(SecondPhase, FirstScopeOf(cdf, env, vars), second, []), SecondPhase, t,
                          "variables in config in delayed interpolate '" + k + "'", false)
        case Err(e) => (vars, Fail(e))
        case Ok(x) => DelayedFold(cdf, env, second, Put(vars, k, x), keys[1..], defs)
  }

  /** After a successful re-resolution every deferred key has an entry and
      every other variable is as it was. */
  lemma {:induction false} DelayedFoldWrites(cdf: Entries, env: Value, second: Entries, vars: Entries, keys: seq<string>, defs: Entries)
    requires DelayedFold(cdf, env, second, vars, keys, defs).1.Pass?
    ensures forall k :: k in keys ==> HasKey(DelayedFold(cdf, env, second, vars, keys, defs).0, k)
    ensures forall k :: k !in keys ==> Get(DelayedFold(cdf, env, second, vars, keys, defs).0, k) == Get(vars, k)
    decreases |keys|
  {
    if keys != [] {
      var k := keys[0];
      var t := Get(defs, k).value;
      var x := Interpolate(ScopeOf(SecondPhase, FirstScopeOf(cdf, env, vars), second, []), SecondPhase, t,
                           "variables in config in delayed interpolate '" + k + "'", false).value;
      DelayedFoldWrites(cdf, env, second, Put(vars, k, x), keys[1..], defs);
      DelayedFoldKeeps(cdf, env, second, Put(vars, k, x), keys[1..], defs, k);
      assert forall j :: j in keys && j != k ==> j in keys[1..];
    }
  }

  lemma {:induction false} DelayedFoldKeeps(cdf: Entries, env: Value, second: Entries, vars: Entries, keys: seq<string>, defs: Entries, k: string)
    requires HasKey(vars, k)
    ensures HasKey(DelayedFold(cdf, env, second, vars, keys, defs).0, k)
    decreases |keys|
  {
    if keys != [] && Get(defs, keys[0]).Some? {
      var t := Get(defs, keys[0]).value;
      var r := Interpolate(ScopeOf(SecondPhase, FirstScopeOf(cdf, env, vars), second, []), SecondPhase, t,
                           "variables in config in delayed interpolate '" + keys[0] + "'", false);
      if r.Ok? {
        DelayedFoldKeeps(cdf, env, second, Put(vars, keys[0], r.value), keys[1..], defs, k);
      }
    }
  }

  /** What _delayed_up_interpolate_element makes of a value: every string
      leaf is rendered in phase 1, everything else is kept. */
  function RewriteLeaves(v: Value, scope: Entries): (r: Result<Value>)
    decreases v, 1
  {
    match v
    case Str(s) => Interpolate(scope, FirstPhase, v, "variables in config in delayed interpolate '" + s + "'", false)
    case List(xs) =>
      var ys :- RewriteItems(v, xs, scope);
      Ok(List(ys))
    case Dict(es) =>
      var fs :- RewriteEntries(v, es, scope);
      Ok(Dict(fs))
    case _ => Ok(v)
  }

  function RewriteItems(parent: Value, xs: seq<Value>, scope: Entries): (r: Result<seq<Value>>)
    requires forall x :: x in xs ==> x < parent
    decreases parent, 0, |xs|
  {
    if xs == [] then Ok([])
    else
      assert xs[0] in xs;
      assert forall x :: x in xs[1..] ==> x in xs;
      var y :- RewriteLeaves(xs[0], scope);
      var ys :- RewriteItems(parent, xs[1..], scope);
      Ok([y] + ys)
  }

  function RewriteEntries(parent: Value, es: Entries, scope: Entries): (r: Result<Entries>)
    requires forall k, x :: (k, x) in es ==> x < parent
    decreases parent, 0, |es|
  {
    if es == [] then Ok([])
    else
      assert (es[0].0, es[0].1) in es;
      assert forall e :: e in es[1..] ==> e in es;
      var y :- RewriteLeaves(es[0].1, scope);
      var fs :- RewriteEntries(parent, es[1..], scope);
      Ok([(es[0].0, y)] + fs)
  }

  /** The rewrite keeps the structure: lists keep length and order,
      dictionaries their keys, non-string leaves are unchanged and string
      leaves stay strings. */
  lemma {:induction false} RewriteKeepsShape(v: Value, scope: Entries)
    requires RewriteLeaves(v, scope).Ok?
    ensures SameShape(v, RewriteLeaves(v, scope).value)
    decreases v, 1
  {
    match v
    case Str(_) =>
    case List(xs) => RewriteItemsShape(v, xs, scope);
    case Dict(es) => RewriteEntriesShape(v, es, scope);
    case _ =>
  }

  lemma {:induction false} RewriteItemsShape(parent: Value, xs: seq<Value>, scope: Entries)
    requires forall x :: x in xs ==> x < parent
    requires RewriteItems(parent, xs, scope).Ok?
    ensures |RewriteItems(parent, xs, scope).value| == |xs|
    ensures forall i :: 0 <= i < |xs| ==> SameShape(xs[i], RewriteItems(parent, xs, scope).value[i])
    decreases parent, 0, |xs|
  {
    if xs != [] {
      assert xs[0] in xs;
      assert forall x :: x in xs[1..] ==> x in xs;
      RewriteKeepsShape(xs[0], scope);
      RewriteItemsShape(parent, xs[1..], scope);
      var y, ys := RewriteLeaves(xs[0], scope).value, RewriteItems(parent, xs[1..], scope).value;
      var r := RewriteItems(parent, xs, scope).value;
      assert r == [y] + ys;
      forall i | 0 <= i < |xs| ensures SameShape(xs[i], r[i]) {
        if i > 0 {
          assert r[i] == ys[i - 1] && xs[i] == xs[1..][i - 1];
        }
      }
    }
  }

  lemma {:induction false} RewriteEntriesShape(parent: Value, es: Entries, scope: Entries)
    requires forall k, x :: (k, x) in es ==> x < parent
    requires RewriteEntries(parent, es, scope).Ok?
    ensures KeysOf(RewriteEntries(parent, es, scope).value) == KeysOf(es)
    ensures forall i :: 0 <= i < |es| ==> SameShape(es[i].1, RewriteEntries(parent, es, scope).value[i].1)
    decreases parent, 0, |es|
  {
    if es != [] {
      assert (es[0].0, es[0].1) in es;
      assert forall e :: e in es[1..] ==> e in es;
      RewriteKeepsShape(es[0].1, scope);
      RewriteEntriesShape(parent, es[1..], scope);
      var y, fs := RewriteLeaves(es[0].1, scope).value, RewriteEntries(parent, es[1..], scope).value;
      var r := RewriteEntries(parent, es, scope).value;
      assert r == [(es[0].0, y)] + fs;
      assert KeysOf(r) == [es[0].0] + KeysOf(fs) && KeysOf(es) == [es[0].0] + KeysOf(es[1..]);
      forall i | 0 <= i < |es| ensures SameShape(es[i].1, r[i].1) {
        if i > 0 {
          assert r[i] == fs[i - 1] && es[i] == es[1..][i - 1];
        }
      }
    }
  }

  // ---- what a single reference resolves to ----

  /** The undefined message for a missing attribute of a dictionary. */
  function NoAttribute(name: string): string {
    "'dict object' has no attribute '" + name + "'"
  }

  /** A variable defined as the single reference `{{p}}` takes the printed
      value of what p names among the variables resolved so far; when p
      names nothing, the key is deferred if the message mentions "result"
      and resolution stops otherwise. */
  lemma {:induction false} LazyFoldSingleRef(cdf: Entries, env: Value, vars: Entries, delayed: seq<string>, defs: Entries, p: string)
    requires defs != [] && defs[0].1 == Str("{{" + p + "}}")
    requires Templates.DottedName(p)
    ensures LazyFold(cdf, env, vars, delayed, defs) ==
      match Templates.Lookup(FirstScopeOf(cdf, env, vars), Templates.SplitDots(p))
      case Ok(v) => LazyFold(cdf, env, Put(vars, defs[0].0, Str(Show(v))), delayed, defs[1..])
      case Err(e) =>
        if Contains(e.msg, "result") then LazyFold(cdf, env, vars, delayed + [defs[0].0], defs[1..])
        else (vars, delayed, Fail(e))
  {
    var scope := FirstScopeOf(cdf, env, vars);
    Templates.RenderSingleHole(p, scope);
    Templates.ParseSingleHole(p);
  }

  /** `vars.b` is the two-part path to the variable b. */
  lemma VarsPath(b: string)
    requires Templates.Ident(b)
    ensures Templates.SplitDots("vars." + b) == ["vars", b]
    ensures Templates.DottedName("vars." + b)
  {
    var p := "vars" + "." + b;
    assert "vars." + b == p;
    assert '.' !in b by {
      assert forall c :: c in b ==> Templates.IdentChar(c);
    }
    Templates.SplitDotsPair("vars", b);
    assert Templates.Ident("vars");
    forall i | 0 <= i < |p| ensures p[i] == '.' || Templates.IdentChar(p[i]) {
      if i >= 5 {
        assert p[i] == b[i - 5] && b[i - 5] in b;
      }
    }
  }

  /** A variable defined as a reference to a variable that is not resolved
      yet stops resolution with the undefined error naming it, unless that
      message mentions "result". */
  lemma {:induction false} ForwardRefFails(cdf: Entries, env: Value, vars: Entries, delayed: seq<string>, defs: Entries, b: string)
    requires defs != [] && defs[0].1 == Str("{{vars." + b + "}}")
    requires Templates.Ident(b) && !HasKey(vars, b)
    requires !Contains(NoAttribute(b), "result")
    ensures LazyFold(cdf, env, vars, delayed, defs) == (vars, delayed, Fail(UndefinedError(NoAttribute(b))))
  {
    var p := "vars." + b;
    VarsPath(b);
    assert "{{" + p + "}}" == "{{vars." + b + "}}";
    LazyFoldSingleRef(cdf, env, vars, delayed, defs, p);
    LookupVar(cdf, env, vars, b);
  }

  /** `vars.b` looks b up among the resolved variables. */
  lemma LookupVar(cdf: Entries, env: Value, vars: Entries, b: string)
    ensures Templates.Lookup(FirstScopeOf(cdf, env, vars), ["vars", b]) ==
      match Get(vars, b)
      case Some(v) => Ok(v)
      case None => Err(UndefinedError(NoAttribute(b)))
  {
    var scope := FirstScopeOf(cdf, env, vars);
    GetAt(scope, 2);
    assert ["vars", b][1..] == [b];
    assert [b][1..] == [];
    assert Templates.Lookup(scope, ["vars", b]) == Templates.Walk(Dict(vars), [b]);
    match Get(vars, b)
    case Some(v) =>
      assert Templates.Walk(v, []) == Ok(v);
    case None =>
  }

  /** A variable defined as a reference to an earlier variable resolves to
      that variable's printed value. */
  lemma {:induction false} BackRefResolves(cdf: Entries, env: Value, vars: Entries, delayed: seq<string>, defs: Entries, b: string)
    requires defs != [] && defs[0].1 == Str("{{vars." + b + "}}")
    requires Templates.Ident(b) && HasKey(vars, b)
    ensures LazyFold(cdf, env, vars, delayed, defs) ==
      LazyFold(cdf, env, Put(vars, defs[0].0, Str(Show(Get(vars, b).value))), delayed, defs[1..])
  {
    var p := "vars." + b;
    VarsPath(b);
    assert "{{" + p + "}}" == "{{vars." + b + "}}";
    LazyFoldSingleRef(cdf, env, vars, delayed, defs, p);
    LookupVar(cdf, env, vars, b);
  }

  /** A variable whose reference starts at `result` (the provisioning
      result, which phase 1 does not see) is deferred, not failed. */
  lemma {:induction false} ResultRefDeferred(cdf: Entries, env: Value, vars: Entries, delayed: seq<string>, defs: Entries, p: string)
    requires defs != [] && defs[0].1 == Str("{{" + p + "}}")
    requires Templates.DottedName(p) && Templates.SplitDots(p)[0] == "result"
    ensures LazyFold(cdf, env, vars, delayed, defs) == LazyFold(cdf, env, vars, delayed + [defs[0].0], defs[1..])
  {
    LazyFoldSingleRef(cdf, env, vars, delayed, defs, p);
    ResultUndefined(cdf, env, vars, Templates.SplitDots(p));
  }

  /** Phase 1 does not see `result`; the undefined message names it. */
  lemma ResultUndefined(cdf: Entries, env: Value, vars: Entries, path: seq<string>)
    requires |path| >= 1 && path[0] == "result"
    ensures Templates.Lookup(FirstScopeOf(cdf, env, vars), path) == Err(UndefinedError("'result' is undefined"))
    ensures Contains("'result' is undefined", "result")
  {
    var scope := FirstScopeOf(cdf, env, vars);
    assert !HasKey(scope, "result") by {
      forall i | 0 <= i < |scope| ensures scope[i].0 != "result" {
        assert scope[i].0 in {"cdf", "env", "vars", "params", "once"};
      }
    }
    assert "'" + path[0] + "' is undefined" == "'result' is undefined";
    var m := "'result' is undefined";
    assert StartsWith(m[1..], "result");
  }

  /** The undefined message for `i` does not mention "result". */
  lemma NoResultInMissingI()
    ensures !Contains(NoAttribute("i"), "result")
  {
    var m := NoAttribute("i");
    assert forall i :: 0 <= i < |m| - 1 && m[i] == 'r' ==> i == 24;
    NoPairNoContains(m, "result");
  }

  /** In the cycle `h: {{vars.i}}`, `i: {{vars.h}}` the first definition
      already fails, with an undefined error that is not deferred. */
  lemma CycleFails(cdf: Entries, env: Value)
    ensures LazyFold(cdf, env, [], [], [("h", Str("{{vars.i}}")), ("i", Str("{{vars.h}}"))]).2
      == Fail(UndefinedError(NoAttribute("i")))
  {
    NoResultInMissingI();
    assert "{{vars." + "i" + "}}" == "{{vars.i}}";
    assert Templates.Ident("i");
    ForwardRefFails(cdf, env, [], [], [("h", Str("{{vars.i}}")), ("i", Str("{{vars.h}}"))], "i");
  }

  /** Phase 1 does not see `cdf.resource_group` while the variables are
      resolved: a cdf dictionary without that key leaves it undefined. */
  lemma CdfKeyUndefined(cdf: Entries, env: Value, vars: Entries, key: string)
    requires !HasKey(cdf, key)
    ensures Templates.Lookup(FirstScopeOf(cdf, env, vars), ["cdf", key]) == Err(UndefinedError(NoAttribute(key)))
  {
    var scope := FirstScopeOf(cdf, env, vars);
    GetAt(scope, 0);
    assert ["cdf", key][1..] == [key];
    assert Templates.Lookup(scope, ["cdf", key]) == Templates.Walk(Dict(cdf), [key]);
  }

  // ---- hook results as the second phase sees them ----

  /** v is the dictionary holding exactly the entries of m. */
  ghost predicate DictOf(v: Value, m: map<string, Value>) {
    && v.Dict? && UniqueKeys(v.entries)
    && forall k :: Get(v.entries, k) == (if k in m then Some(m[k]) else None)
  }

  /** The op results of one hook as a dictionary of dictionaries. */
  ghost predicate OpsRep(v: Value, ops: map<string, StateStore.OpData>) {
    && v.Dict? && UniqueKeys(v.entries)
    && (forall op :: HasKey(v.entries, op) <==> op in ops)
    && (forall op :: op in ops ==> DictOf(Get(v.entries, op).value, ops[op]))
  }

  /** All hook results as the `hooks` variable of phase 2. */
  ghost predicate HooksRep(v: Value, hr: StateStore.HookResults) {
    && v.Dict? && UniqueKeys(v.entries)
    && (forall h :: HasKey(v.entries, h) <==> h in hr)
    && (forall h :: h in hr ==> OpsRep(Get(v.entries, h).value, hr[h]))
  }

  /** Adding a new key keeps the keys unique. */
  lemma PutNewKey(e: Entries, k: string, v: Value)
    requires UniqueKeys(e) && !HasKey(e, k)
    ensures UniqueKeys(Put(e, k, v))
  {
    assert Put(e, k, v) == e + [(k, v)];
  }

  /** A map as a dictionary value (in no particular key order). */
  method DictValue(m: map<string, Value>) returns (v: Value)
    ensures DictOf(v, m)
  {
    var e: Entries := [];
    var todo := m.Keys;
    while todo != {}
      invariant todo <= m.Keys
      invariant UniqueKeys(e)
      invariant forall k :: Get(e, k) == (if k in m && k !in todo then Some(m[k]) else None)
      decreases todo
    {
      var k :| k in todo;
      PutNewKey(e, k, m[k]);
      e := Put(e, k, m[k]);
      todo := todo - {k};
    }
    v := Dict(e);
  }

  /** One hook's op results as a dictionary value. */
  method OpsValue(ops: map<string, StateStore.OpData>) returns (v: Value)
    ensures OpsRep(v, ops)
  {
    var e: Entries := [];
    var todo := ops.Keys;
    while todo != {}
      invariant todo <= ops.Keys
      invariant UniqueKeys(e)
      invariant forall op :: HasKey(e, op) <==> op in ops && op !in todo
      invariant forall op :: op in ops && op !in todo ==> DictOf(Get(e, op).value, ops[op])
      decreases todo
    {
      var op :| op in todo;
      var d := DictValue(ops[op]);
      PutNewKey(e, op, d);
      e := Put(e, op, d);
      todo := todo - {op};
    }
    v := Dict(e);
  }

  /** update_hooks_result's argument, the state's hook results, as the
      dictionary value the `hooks` variable holds. */
  method HooksValue(hr: StateStore.HookResults) returns (v: Value)
    ensures HooksRep(v, hr)
  {
    var e: Entries := [];
    var todo := hr.Keys;
    while todo != {}
      invariant todo <= hr.Keys
      invariant UniqueKeys(e)
      invariant forall h :: HasKey(e, h) <==> h in hr && h !in todo
      invariant forall h :: h in hr && h !in todo ==> OpsRep(Get(e, h).value, hr[h])
      decreases todo
    {
      var h :| h in todo;
      var o := OpsValue(hr[h]);
      PutNewKey(e, h, o);
      e := Put(e, h, o);
      todo := todo - {h};
    }
    v := Dict(e);
  }

  /** What a named op stored is visible in phase 2 as
      `hooks.<hook>.<op>.<field>`, unless the first-phase or the extra
      variables shadow `hooks`. */
  lemma HookOutputVisible(first: Entries, result: Value, hooksOut: Value, extra: Entries,
                          hr: StateStore.HookResults, h: string, op: string, field: string)
    requires UniqueKeys(first) && UniqueKeys(extra)
    requires !HasKey(first, "hooks") && !HasKey(extra, "hooks")
    requires HooksRep(hooksOut, hr)
    requires h in hr && op in hr[h] && field in hr[h][op]
    ensures Templates.Lookup(ScopeOf(SecondPhase, first, SecondScopeOf(result, hooksOut), extra), ["hooks", h, op, field])
      == Ok(hr[h][op][field])
  {
    var scope := ScopeOf(SecondPhase, first, SecondScopeOf(result, hooksOut), extra);
    assert Get(SecondScopeOf(result, hooksOut), "hooks") == Some(hooksOut);
    assert Get(scope, "hooks") == Some(hooksOut);
    var path := ["hooks", h, op, field];
    assert path[1..] == [h, op, field];
    WalkHookResult(hooksOut, hr, h, op, field);
  }

  /** The entry of a hook in the `hooks` variable represents its op results. */
  lemma HookEntry(v: Value, hr: StateStore.HookResults, h: string) returns (hv: Value)
    requires HooksRep(v, hr) && h in hr
    ensures Get(v.entries, h) == Some(hv) && OpsRep(hv, hr[h])
  {
    assert HasKey(v.entries, h);
    hv := Get(v.entries, h).value;
  }

  /** The entry of an op in a hook's results represents that op's data. */
  lemma OpEntry(v: Value, ops: map<string, StateStore.OpData>, op: string) returns (ov: Value)
    requires OpsRep(v, ops) && op in ops
    ensures Get(v.entries, op) == Some(ov) && DictOf(ov, ops[op])
  {
    assert HasKey(v.entries, op);
    ov := Get(v.entries, op).value;
  }

  lemma WalkHookResult(hooksOut: Value, hr: StateStore.HookResults, h: string, op: string, field: string)
    requires HooksRep(hooksOut, hr)
    requires h in hr && op in hr[h] && field in hr[h][op]
    ensures Templates.Walk(hooksOut, [h, op, field]) == Ok(hr[h][op][field])
  {
    var hv := HookEntry(hooksOut, hr, h);
    var ov := OpEntry(hv, hr[h], op);
    assert Get(ov.entries, field) == Some(hr[h][op][field]);
    Templates.WalkThree(hooksOut, h, op, field, hv, ov, hr[h][op][field]);
  }

  // ---- the resolver object ----

  /** The configuration keys the schema requires to be strings. */
  const StringKeys: set<string> := {"name", "resource_group", "location", "tmp_dir", "state_filename", "state_Path"}

  /** What schema validation guarantees of the keys the resolver reads:
      name, resource group, location, tmp_dir and the two state keys are
      strings, `up` is a string or None, `vars` and `params` (when present)
      are dictionaries. */
  predicate ConfigShape(data: Entries) {
    StringsOk(data) && UpOk(data) && DictAt(data, "vars") && DictAt(data, "params")
  }

  predicate StringsOk(data: Entries) {
    forall k :: k in StringKeys ==> StrAt(data, k)
  }

  predicate UpOk(data: Entries) {
    Get(data, "up").Some? && (Get(data, "up").value.Null? || Get(data, "up").value.Str?)
  }

  /** The key, when present, holds a dictionary. */
  predicate DictAt(data: Entries, k: string) {
    Get(data, k).Some? ==> Get(data, k).value.Dict?
  }

  /** The key is present and holds a string. */
  predicate StrAt(data: Entries, k: string) {
    Get(data, k).Some? && Get(data, k).value.Str?
  }

  /** r reads like data except at k, where it holds v. */
  ghost predicate WrittenAt(data: Entries, r: Entries, k: string, v: Value) {
    Get(r, k) == Some(v) && forall k' :: k' != k ==> Get(r, k') == Get(data, k')
  }

  /** Writing a key other than `vars` and `params` with a value of the
      shape the schema gives it keeps the shape and the variable
      definitions. */
  lemma ShapeAfterPut(data: Entries, k: string, v: Value)
    requires ConfigShape(data) && k != "vars" && k != "params"
    requires k == "up" ==> v.Null? || v.Str?
    requires k in StringKeys ==> v.Str?
    ensures ConfigShape(Put(data, k, v))
    ensures VarDefsOf(Put(data, k, v)) == VarDefsOf(data)
  {
    ShapeAfterWrite(data, Put(data, k, v), k, v);
  }

  lemma ShapeAfterWrite(data: Entries, r: Entries, k: string, v: Value)
    requires ConfigShape(data) && k != "vars" && k != "params"
    requires k == "up" ==> v.Null? || v.Str?
    requires k in StringKeys ==> v.Str?
    requires WrittenAt(data, r, k, v)
    ensures ConfigShape(r)
    ensures VarDefsOf(r) == VarDefsOf(data)
  {
    StringsAfterWrite(data, r, k, v);
    UpAfterWrite(data, r, k, v);
    OtherAfterWrite(data, r, k, v, "vars");
    OtherAfterWrite(data, r, k, v, "params");
    VarDefsAfterWrite(data, r, k, v);
  }

  lemma VarDefsAfterWrite(data: Entries, r: Entries, k: string, v: Value)
    requires WrittenAt(data, r, k, v) && k != "vars"
    ensures VarDefsOf(r) == VarDefsOf(data)
  {
    OtherAfterWrite(data, r, k, v, "vars");
  }

  lemma StringsAfterWrite(data: Entries, r: Entries, k: string, v: Value)
    requires StringsOk(data) && WrittenAt(data, r, k, v) && (k in StringKeys ==> v.Str?)
    ensures StringsOk(r)
  {
    forall key | key in StringKeys ensures StrAt(r, key) {
      if key != k { assert Get(r, key) == Get(data, key); }
    }
  }

  lemma UpAfterWrite(data: Entries, r: Entries, k: string, v: Value)
    requires UpOk(data) && WrittenAt(data, r, k, v) && (k == "up" ==> v.Null? || v.Str?)
    ensures UpOk(r)
  {
    if k != "up" { assert Get(r, "up") == Get(data, "up"); }
  }

  lemma OtherAfterWrite(data: Entries, r: Entries, k: string, v: Value, key: string)
    requires WrittenAt(data, r, k, v) && k != key
    ensures Get(r, key) == Get(data, key)
  {
  }

  /** The variable definitions of the configuration, in order. */
  function VarDefsOf(data: Entries): Entries {
    match Get(data, "vars")
    case Some(Dict(defs)) => defs
    case _ => []
  }

  /** The provisioning result as `result` shows it. */
  function ResultValue(outputs: Value, resources: Value): Value {
    Dict([("outputs", outputs), ("resources", resources)])
  }

  /** r with ys in front of its value. */
  function PrependOk<T>(ys: seq<T>, r: Result<seq<T>>): Result<seq<T>> {
    match r
    case Ok(zs) => Ok(ys + zs)
    case Err(e) => Err(e)
  }

  lemma PrependNothing<T>(r: Result<seq<T>>)
    ensures PrependOk([], r) == r
  {
    if r.Ok? {
      assert [] + r.value == r.value;
    }
  }

  lemma PrependOkStep<T>(ys: seq<T>, y: T, r: Result<seq<T>>)
    ensures PrependOk(ys, PrependOk([y], r)) == PrependOk(ys + [y], r)
  {
    if r.Ok? {
      assert ys + ([y] + r.value) == (ys + [y]) + r.value;
    }
  }

  /** ConfigParser: the validated configuration, the first-phase variables
      (`cdf`, `env`, `vars`; `params` is always empty and `once` constant),
      the keys whose resolution waits for the provisioning result, the
      second-phase variables (`result`, `hooks`) and the state it opened. */
  class ConfigParser {
    var data: Entries
    const hooks: Hooks
    const env: Value
    /** platform.system().lower(), also published as cdf.platform. */
    const platform: string
    var cdf: Entries
    var vars: Entries
    var delayed: seq<string>
    var result: Value
    var hooksOut: Value
    const state: StateStore.State

    /** The state is consistent and every hook and named op has a name the
        checks accept (_validate_hooks passed). */
    ghost predicate Valid()
      reads this, state
    {
      state.Valid() && SchemaValid(hooks) && HookNamesOk(hooks)
    }

    constructor (data: Entries, hooks: Hooks, env: Value, platform: string, cdf: Entries, state: StateStore.State)
      requires state.Valid() && SchemaValid(hooks) && HookNamesOk(hooks)
      ensures Valid()
      ensures this.data == data && this.hooks == hooks && this.env == env && this.platform == platform
      ensures this.cdf == cdf && this.state == state
      ensures vars == [] && delayed == []
      ensures result == ResultValue(Dict([]), Dict([])) && hooksOut == Dict([])
    {
      this.data := data;
      this.hooks := hooks;
      this.env := env;
      this.platform := platform;
      this.cdf := cdf;
      this.state := state;
      vars := [];
      delayed := [];
      result := ResultValue(Dict([]), Dict([]));
      hooksOut := Dict([]);
    }

    function FirstScope(): (r: Entries)
      reads this
      ensures UniqueKeys(r)
    {
      FirstScopeOf(cdf, env, vars)
    }

    function SecondScope(): Entries
      reads this
    {
      SecondScopeOf(result, hooksOut)
    }

    /** interpolate(phase, template, context, extra_vars, raw_undefined_error). */
    function Interp(stage: Stage, template: Value, context: string, extra: Entries, raw: bool): Result<Value>
      reads this
      requires UniqueKeys(extra)
    {
      Interpolate(ScopeOf(stage, FirstScope(), SecondScope(), extra), stage, template, context, raw)
    }

    /** first_phase_vars[cdf][k] = interpolate(FIRST_PHASE, data[k], ...). */
    method ResolveCdfKey(k: string) returns (r: Outcome)
      requires HasKey(data, k)
      modifies this`cdf
      ensures var x := FirstValue(data, old(cdf), env, vars, k);
        && (r.Pass? <==> x.Ok?)
        && (r.Pass? ==> cdf == Put(old(cdf), k, x.value))
        && (r.Fail? ==> cdf == old(cdf) && r.error == x.error)
    {
      var x := FirstValue(data, cdf, env, vars, k);
      if x.Err? {
        return Fail(x.error);
      }
      cdf := Put(cdf, k, x.value);
      return Pass;
    }

    /** _lazy_variable_resolve: the definitions in order, each rendered in
        phase 1 against the variables resolved before it. */
    method LazyVariableResolve() returns (r: Outcome)
      modifies this`vars, this`delayed
      ensures (vars, delayed, r) == LazyFold(cdf, env, old(vars), old(delayed), VarDefsOf(data))
    {
      var defs := VarDefsOf(data);
      var i := 0;
      while i < |defs|
        invariant 0 <= i <= |defs|
        invariant LazyFold(cdf, env, vars, delayed, defs[i..]) == LazyFold(cdf, env, old(vars), old(delayed), defs)
      {
        var rest := defs[i..];
        assert rest[1..] == defs[i + 1..];
        var (k, v) := defs[i];
        var x := Interpolate(FirstScopeOf(cdf, env, vars), FirstPhase, v, VarContext(k, v), true);
        if x.Ok? {
          assert LazyFold(cdf, env, vars, delayed, rest) == LazyFold(cdf, env, Put(vars, k, x.value), delayed, defs[i + 1..]);
          vars := Put(vars, k, x.value);
        } else if x.error.UndefinedError? && Contains(x.error.msg, "result") {
          assert LazyFold(cdf, env, vars, delayed, rest) == LazyFold(cdf, env, vars, delayed + [k], defs[i + 1..]);
          delayed := delayed + [k];
        } else {
          assert LazyFold(cdf, env, vars, delayed, rest) == (vars, delayed, Fail(x.error));
          return Fail(x.error);
        }
        i := i + 1;
      }
      assert defs[i..] == [];
      return Pass;
    }

    /** delayed_variable_interpolate: the deferred keys, in order, rendered
        in phase 2 and written over their entries. */
    method DelayedVariableInterpolate() returns (r: Outcome)
      modifies this`vars
      ensures (vars, r) == DelayedFold(cdf, env, SecondScope(), old(vars), delayed, VarDefsOf(data))
    {
      var defs := VarDefsOf(data);
      var i := 0;
      while i < |delayed|
        invariant 0 <= i <= |delayed|
        invariant DelayedFold(cdf, env, SecondScope(), vars, delayed[i..], defs)
          == DelayedFold(cdf, env, SecondScope(), old(vars), delayed, defs)
      {
        assert delayed[i..][1..] == delayed[i + 1..];
        var k := delayed[i];
        match Get(defs, k)
        case None =>
          return Fail(OtherError("KeyError: '" + k + "'"));
        case Some(t) =>
          var x := Interp(SecondPhase, t, "variables in config in delayed interpolate '" + k + "'", [], false);
          assert ScopeOf(SecondPhase, FirstScope(), SecondScope(), []) == ScopeOf(SecondPhase, FirstScopeOf(cdf, env, vars), SecondScope(), []);
          if x.Err? {
            return Fail(x.error);
          }
          vars := Put(vars, k, x.value);
        i := i + 1;
      }
      return Pass;
    }

    /** _delayed_up_interpolate_element: every string leaf rendered in
        phase 1, lists element by element, dictionaries value by value. */
    method DelayedUpElement(obj: Value) returns (r: Result<Value>)
      ensures r == RewriteLeaves(obj, FirstScope())
      decreases obj, 1
    {
      match obj
      case List(xs) =>
        var ys := DelayedUpItems(obj, xs);
        if ys.Err? {
          return Err(ys.error);
        }
        return Ok(List(ys.value));
      case Dict(es) =>
        var fs := DelayedUpEntries(obj, es);
        if fs.Err? {
          return Err(fs.error);
        }
        return Ok(Dict(fs.value));
      case Str(_) =>
        return Interpolate(FirstScope(), FirstPhase, obj, "variables in config in delayed interpolate '" + obj.s + "'", false);
      case _ =>
        return Ok(obj);
    }

    /** The list loop of delayed_up_element. */
    method DelayedUpItems(parent: Value, xs: seq<Value>) returns (r: Result<seq<Value>>)
      requires parent == List(xs)
      ensures r == RewriteItems(parent, xs, FirstScope())
      decreases parent, 0
    {
      var scope := FirstScope();
      var ys: seq<Value> := [];
      var i := 0;
      assert xs[0..] == xs;
      PrependNothing(RewriteItems(parent, xs, scope));
      while i < |xs|
        invariant 0 <= i <= |xs|
        invariant forall x :: x in xs[i..] ==> x < parent
        invariant RewriteItems(parent, xs, scope) == PrependOk(ys, RewriteItems(parent, xs[i..], scope))
      {
        assert xs[i] in xs;
        assert xs[i..][0] == xs[i] && xs[i..][1..] == xs[i + 1..];
        var y := DelayedUpElement(xs[i]);
        if y.Err? {
          return Err(y.error);
        }
        assert RewriteItems(parent, xs[i..], scope) == PrependOk([y.value], RewriteItems(parent, xs[i + 1..], scope));
        PrependOkStep(ys, y.value, RewriteItems(parent, xs[i + 1..], scope));
        ys := ys + [y.value];
        i := i + 1;
      }
      assert xs[i..] == [];
      assert ys + [] == ys;
      return Ok(ys);
    }

    /** The dictionary loop of delayed_up_element. */
    method DelayedUpEntries(parent: Value, es: Entries) returns (r: Result<Entries>)
      requires parent == Dict(es)
      ensures r == RewriteEntries(parent, es, FirstScope())
      decreases parent, 0
    {
      var scope := FirstScope();
      var fs: Entries := [];
      var i := 0;
      assert es[0..] == es;
      PrependNothing(RewriteEntries(parent, es, scope));
      while i < |es|
        invariant 0 <= i <= |es|
        invariant forall k, x :: (k, x) in es[i..] ==> x < parent
        invariant RewriteEntries(parent, es, scope) == PrependOk(fs, RewriteEntries(parent, es[i..], scope))
      {
        assert (es[i].0, es[i].1) in es;
        assert es[i..][0] == es[i] && es[i..][1..] == es[i + 1..];
        var y := DelayedUpElement(es[i].1);
        if y.Err? {
          return Err(y.error);
        }
        assert RewriteEntries(parent, es[i..], scope) == PrependOk([(es[i].0, y.value)], RewriteEntries(parent, es[i + 1..], scope));
        PrependOkStep(fs, (es[i].0, y.value), RewriteEntries(parent, es[i + 1..], scope));
        fs := fs + [(es[i].0, y.value)];
        i := i + 1;
      }
      assert es[i..] == [];
      assert fs + [] == fs;
      return Ok(fs);
    }

    /** delayed_up_interpolate: the deferred variables first, then, when
        the configuration has `params`, every string of the configuration
        rendered in phase 1. */
    method DelayedUpInterpolate() returns (r: Outcome)
      modifies this`vars, this`data
      ensures var (v, o) := DelayedFold(cdf, env, SecondScope(), old(vars), delayed, VarDefsOf(old(data)));
        vars == v && (o.Fail? ==> r == o && data == old(data))
      ensures r.Pass? && HasKey(old(data), "params") ==>
        RewriteLeaves(Dict(old(data)), FirstScope()) == Ok(Dict(data))
      ensures r.Pass? && !HasKey(old(data), "params") ==> data == old(data)
      ensures r.Fail? && DelayedFold(cdf, env, SecondScope(), old(vars), delayed, VarDefsOf(old(data))).1.Pass? ==>
        HasKey(old(data), "params") && RewriteLeaves(Dict(old(data)), FirstScope()) == Err(r.error) && data == old(data)
    {
      r := DelayedVariableInterpolate();
      if r.Fail? {
        return;
      }
      if HasKey(data, "params") {
        var x := DelayedUpElement(Dict(data));
        if x.Err? {
          return Fail(x.error);
        }
        RewriteKeepsShape(Dict(data), FirstScope());
        data := x.value.entries;
      }
    }

    /** update_hooks_result. */
    method UpdateHooksResult(hr: StateStore.HookResults)
      modifies this`hooksOut
      ensures HooksRep(hooksOut, hr)
    {
      hooksOut := HooksValue(hr);
    }

    /** The last step of the constructor: the state's up result and hook
        results become the second-phase variables. */
    method Publish()
      modifies this`result, this`hooksOut
      ensures result == ResultValue(state.upOutputs, state.upResources)
      ensures HooksRep(hooksOut, state.hooksResult)
      ensures vars == old(vars) && cdf == old(cdf) && data == old(data) && delayed == old(delayed)
      ensures unchanged(state)
    {
      UpdateResult(state.upOutputs, state.upResources);
      UpdateHooksResult(state.hooksResult);
    }

    /** _update_result, with the state's up result. */
    method UpdateResult(outputs: Value, resources: Value)
      modifies this`result
      ensures result == ResultValue(outputs, resources)
    {
      result := ResultValue(outputs, resources);
    }

    /** The second half of _setup_first_phase_interpolation, once the state
        is open: cdf.name, then the variables (which therefore see cdf.name
        but neither cdf.resource_group nor cdf.location), then the resource
        group, the location and `up`, and finally state.setup with the
        name, the resource group and hooks_ops. The first failure stops. */
    method ResolveIdentity() returns (r: Outcome, ghost cdfAtVars: Entries)
      requires Valid() && ConfigShape(data)
      modifies this`cdf, this`vars, this`delayed, this`data
      modifies state`configHooks, state`resourceGroup, state`deploymentName, state`hooksResult
      ensures Valid() && ConfigShape(data)
      ensures r.Pass? ==> Resolved(old(cdf), cdfAtVars, env, old(vars), old(delayed), VarDefsOf(old(data)), vars, delayed)
      ensures r.Pass? ==> state.deploymentName.Some? && state.resourceGroup.Some?
      ensures r.Pass? ==>
        var pl := Placement(old(data), cdfAtVars, env, vars);
        && pl.Ok?
        && cdf == Put(Put(cdfAtVars, "resource_group", pl.value.0), "location", pl.value.1)
        && data == Put(old(data), "up", pl.value.2)
        && state.resourceGroup == (if old(state.resourceGroup).None? then Some(pl.value.0.s) else old(state.resourceGroup))
      ensures r.Pass? ==>
        && Get(cdfAtVars, "name").Some? && Get(cdfAtVars, "name").value.Str?
        && state.deploymentName == (if old(state.deploymentName).None? then Some(Get(cdfAtVars, "name").value.s)
                                    else old(state.deploymentName))
        && HooksSignature(hooks, state.configHooks)
        && state.hooksResult == StateStore.Reconcile(old(state.hooksResult), state.configHooks)
      ensures r.Fail? ==> state.deploymentName == old(state.deploymentName) && state.hooksResult == old(state.hooksResult)
    {
      var name;
      r, name, cdfAtVars := ResolveNameAndVars();
      if r.Fail? {
        return;
      }
      r := ResolvePlacement(name);
    }

    /** cdf.name, then the variables. */
    method ResolveNameAndVars() returns (r: Outcome, name: string, ghost cdfAtVars: Entries)
      requires ConfigShape(data)
      modifies this`cdf, this`vars, this`delayed
      ensures r.Pass? ==> cdf == cdfAtVars && Get(cdf, "name") == Some(Str(name))
      ensures r.Pass? ==> Resolved(old(cdf), cdfAtVars, env, old(vars), old(delayed), VarDefsOf(data), vars, delayed)
    {
      cdfAtVars := cdf;
      r, name := ResolveName();
      if r.Fail? {
        return;
      }
      cdfAtVars := cdf;
      if HasKey(data, "vars") {
        r := LazyVariableResolve();
      }
    }

    /** cdf.name: the configuration's name rendered in phase 1. */
    method ResolveName() returns (r: Outcome, name: string)
      requires ConfigShape(data)
      modifies this`cdf
      ensures r.Pass? ==> Get(cdf, "name") == Some(Str(name))
      ensures r.Pass? ==> forall k :: HasKey(cdf, k) <==> HasKey(old(cdf), k) || k == "name"
    {
      name := "";
      r := ResolveCdfKey("name");
      if r.Fail? {
        return;
      }
      name := Get(cdf, "name").value.s;
    }

    /** cdf.resource_group, cdf.location, `up`, then state.setup. */
    method ResolvePlacement(name: string) returns (r: Outcome)
      requires Valid() && ConfigShape(data)
      modifies this`cdf, this`data
      modifies state`configHooks, state`resourceGroup, state`deploymentName, state`hooksResult
      ensures Valid() && ConfigShape(data) && VarDefsOf(data) == VarDefsOf(old(data))
      ensures r.Pass? ==> state.deploymentName.Some? && state.resourceGroup.Some?
      ensures r.Pass? ==> HasKey(cdf, "resource_group") && HasKey(cdf, "location")
      ensures var pl := Placement(old(data), old(cdf), env, vars);
        && (pl.Err? ==> r == Fail(pl.error))
        && (pl.Ok? ==> && cdf == Put(Put(old(cdf), "resource_group", pl.value.0), "location", pl.value.1)
                       && data == Put(old(data), "up", pl.value.2))
        && (pl.Ok? && !NoDuplicateOps(hooks) ==> r.Fail? && r.error.CliError?)
        && (pl.Ok? && NoDuplicateOps(hooks) ==>
              && HooksSignature(hooks, state.configHooks)
              && (r.Fail? <==> || StateStore.Clash(old(state.resourceGroup), pl.value.0.s, state.phase)
                               || StateStore.Clash(old(state.deploymentName), name, state.phase))
              && (r.Fail? ==> r.error.CliError?)
              && state.resourceGroup == (if old(state.resourceGroup).None? then Some(pl.value.0.s) else old(state.resourceGroup)))
      ensures r.Pass? ==> state.deploymentName == (if old(state.deploymentName).None? then Some(name) else old(state.deploymentName))
      ensures r.Pass? ==> && HooksSignature(hooks, state.configHooks)
                          && state.hooksResult == StateStore.Reconcile(old(state.hooksResult), state.configHooks)
      ensures r.Fail? ==> state.deploymentName == old(state.deploymentName) && state.hooksResult == old(state.hooksResult)
      ensures Placement(old(data), old(cdf), env, vars).Err? ==> state.resourceGroup == old(state.resourceGroup)
    {
      var rg;
      r, rg := ResolveRendered();
      if r.Fail? {
        return;
      }
      r := SetupState(name, rg);
    }

    /** cdf.resource_group, cdf.location and `up`: Placement, written
        back. Returns the resource group. */
    method ResolveRendered() returns (r: Outcome, rg: string)
      requires ConfigShape(data)
      modifies this`cdf, this`data
      ensures ConfigShape(data) && VarDefsOf(data) == VarDefsOf(old(data))
      ensures var gl := Grouped(old(data), old(cdf), env, vars);
        && (gl.Err? ==> r == Fail(gl.error))
        && (gl.Ok? ==> rg == gl.value.0.s && cdf == Put(Put(old(cdf), "resource_group", gl.value.0), "location", gl.value.1))
      ensures var u := FirstValue(old(data), cdf, env, vars, "up");
        && (Grouped(old(data), old(cdf), env, vars).Ok? && u.Err? ==> r == Fail(u.error))
        && (Grouped(old(data), old(cdf), env, vars).Ok? && u.Ok? ==> r == Pass && data == Put(old(data), "up", u.value))
    {
      r, rg := ResolveGroupAndLocation();
      if r.Fail? {
        return;
      }
      r := ResolveUp();
    }

    /** hooks_ops, then state.setup with the name, the resource group and
        the hooks' signature. */
    method SetupState(name: string, rg: string) returns (r: Outcome)
      requires Valid()
      modifies state`configHooks, state`resourceGroup, state`deploymentName, state`hooksResult
      ensures Valid()
      ensures !NoDuplicateOps(hooks) ==>
        && r.Fail? && r.error.CliError?
        && state.resourceGroup == old(state.resourceGroup)
      ensures NoDuplicateOps(hooks) ==>
        && HooksSignature(hooks, state.configHooks)
        && (r.Fail? <==> StateStore.Clash(old(state.resourceGroup), rg, state.phase) || StateStore.Clash(old(state.deploymentName), name, state.phase))
        && (r.Fail? ==> r.error.CliError?)
        && state.resourceGroup == (if old(state.resourceGroup).None? then Some(rg) else old(state.resourceGroup))
      ensures r.Pass? ==> && HooksSignature(hooks, state.configHooks)
                          && state.deploymentName == (if old(state.deploymentName).None? then Some(name) else old(state.deploymentName))
                          && state.hooksResult == StateStore.Reconcile(old(state.hooksResult), state.configHooks)
      ensures r.Fail? ==> state.deploymentName == old(state.deploymentName) && state.hooksResult == old(state.hooksResult)
    {
      var ops := HooksOps(hooks);
      if ops.Err? {
        return Fail(ops.error);
      }
      r := state.Setup(name, rg, ops.value);
    }

    /** cdf.resource_group, then cdf.location; returns the resource group. */
    method ResolveGroupAndLocation() returns (r: Outcome, rg: string)
      requires ConfigShape(data)
      modifies this`cdf
      ensures r.Pass? ==> HasKey(cdf, "resource_group") && HasKey(cdf, "location")
      ensures var gl := Grouped(data, old(cdf), env, vars);
        && (gl.Err? ==> r == Fail(gl.error))
        && (gl.Ok? ==> && r == Pass && rg == gl.value.0.s
                       && cdf == Put(Put(old(cdf), "resource_group", gl.value.0), "location", gl.value.1))
      ensures r.Pass? ==> Get(cdf, "resource_group") == Some(Str(rg))
    {
      rg := "";
      r := ResolveCdfKey("resource_group");
      if r.Fail? {
        return;
      }
      rg := Get(cdf, "resource_group").value.s;
      r := ResolveCdfKey("location");
    }

    /** `up` rendered in phase 1 and written back into the configuration. */
    method ResolveUp() returns (r: Outcome)
      requires ConfigShape(data)
      modifies this`data
      ensures ConfigShape(data) && VarDefsOf(data) == VarDefsOf(old(data))
      ensures var u := FirstValue(old(data), cdf, env, vars, "up");
        && (u.Err? ==> r == Fail(u.error) && data == old(data))
        && (u.Ok? ==> r == Pass && data == Put(old(data), "up", u.value))
    {
      r := Pass;
      var up := FirstValue(data, cdf, env, vars, "up");
      if up.Err? {
        return Fail(up.error);
      }
      ShapeAfterPut(data, "up", up.value);
      data := Put(data, "up", up.value);
    }
  }

  /** os.path.join of two path parts. */
  function PathJoin(a: string, b: string): (r: string)
    ensures StartsWith(b, "/") ==> r == b
  {
    if StartsWith(b, "/") then b
    else if a == "" || a[|a| - 1] == '/' then a + b
    else a + "/" + b
  }

  /** The bootstrap `cdf` keys: version, config_dir and platform, then
      tmp_dir rendered against them. */
  function BootCdf(version: string, configDir: string, platform: string, env: Value, tmpDir: Value): (r: Result<Entries>)
    ensures r.Ok? ==> !HasKey(r.value, "name") && !HasKey(r.value, "resource_group") && !HasKey(r.value, "location")
    ensures r.Ok? ==> HasKey(r.value, "tmp_dir")
  {
    var cdf := [("version", Str(version)), ("config_dir", Str(configDir)), ("platform", Str(platform))];
    var tmp :- Interpolate(FirstScopeOf(cdf, env, []), FirstPhase, tmpDir, "key tmp_dir", false);
    assert !HasKey(cdf, "tmp_dir") && !HasKey(cdf, "name") && !HasKey(cdf, "resource_group") && !HasKey(cdf, "location");
    Ok(Put(cdf, "tmp_dir", tmp))
  }

  /** Where the state lives: the given location, or else state_Path joined
      with state_filename, both rendered in phase 1 and written back. */
  method StateUri(data: Entries, cdf: Entries, env: Value, cliState: string) returns (r: Result<string>, d: Entries)
    requires ConfigShape(data)
    ensures ConfigShape(d) && VarDefsOf(d) == VarDefsOf(data)
    ensures cliState != "" ==> r == Ok(cliState) && d == data
    ensures forall k :: k != "state_filename" && k != "state_Path" ==> Get(d, k) == Get(data, k)
  {
    d := data;
    if cliState != "" {
      return Ok(cliState), d;
    }
    var fname := Interpolate(FirstScopeOf(cdf, env, []), FirstPhase, Get(d, "state_filename").value, "key state_filename", false);
    if fname.Err? {
      return Err(fname.error), d;
    }
    ShapeAfterPut(d, "state_filename", fname.value);
    d := Put(d, "state_filename", fname.value);
    var fpath := Interpolate(FirstScopeOf(cdf, env, []), FirstPhase, Get(d, "state_Path").value, "key state_Path", false);
    if fpath.Err? {
      return Err(fpath.error), d;
    }
    ShapeAfterPut(d, "state_Path", fpath.value);
    d := Put(d, "state_Path", fpath.value);
    return Ok(PathJoin(fpath.value.s, fname.value.s)), d;
  }

  /** ConfigParser(config, cli_state): the hook checks, the bootstrap
      `cdf` keys, the state location, the state, the identity and
      variables, and finally the second-phase variables from the state's
      up result and hook results. Reading the configuration file, schema
      validation and creating tmp_dir are not part of this model: `data`
      and `hooks` are the validated configuration. */
  method NewConfigParser(data: Entries, hooks: Hooks, env: Value, version: string, configDir: string, platform: string,
                         cliState: string, fileDoc: Option<StateStore.Document>, urlDoc: Option<StateStore.Document>)
    returns (r: Result<ConfigParser>, ghost cdfAtVars: Entries)
    requires SchemaValid(hooks) && ConfigShape(data)
    requires fileDoc.Some? ==> StateStore.DocValid(fileDoc.value)
    requires urlDoc.Some? ==> StateStore.DocValid(urlDoc.value)
    ensures FirstHookError(hooks).Some? ==> r == Err(FirstHookError(hooks).value)
    ensures r.Ok? ==> fresh(r.value) && fresh(r.value.state) && r.value.Valid() && r.value.hooks == hooks
    ensures r.Ok? ==> !HasKey(cdfAtVars, "resource_group") && !HasKey(cdfAtVars, "location") && HasKey(cdfAtVars, "name")
    ensures r.Ok? ==> (r.value.vars, r.value.delayed, Pass) == LazyFold(cdfAtVars, env, [], [], VarDefsOf(data))
    ensures r.Ok? ==> r.value.result == ResultValue(r.value.state.upOutputs, r.value.state.upResources)
    ensures r.Ok? ==> HooksRep(r.value.hooksOut, r.value.state.hooksResult)
    ensures r.Ok? && cliState != "" ==> StateStore.ParseLocation(cliState) == Ok(r.value.state.location)
    ensures r.Ok? ==>
      var pl := Placement(data, cdfAtVars, env, r.value.vars);
      && pl.Ok?
      && Get(r.value.cdf, "resource_group") == Some(pl.value.0) && Get(r.value.cdf, "location") == Some(pl.value.1)
      && Get(r.value.data, "up") == Some(pl.value.2)
      && SetUp(hooks, StateStore.Opened(r.value.state.location, fileDoc, urlDoc), r.value.state.Doc(),
               r.value.state.configHooks, cdfAtVars, pl)
  {
    cdfAtVars := [];
    var v := ValidateHooks(hooks);
    if v.Fail? {
      return Err(v.error), cdfAtVars;
    }
    ValidateHooksAccepts(hooks);
    var cdf := BootCdf(version, configDir, platform, env, Get(data, "tmp_dir").value);
    if cdf.Err? {
      return Err(cdf.error), cdfAtVars;
    }
    var uri, d := StateUri(data, cdf.value, env, cliState);
    if uri.Err? {
      return Err(uri.error), cdfAtVars;
    }
    r, cdfAtVars := OpenConfigured(data, d, hooks, env, platform, cdf.value, uri.value, fileDoc, urlDoc);
  }

  /** OpenAt on the configuration `d` that StateUri derived from `data`. */
  method OpenConfigured(data: Entries, d: Entries, hooks: Hooks, env: Value, platform: string, cdf: Entries, uri: string,
                        fileDoc: Option<StateStore.Document>, urlDoc: Option<StateStore.Document>)
    returns (r: Result<ConfigParser>, ghost cdfAtVars: Entries)
    requires SchemaValid(hooks) && HookNamesOk(hooks) && ConfigShape(data) && ConfigShape(d)
    requires VarDefsOf(d) == VarDefsOf(data)
    requires Get(d, "resource_group") == Get(data, "resource_group") && Get(d, "location") == Get(data, "location")
    requires Get(d, "up") == Get(data, "up")
    requires fileDoc.Some? ==> StateStore.DocValid(fileDoc.value)
    requires urlDoc.Some? ==> StateStore.DocValid(urlDoc.value)
    ensures r.Ok? ==> fresh(r.value) && fresh(r.value.state) && r.value.Valid() && r.value.hooks == hooks
    ensures r.Ok? ==> StateStore.ParseLocation(uri) == Ok(r.value.state.location)
    ensures r.Ok? ==> Resolved(cdf, cdfAtVars, env, [], [], VarDefsOf(data), r.value.vars, r.value.delayed)
    ensures r.Ok? ==> r.value.result == ResultValue(r.value.state.upOutputs, r.value.state.upResources)
    ensures r.Ok? ==> HooksRep(r.value.hooksOut, r.value.state.hooksResult)
    ensures r.Ok? ==>
      var pl := Placement(data, cdfAtVars, env, r.value.vars);
      && pl.Ok?
      && Get(r.value.cdf, "resource_group") == Some(pl.value.0) && Get(r.value.cdf, "location") == Some(pl.value.1)
      && Get(r.value.data, "up") == Some(pl.value.2)
      && SetUp(hooks, StateStore.Opened(r.value.state.location, fileDoc, urlDoc), r.value.state.Doc(),
               r.value.state.configHooks, cdfAtVars, pl)
  {
    r, cdfAtVars := OpenAt(d, hooks, env, platform, cdf, uri, fileDoc, urlDoc);
    if r.Ok? {
      PlacedAsConfigured(data, d, cdfAtVars, env, r.value.vars, r.value.cdf, r.value.data);
    }
  }

  /** The state opened at `uri`, then the resolver on it. */
  method OpenAt(data: Entries, hooks: Hooks, env: Value, platform: string, cdf: Entries, uri: string,
                fileDoc: Option<StateStore.Document>, urlDoc: Option<StateStore.Document>)
    returns (r: Result<ConfigParser>, ghost cdfAtVars: Entries)
    requires SchemaValid(hooks) && HookNamesOk(hooks) && ConfigShape(data)
    requires fileDoc.Some? ==> StateStore.DocValid(fileDoc.value)
    requires urlDoc.Some? ==> StateStore.DocValid(urlDoc.value)
    ensures r.Ok? ==> fresh(r.value) && fresh(r.value.state) && r.value.Valid() && r.value.hooks == hooks
    ensures r.Ok? ==> StateStore.ParseLocation(uri) == Ok(r.value.state.location)
    ensures r.Ok? ==> Resolved(cdf, cdfAtVars, env, [], [], VarDefsOf(data), r.value.vars, r.value.delayed)
    ensures r.Ok? ==> r.value.result == ResultValue(r.value.state.upOutputs, r.value.state.upResources)
    ensures r.Ok? ==> HooksRep(r.value.hooksOut, r.value.state.hooksResult)
    ensures r.Ok? ==> Placed(data, cdfAtVars, env, r.value.vars, r.value.cdf, r.value.data)
    ensures r.Ok? ==> SetUp(hooks, StateStore.Opened(r.value.state.location, fileDoc, urlDoc), r.value.state.Doc(),
                            r.value.state.configHooks, cdfAtVars, Placement(data, cdfAtVars, env, r.value.vars))
  {
    cdfAtVars := [];
    var st := StateStore.OpenState(uri, fileDoc, urlDoc);
    if st.Err? {
      return Err(st.error), cdfAtVars;
    }
    ghost var loc := st.value.location;
    r, cdfAtVars := OpenParser(data, hooks, env, platform, cdf, st.value, StateStore.Opened(loc, fileDoc, urlDoc));
    assert r.Ok? ==> r.value.state.location == loc;
  }

  /** A placement resolved on `d` is the one configured in `data` when the two agree on the keys it reads. */
  lemma PlacedAsConfigured(data: Entries, d: Entries, cdfAtVars: Entries, env: Value, vars: Entries, cdf: Entries, dataOut: Entries)
    requires ConfigShape(data) && ConfigShape(d)
    requires Get(d, "resource_group") == Get(data, "resource_group") && Get(d, "location") == Get(data, "location")
    requires Get(d, "up") == Get(data, "up")
    requires Placed(d, cdfAtVars, env, vars, cdf, dataOut)
    ensures Placement(d, cdfAtVars, env, vars) == Placement(data, cdfAtVars, env, vars)
    ensures var pl := Placement(data, cdfAtVars, env, vars);
      && pl.Ok?
      && Get(cdf, "resource_group") == Some(pl.value.0) && Get(cdf, "location") == Some(pl.value.1)
      && Get(dataOut, "up") == Some(pl.value.2)
  {
    PlacementSameKeys(data, d, cdfAtVars, env, vars);
  }

  /** Placement reads only resource_group, location and `up`. */
  lemma PlacementSameKeys(data: Entries, d: Entries, cdf: Entries, env: Value, vars: Entries)
    requires ConfigShape(data) && ConfigShape(d)
    requires Get(d, "resource_group") == Get(data, "resource_group") && Get(d, "location") == Get(data, "location")
    requires Get(d, "up") == Get(data, "up")
    ensures Placement(d, cdf, env, vars) == Placement(data, cdf, env, vars)
  {
    var g := FirstValue(data, cdf, env, vars, "resource_group");
    assert FirstValue(d, cdf, env, vars, "resource_group") == g;
    if g.Ok? {
      var c := Put(cdf, "resource_group", g.value);
      var l := FirstValue(data, c, env, vars, "location");
      assert FirstValue(d, c, env, vars, "location") == l;
      if l.Ok? {
        assert FirstValue(d, Put(c, "location", l.value), env, vars, "up") == FirstValue(data, Put(c, "location", l.value), env, vars, "up");
      }
    }
  }

  /** cdf.resource_group, cdf.location and `up` hold what Placement
      renders after the variables. */
  ghost predicate Placed(data: Entries, cdfAtVars: Entries, env: Value, vars: Entries, cdf: Entries, data': Entries)
    requires ConfigShape(data)
  {
    var pl := Placement(data, cdfAtVars, env, vars);
    && pl.Ok?
    && cdf == Put(Put(cdfAtVars, "resource_group", pl.value.0), "location", pl.value.1)
    && data' == Put(data, "up", pl.value.2)
  }

  /** What state.setup leaves behind when it passes, from the document
      `before` to `after`: a resource group and a deployment name are
      recorded only where none was, and the hook results are reconciled
      with the hooks' signature. */
  ghost predicate SetUp(hooks: Hooks, before: StateStore.Document, after: StateStore.Document,
                        config: StateStore.HookSignature, cdfAtVars: Entries, pl: Result<(Value, Value, Value)>)
  {
    && pl.Ok? && pl.value.0.Str?
    && Get(cdfAtVars, "name").Some? && Get(cdfAtVars, "name").value.Str?
    && after.resourceGroup == (if before.resourceGroup.None? then Some(pl.value.0.s) else before.resourceGroup)
    && after.deploymentName == (if before.deploymentName.None? then Some(Get(cdfAtVars, "name").value.s)
                                else before.deploymentName)
    && HooksSignature(hooks, config)
    && StateStore.NoEmptyOp(before.hooksResult) && (forall h :: h in config ==> "" !in config[h])
    && after.hooksResult == StateStore.Reconcile(before.hooksResult, config)
  }

  /** What resolving the identity leaves behind: the variables saw cdf
      as it was plus `name`, and vars and delayed are what the lazy pass
      computes from them. */
  ghost predicate Resolved(cdf0: Entries, cdfAtVars: Entries, env: Value, vars0: Entries, delayed0: seq<string>,
                           defs: Entries, vars: Entries, delayed: seq<string>) {
    && (forall k :: HasKey(cdfAtVars, k) <==> HasKey(cdf0, k) || k == "name")
    && (vars, delayed, Pass) == LazyFold(cdfAtVars, env, vars0, delayed0, defs)
  }

  /** The part of ConfigParser(...) after the state is open. */
  method OpenParser(data: Entries, hooks: Hooks, env: Value, platform: string, cdf: Entries, st: StateStore.State,
                    ghost before: StateStore.Document)
    returns (r: Result<ConfigParser>, ghost cdfAtVars: Entries)
    requires SchemaValid(hooks) && HookNamesOk(hooks) && ConfigShape(data) && st.Valid() && st.Doc() == before
    modifies st`configHooks, st`resourceGroup, st`deploymentName, st`hooksResult
    ensures r.Ok? ==> fresh(r.value) && r.value.state == st && r.value.Valid() && r.value.hooks == hooks
    ensures st.location == old(st.location)
    ensures r.Ok? ==> Resolved(cdf, cdfAtVars, env, [], [], VarDefsOf(data), r.value.vars, r.value.delayed)
    ensures r.Ok? ==> r.value.result == ResultValue(st.upOutputs, st.upResources)
    ensures r.Ok? ==> HooksRep(r.value.hooksOut, st.hooksResult)
    ensures r.Ok? ==> Placed(data, cdfAtVars, env, r.value.vars, r.value.cdf, r.value.data)
    ensures r.Ok? ==> SetUp(hooks, before, st.Doc(), st.configHooks, cdfAtVars, Placement(data, cdfAtVars, env, r.value.vars))
    ensures r.Err? ==> st.deploymentName == old(st.deploymentName) && st.hooksResult == old(st.hooksResult)
  {
    var p;
    r, p, cdfAtVars := ResolveParser(data, hooks, env, platform, cdf, st, before);
    if r.Ok? {
      p.Publish();
    }
  }

  /** The first-phase part: a new resolver whose identity and variables
      are resolved against the open state. */
  method ResolveParser(data: Entries, hooks: Hooks, env: Value, platform: string, cdf: Entries, st: StateStore.State,
                       ghost before: StateStore.Document)
    returns (r: Result<ConfigParser>, p: ConfigParser, ghost cdfAtVars: Entries)
    requires SchemaValid(hooks) && HookNamesOk(hooks) && ConfigShape(data) && st.Valid() && st.Doc() == before
    modifies st`configHooks, st`resourceGroup, st`deploymentName, st`hooksResult
    ensures fresh(p) && (r.Ok? ==> r.value == p)
    ensures st.location == old(st.location)
    ensures r.Ok? ==> p.state == st && p.Valid() && p.hooks == hooks
    ensures r.Ok? ==> Resolved(cdf, cdfAtVars, env, [], [], VarDefsOf(data), p.vars, p.delayed)
    ensures r.Ok? ==> Placed(data, cdfAtVars, env, p.vars, p.cdf, p.data)
    ensures r.Ok? ==> SetUp(hooks, before, st.Doc(), st.configHooks, cdfAtVars, Placement(data, cdfAtVars, env, p.vars))
    ensures r.Err? ==> st.deploymentName == old(st.deploymentName) && st.hooksResult == old(st.hooksResult)
  {
    ghost var loc := st.location;
    p := new ConfigParser(data, hooks, env, platform, cdf, st);
    var res;
    res, cdfAtVars := p.ResolveIdentity();
    assert st.location == loc;
    if res.Fail? {
      return Err(res.error), p, cdfAtVars;
    }
    return Ok(p), p, cdfAtVars;
  }
}
