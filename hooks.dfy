/** The hook engine of azext_cdf/hooks.py: hooks triggered by a lifecycle
    event, one hook run with its condition and its op loop (platform
    filter, print and call ops, recorded results), and the recursion
    guard on call ops. The az, cmd and script runners are abstract. */
module HookEngine {
  import opened Values
  import Utils
  import StateStore
  import Parser

  /** RECURSION_LIMIT: the deepest call nesting a hook run accepts. */
  const RecursionLimit := 5

  /** How far a run at this depth may still recurse. */
  function Budget(depth: nat): nat {
    if depth <= RecursionLimit + 1 then RecursionLimit + 1 - depth else 0
  }

  /** The external op runners (az, cmd and script): given the op kind, the
      hook name, the op's display name, its rendered args and cwd and the
      value passed as `interactive`, they yield stdout and stderr or fail. */
  type Runner = (Parser.OpKind, string, string, Value, Value, bool) -> Result<(string, string)>

  // ---- _evaluate_condition ----

  const TrueWords: seq<string> := ["true", "1", "t", "y", "yes"]
  const FalseWords: seq<string> := ["false", "0", "f", "n", "no"]

  /** What a rendered `run_if` means. */
  datatype Verdict = Run | Skip | RunOnce | Unknown

  /** The rendered text is stripped; its lower-cased form is looked up in
      the two word lists; failing both, the stripped text (not lowered)
      is searched for the run-once marker. */
  function Classify(rendered: string): Verdict {
    var t := Strip(rendered);
    if Lower(t) in TrueWords then Run
    else if Lower(t) in FalseWords then Skip
    else if Contains(t, Parser.RunOnce) then RunOnce
    else Unknown
  }

  /** `_condition.ran` of one hook's results, False when absent. */
  function Ran(entry: map<string, StateStore.OpData>): Value {
    if "_condition" in entry && "ran" in entry["_condition"] then entry["_condition"]["ran"] else Bool(false)
  }

  /** _evaluate_condition after the interpolation of `run_if`: a run-once
      condition runs iff the hook has not recorded a run; a hook with no
      results entry is a KeyError; an unknown word is a CLIError (whose
      message has its two arguments swapped). */
  function EvaluateCondition(rendered: string, hook: string, results: StateStore.HookResults): (r: Result<bool>)
    ensures r == Ok(true) <==>
      Classify(rendered) == Run || (Classify(rendered) == RunOnce && hook in results && !Truthy(Ran(results[hook])))
    ensures r == Ok(false) <==>
      Classify(rendered) == Skip || (Classify(rendered) == RunOnce && hook in results && Truthy(Ran(results[hook])))
    ensures r.Err? && Classify(rendered) == Unknown ==> r.error.CliError?
    ensures r.Err? && Classify(rendered) != Unknown ==> r.error.OtherError? && hook !in results
  {
    match Classify(rendered)
    case Run => Ok(true)
    case Skip => Ok(false)
    case RunOnce =>
      if hook in results then Ok(!Truthy(Ran(results[hook])))
      else Err(OtherError("KeyError: '" + hook + "'"))
    case Unknown =>
      Err(CliError("A known boolean evaluation of condition hook '" + Strip(rendered) + "' expression '" + hook + "'"))
  }

  /** A leading blank does not change the verdict: `run_if` is stripped. */
  lemma StripLeadingBlank(c: char, s: string)
    requires IsSpace(c)
    ensures Strip([c] + s) == Strip(s)
  {
    assert ([c] + s)[1..] == s;
  }

  lemma ConditionIgnoresLeadingBlank(c: char, s: string, hook: string, results: StateStore.HookResults)
    requires IsSpace(c)
    ensures EvaluateCondition([c] + s, hook, results) == EvaluateCondition(s, hook, results)
  {
    StripLeadingBlank(c, s);
  }

  /** The value of the `once` variable, rendered as a condition, is the
      run-once marker: it is no boolean word and contains the marker. */
  lemma OnceMarkerClassified()
    ensures Classify(Parser.RunOnce) == RunOnce
  {
    var t := Parser.RunOnce;
    assert |t| == 11 && !IsSpace(t[0]) && !IsSpace(t[10]);
    assert Strip(t) == t;
    assert forall w :: w in TrueWords || w in FalseWords ==> |w| <= 5;
    assert t[..|t|] == t;
  }

  /** A run-once hook runs the first time (no `_condition` recorded yet) and
      is skipped once run_hook has recorded `ran: True` for it, whatever
      else is stored. */
  lemma OnceRunsOnce(rendered: string, hook: string, results: StateStore.HookResults)
    requires Classify(rendered) == RunOnce && hook in results
    ensures "_condition" !in results[hook] ==> EvaluateCondition(rendered, hook, results) == Ok(true)
    ensures var cur := if "_condition" in results[hook] then results[hook]["_condition"] else map[];
      var after := results[hook := results[hook]["_condition" := cur + map["ran" := Bool(true)]]];
      EvaluateCondition(rendered, hook, after) == Ok(false)
  {
    var cur := if "_condition" in results[hook] then results[hook]["_condition"] else map[];
    var after := results[hook := results[hook]["_condition" := cur + map["ran" := Bool(true)]]];
    assert Ran(after[hook]) == Bool(true);
  }

  // ---- looking up a hook, naming an op, the platform filter ----

  function IndexOf(hooks: Parser.Hooks, name: string): (r: Option<nat>)
    ensures r.Some? ==> r.value < |hooks| && hooks[r.value].0 == name
    ensures r.None? ==> forall i :: 0 <= i < |hooks| ==> hooks[i].0 != name
  {
    if hooks == [] then None
    else if hooks[0].0 == name then Some(0)
    else match IndexOf(hooks[1..], name)
      case None => None
      case Some(i) => Some(i + 1)
  }

  /** `data[hooks][name]`: a list or a dictionary is unhashable (a
      TypeError); any other value that is no configured hook name is a
      KeyError. */
  function FindHook(hooks: Parser.Hooks, name: Value): (r: Result<nat>)
    ensures r.Ok? ==> r.value < |hooks| && name == Str(hooks[r.value].0)
    ensures r.Err? ==> r.error.OtherError? && forall i :: 0 <= i < |hooks| ==> name != Str(hooks[i].0)
  {
    if name.List? || name.Dict? then
      Err(OtherError("TypeError: unhashable type: '" + (if name.List? then "list" else "dict") + "'"))
    else if name.Str? then
      match IndexOf(hooks, name.s)
      case Some(i) => Ok(i)
      case None => Err(OtherError("KeyError: " + Repr(name)))
    else Err(OtherError("KeyError: " + Repr(name)))
  }

  /** ops_name: the op's name, else its description, else "#<n>" with n
      counted from 1. */
  function OpsName(op: Parser.Op, n: nat): (r: string)
    ensures op.name.Some? ==> r == op.name.value
    ensures op.name.None? && op.description.Some? ==> r == op.description.value
    ensures op.name.None? && op.description.None? ==>
      |r| >= 2 && r[0] == '#' && forall c :: c in r[1..] ==> '0' <= c <= '9'
  {
    if op.name.Some? then op.name.value
    else if op.description.Some? then op.description.value
    else "#" + IntToString(n)
  }

  /** Two ops with neither a name nor a description at different
      positions get different labels. */
  lemma OpsNameNumbers(op: Parser.Op, op': Parser.Op, n: nat, m: nat)
    requires op.name.None? && op.description.None? && op'.name.None? && op'.description.None?
    ensures OpsName(op, n) == OpsName(op', m) <==> n == m
  {
    if OpsName(op, n) == OpsName(op', m) {
      assert NatToString(n) == OpsName(op, n)[1..];
      NatToStringInjective(n, m);
    }
  }

  /** Decimal numerals name their numbers. */
  lemma {:induction false} NatToStringInjective(a: nat, b: nat)
    requires NatToString(a) == NatToString(b)
    ensures a == b
    decreases a
  {
    var sa, sb := NatToString(a), NatToString(b);
    if a >= 10 && b >= 10 {
      assert sa[..|sa| - 1] == NatToString(a / 10) && sb[..|sb| - 1] == NatToString(b / 10);
      NatToStringInjective(a / 10, b / 10);
      assert DigitChar(a % 10) == sa[|sa| - 1] == DigitChar(b % 10);
    }
  }

  /** An op runs everywhere when its platform is (or lists) "", and on the
      current platform when it is (or lists) that platform. */
  function PlatformAllows(platform: Value, mine: string): (r: bool)
    requires Parser.StrOrStrList(platform)
    ensures r <==> (platform == Str("") || platform == Str(mine)
      || (platform.List? && (Str("") in platform.items || Str(mine) in platform.items)))
  {
    Utils.IsEqualOrIn("", platform) == Ok(true) || Utils.IsEqualOrIn(mine, platform) == Ok(true)
  }

  predicate PlatformsValid(ops: seq<Parser.Op>) {
    forall k :: 0 <= k < |ops| ==> Parser.StrOrStrList(ops[k].platform)
  }

  /** The indices, in order, of those of the first n ops that pass the
      platform filter. */
  function Selected(ops: seq<Parser.Op>, mine: string, n: nat): seq<nat>
    requires n <= |ops| && PlatformsValid(ops)
  {
    if n == 0 then []
    else Selected(ops, mine, n - 1) + (if PlatformAllows(ops[n - 1].platform, mine) then [n - 1] else [])
  }

  /** The filter keeps exactly the allowed ops, in declaration order. */
  lemma {:induction false} SelectedSpec(ops: seq<Parser.Op>, mine: string, n: nat)
    requires n <= |ops| && PlatformsValid(ops)
    ensures forall k: nat :: k in Selected(ops, mine, n) <==> k < n && PlatformAllows(ops[k].platform, mine)
    ensures forall a, b :: 0 <= a < b < |Selected(ops, mine, n)| ==> Selected(ops, mine, n)[a] < Selected(ops, mine, n)[b]
  {
    if n > 0 {
      SelectedSpec(ops, mine, n - 1);
      var s := Selected(ops, mine, n - 1);
      assert forall a :: 0 <= a < |s| ==> s[a] in s;
      assert forall a :: 0 <= a < |s| ==> s[a] < n - 1;
    }
  }

  /** What the filter selected among fewer ops is a prefix of what it
      selects among more. */
  lemma {:induction false} SelectedGrows(ops: seq<Parser.Op>, mine: string, a: nat, b: nat)
    requires a <= b <= |ops| && PlatformsValid(ops)
    ensures Selected(ops, mine, a) <= Selected(ops, mine, b)
    decreases b - a
  {
    if a < b {
      SelectedGrows(ops, mine, a, b - 1);
    }
  }

  /** The ops a run of the named hook goes through. */
  function SelectedOps(hooks: Parser.Hooks, name: Value, mine: string): seq<nat>
    requires Parser.SchemaValid(hooks)
  {
    match FindHook(hooks, name)
    case Ok(i) => Selected(hooks[i].1.ops, mine, |hooks[i].1.ops|)
    case Err(_) => []
  }

  // ---- what a hook run may write ----

  ghost predicate IsNamedOp(hooks: Parser.Hooks, h: string, op: string) {
    exists i, k :: 0 <= i < |hooks| && 0 <= k < |hooks[i].1.ops| && hooks[i].0 == h && hooks[i].1.ops[k].name == Some(op)
  }

  /** after differs from before only in entries of named ops: the same
      hooks, no op entry lost, and every new or changed op entry is that of
      an op the hook's configuration names. */
  ghost predicate OnlyNamedOps(hooks: Parser.Hooks, before: StateStore.HookResults, after: StateStore.HookResults) {
    && after.Keys == before.Keys
    && (forall h :: h in before ==> before[h].Keys <= after[h].Keys)
    && (forall h, op :: h in after && op in after[h] && (op !in before[h] || after[h][op] != before[h][op]) ==>
          IsNamedOp(hooks, h, op))
  }

  /** Overwriting the entry of a named op writes only named ops. */
  lemma OverwriteNamed(hooks: Parser.Hooks, hr: StateStore.HookResults, hook: string, op: string, d: StateStore.OpData)
    requires hook in hr && IsNamedOp(hooks, hook, op)
    ensures OnlyNamedOps(hooks, hr, hr[hook := hr[hook][op := d]])
  {
    var after := hr[hook := hr[hook][op := d]];
    forall h, o | h in after && o in after[h] && (o !in hr[h] || after[h][o] != hr[h][o])
      ensures IsNamedOp(hooks, h, o)
    {
      assert h == hook && o == op;
    }
  }

  lemma OnlyNamedOpsTrans(hooks: Parser.Hooks, a: StateStore.HookResults, b: StateStore.HookResults, c: StateStore.HookResults)
    requires OnlyNamedOps(hooks, a, b) && OnlyNamedOps(hooks, b, c)
    ensures OnlyNamedOps(hooks, a, c)
  {
  }

  /** No named op is called `_condition`, so whatever ops and nested calls
      write leaves every hook's `_condition` entry, and with it `ran`, as
      it was: a nested call does not mark the callee as run. */
  lemma {:induction false} ConditionUntouched(hooks: Parser.Hooks, before: StateStore.HookResults, after: StateStore.HookResults)
    requires Parser.HookNamesOk(hooks) && OnlyNamedOps(hooks, before, after)
    ensures forall h :: h in before ==>
      ("_condition" in after[h] <==> "_condition" in before[h])
      && ("_condition" in before[h] ==> after[h]["_condition"] == before[h]["_condition"])
    ensures forall h :: h in before ==> Ran(after[h]) == Ran(before[h])
  {
    forall h | h in before
      ensures "_condition" in after[h] <==> "_condition" in before[h]
      ensures "_condition" in before[h] ==> after[h]["_condition"] == before[h]["_condition"]
    {
    }
  }

  /** The results entry of a named op holds the op's stdout and stderr. */
  predicate Stored(hr: StateStore.HookResults, hook: string, op: string, out: (Value, Value)) {
    hook in hr && op in hr[hook] && "stdout" in hr[hook][op] && "stderr" in hr[hook][op]
    && hr[hook][op]["stdout"] == out.0 && hr[hook][op]["stderr"] == out.1
  }

  // ---- what a hook run reads and what it writes ----

  /** The phase-2 rendering a hook run's ops and conditions go through,
      given the variables, the hook results published to the resolver,
      the `args` root variable, the template and the error context. */
  type Render = (Entries, Value, Value, Value, string) -> Result<Value>

  /** What a hook run reads and never writes: the hooks, the platform,
      the parser's phase-2 interpolate, and interpolate_delayed_variable
      (given the variables and the published hook results). */
  datatype Setting = Setting(hooks: Parser.Hooks, platform: string, render: Render,
                             redelay: (Entries, Value) -> (Entries, Outcome))

  /** What a hook run writes: the variables (re-resolved before each
      hook), the hook results published to the resolver, and the hook
      results kept in the state. */
  datatype Snap = Snap(vars: Entries, out: Value, hr: StateStore.HookResults)

  /** interpolate(phase=2, ...) with `args` as the root variable over the
      first-phase variables over `result` and `hooks`. */
  function PhaseTwo(cdf: Entries, env: Value, result: Value): Render {
    (vars, out, args, t, context) =>
      Parser.Interpolate(Parser.ScopeOf(Parser.SecondPhase, Parser.FirstScopeOf(cdf, env, vars),
                                        Parser.SecondScopeOf(result, out), [("args", args)]),
                         Parser.SecondPhase, t, context, false)
  }

  /** interpolate_delayed_variable: the deferred variables re-rendered in
      phase 2, in order, each seeing those before it. */
  function Redelay(cdf: Entries, env: Value, result: Value, delayed: seq<string>, defs: Entries)
    : (Entries, Value) -> (Entries, Outcome)
  {
    (vars, out) => Parser.DelayedFold(cdf, env, Parser.SecondScopeOf(result, out), vars, delayed, defs)
  }

  /** The setting of a parser with these hooks, platform, configuration,
      environment, deployment result, deferred variables and data; its
      rendering is sound. */
  function SettingFrom(hooks: Parser.Hooks, platform: string, cdf: Entries, env: Value, result: Value,
                       delayed: seq<string>, data: Entries): (r: Setting)
    ensures Sound(r)
  {
    SettingOfSound(hooks, platform, cdf, env, result, Redelay(cdf, env, result, delayed, Parser.VarDefsOf(data)));
    Setting(hooks, platform, PhaseTwo(cdf, env, result), Redelay(cdf, env, result, delayed, Parser.VarDefsOf(data)))
  }

  /** What a parser gives its hook runs. */
  function SettingOf(p: Parser.ConfigParser): (r: Setting)
    reads p`cdf, p`result, p`delayed, p`data
    ensures Sound(r)
  {
    SettingFrom(p.hooks, p.platform, p.cdf, p.env, p.result, p.delayed, p.data)
  }

  function SnapOf(p: Parser.ConfigParser): Snap
    reads p`vars, p`hooksOut, p.state`hooksResult
  {
    Snap(p.vars, p.hooksOut, p.state.hooksResult)
  }

  /** What the hook engine relies on of its rendering: None renders to
      None, a string to a string, and every failure is a CLIError. */
  ghost predicate Sound(s: Setting) {
    && (forall vars, out, args, context :: s.render(vars, out, args, Null, context) == Ok(Null))
    && (forall vars, out, args, t: Value, context :: t.Str? && s.render(vars, out, args, t, context).Ok? ==>
          s.render(vars, out, args, t, context).value.Str?)
    && (forall vars, out, args, t: Value, context :: s.render(vars, out, args, t, context).Err? ==>
          s.render(vars, out, args, t, context).error.CliError?)
  }

  /** The parser's own rendering is sound. */
  lemma SettingOfSound(hooks: Parser.Hooks, platform: string, cdf: Entries, env: Value, result: Value,
                       redelay: (Entries, Value) -> (Entries, Outcome))
    ensures Sound(Setting(hooks, platform, PhaseTwo(cdf, env, result), redelay))
  {
    var render := PhaseTwo(cdf, env, result);
    forall vars: Entries, out: Value, args: Value, t: Value, context: string
      ensures t.Null? ==> render(vars, out, args, t, context) == Ok(Null)
      ensures t.Str? && render(vars, out, args, t, context).Ok? ==> render(vars, out, args, t, context).value.Str?
      ensures render(vars, out, args, t, context).Err? ==> render(vars, out, args, t, context).error.CliError?
    {
      var r := render(vars, out, args, t, context);
      assert r.Ok? && t.Str? ==> Parser.SameShape(t, r.value);
    }
  }

  /** _evaluate_condition: `run_if` rendered in phase 2 with the run's
      `args`, then judged against the hook results. Every failure is a
      CLIError except the KeyError of a run-once hook with no results
      entry. */
  function Condition(s: Setting, st: Snap, hi: nat, args: Value): (r: Result<bool>)
    requires hi < |s.hooks| && Sound(s)
    ensures r.Err? ==> r.error.CliError? || (r.error.OtherError? && s.hooks[hi].0 !in st.hr)
  {
    var hook := s.hooks[hi].0;
    match s.render(st.vars, st.out, args, Str(s.hooks[hi].1.runIf), "condition evaluation for hook '" + hook + "'")
    case Err(e) => Err(e)
    case Ok(c) => EvaluateCondition(c.s, hook, st.hr)
  }

  // ---- one op ----

  /** The op's args and cwd rendered in phase 2 with the run's root
      variables, args first. A missing cwd stays None, and a rendering
      failure is a CLIError. */
  function Rendered(s: Setting, st: Snap, hi: nat, k: nat, args: Value): (r: Result<(Value, Value)>)
    requires hi < |s.hooks| && k < |s.hooks[hi].1.ops| && Sound(s)
    ensures r.Ok? && s.hooks[hi].1.ops[k].cwd.None? ==> r.value.1 == Null
    ensures r.Err? ==> r.error.CliError?
  {
    var hook := s.hooks[hi].0;
    var op := s.hooks[hi].1.ops[k];
    var name := OpsName(op, k + 1);
    match s.render(st.vars, st.out, args, op.args, "az-cli op interpolation '" + name + "' in hook '" + hook + "'")
    case Err(e) => Err(e)
    case Ok(a) =>
      match s.render(st.vars, st.out, args, if op.cwd.Some? then Str(op.cwd.value) else Null,
                     "az-cli cwd interpolation '" + name + "' in hook '" + hook + "'")
      case Err(e) => Err(e)
      case Ok(c) => Ok((a, c))
  }

  /** The value an op's runner gets as `interactive`: a cmd op's mode; a
      script op passes the hook's extra call arguments in that slot, so
      it runs interactively exactly when there are any; az never does. */
  function Interactive(op: Parser.Op, hookArgs: seq<Value>): (r: bool)
    requires |hookArgs| >= 1
    ensures r ==> op.kind == Parser.Cmd || op.kind == Parser.Script
    ensures op.kind == Parser.Script ==> (r <==> |hookArgs| > 1)
  {
    if op.kind == Parser.Cmd then op.interactive
    else if op.kind == Parser.Script then hookArgs[1..] != []
    else false
  }

  /** What an op other than call yields: print echoes its rendered args
      with an empty stderr; the other kinds are the runner's, given the
      rendered args and cwd. */
  function Direct(s: Setting, st: Snap, hi: nat, k: nat, hookArgs: seq<Value>, args: Value, runner: Runner): (r: Result<(Value, Value)>)
    requires hi < |s.hooks| && k < |s.hooks[hi].1.ops| && |hookArgs| >= 1 && Sound(s)
    ensures Rendered(s, st, hi, k, args).Err? ==> r == Err(Rendered(s, st, hi, k, args).error)
    ensures s.hooks[hi].1.ops[k].kind == Parser.Print && Rendered(s, st, hi, k, args).Ok? ==>
      r == Ok((Rendered(s, st, hi, k, args).value.0, Str("")))
    ensures s.hooks[hi].1.ops[k].kind != Parser.Print && r.Ok? ==> r.value.0.Str? && r.value.1.Str?
  {
    var op := s.hooks[hi].1.ops[k];
    match Rendered(s, st, hi, k, args)
    case Err(e) => Err(e)
    case Ok((a, c)) =>
      if op.kind == Parser.Print then Ok((a, Str("")))
      else match runner(op.kind, s.hooks[hi].0, OpsName(op, k + 1), a, c, Interactive(op, hookArgs))
        case Err(e) => Err(e)
        case Ok((o, e)) => Ok((Str(o), Str(e)))
  }

  /** set_hook_state(hook, op, data): data overlaid on the op's entry of
      the hook's results. */
  function Overlaid(hr: StateStore.HookResults, hook: string, op: string, data: StateStore.OpData): StateStore.HookResults
    requires hook in hr
  {
    hr[hook := hr[hook][op := (if op in hr[hook] then hr[hook][op] else map[]) + data]]
  }

  function OutputData(out: (Value, Value)): StateStore.OpData {
    map["stdout" := out.0, "stderr" := out.1]
  }

  /** The message of the recursion guard. */
  function LimitMessage(depth: nat, name: Value): string {
    "Call recursion limit reached " + IntToString(depth - 1) + " hook: " + Show(name)
  }

  /** What _run_hook does before its op loop, from snapshot `st` to `st'`
      with verdict r: the recursion guard, then the hook lookup, then the
      condition. A failure of any of them, or a false condition, leaves
      the snapshot as it was; a true condition never gives Ok(false).
      Whatever runs writes only the entries of named ops, keeps the
      published results in step with the state's, and leaves the
      variables alone. */
  ghost predicate Entered(s: Setting, name: Value, depth: nat, args: Value, st: Snap, r: Result<bool>, st': Snap)
    requires Sound(s)
  {
    && st'.vars == st.vars
    && OnlyNamedOps(s.hooks, st.hr, st'.hr)
    && (Parser.HooksRep(st.out, st.hr) ==> Parser.HooksRep(st'.out, st'.hr))
    && (depth > RecursionLimit ==> r == Err(CliError(LimitMessage(depth, name))) && st' == st)
    && (depth <= RecursionLimit ==>
          match FindHook(s.hooks, name)
          case Err(e) => r == Err(e) && st' == st
          case Ok(hi) =>
            var c := Condition(s, st, hi, args);
            && (c.Err? ==> r == c && st' == st)
            && (c == Ok(false) ==> r == Ok(false) && st' == st)
            && (c == Ok(true) ==> r != Ok(false)))
  }

  /** One op of a hook run: its index, the snapshot it started from, what
      running it gave (`got`), what the hook it calls gave and the ops
      that hook ran (call ops only), the snapshot after running it
      (`ran`), what storing its output gave (`res`), and the snapshot it
      left. */
  datatype OpRun = OpRun(k: nat, before: Snap, got: Result<(Value, Value)>, callee: Result<bool>,
                         calleeSteps: seq<OpRun>, ran: Snap, res: Result<(Value, Value)>, after: Snap)

  /** Running op o.k of hook hi: an op other than call yields Direct and
      writes nothing; a call op renders its args and cwd, then the hook
      its args name is entered one level deeper with the same root
      variables, running its own op loop over `calleeSteps` when its
      guard, lookup and condition let it through; its failure is passed
      on and its verdict otherwise dropped for ("", ""). */
  ghost predicate OpRuns(s: Setting, hi: nat, hookArgs: seq<Value>, depth: nat, args: Value, runner: Runner,
                         k: nat, before: Snap, got: Result<(Value, Value)>, callee: Result<bool>,
                         calleeSteps: seq<OpRun>, ran: Snap)
    requires hi < |s.hooks| && k < |s.hooks[hi].1.ops| && |hookArgs| >= 1 && depth <= RecursionLimit && Sound(s)
    decreases Budget(depth), 0
  {
    var op := s.hooks[hi].1.ops[k];
    && (op.kind != Parser.Call ==> got == Direct(s, before, hi, k, hookArgs, args, runner) && ran == before)
    && (op.kind == Parser.Call ==>
          match Rendered(s, before, hi, k, args)
          case Err(e) => got == Err(e) && ran == before
          case Ok(rd) =>
            && Entered(s, rd.0, depth + 1, args, before, callee, ran)
            && BodyRan(s, [rd.0], depth + 1, args, runner, before, callee, calleeSteps, ran)
            && got == (if callee.Err? then Err(callee.error) else Ok((Str(""), Str("")))))
  }

  /** Storing op o.k's output: a failure, or an unnamed op, changes nothing
      more; a named op's {stdout, stderr} is overlaid on its entry and the
      results are republished, or it is a KeyError when the hook has no
      results entry. */
  ghost predicate OpStores(s: Setting, hi: nat, k: nat, got: Result<(Value, Value)>, ran: Snap, res: Result<(Value, Value)>, after: Snap)
    requires hi < |s.hooks| && k < |s.hooks[hi].1.ops|
  {
    var op := s.hooks[hi].1.ops[k];
    var hook := s.hooks[hi].0;
    && (got.Err? || op.name.None? ==> res == got && after == ran)
    && (got.Ok? && op.name.Some? ==>
          if hook in ran.hr then
            && res == got
            && after.vars == ran.vars
            && after.hr == Overlaid(ran.hr, hook, op.name.value, OutputData(got.value))
            && Parser.HooksRep(after.out, after.hr)
          else res.Err? && res.error.OtherError? && after == ran)
  }

  /** One op of the loop: run, then stored; it writes only named ops'
      entries and keeps the published results in step. */
  ghost predicate OpStep(s: Setting, hi: nat, hookArgs: seq<Value>, depth: nat, args: Value, runner: Runner, o: OpRun)
    requires hi < |s.hooks| && |hookArgs| >= 1 && depth <= RecursionLimit && Sound(s)
    decreases Budget(depth), 1
  {
    && o.k < |s.hooks[hi].1.ops|
    && OpRuns(s, hi, hookArgs, depth, args, runner, o.k, o.before, o.got, o.callee, o.calleeSteps, o.ran)
    && OpStores(s, hi, o.k, o.got, o.ran, o.res, o.after)
    && o.after.vars == o.before.vars
    && OnlyNamedOps(s.hooks, o.before.hr, o.after.hr)
    && (Parser.HooksRep(o.before.out, o.before.hr) ==> Parser.HooksRep(o.after.out, o.after.hr))
  }

  /** An op that passed and has a name left its stdout and stderr in the
      hook results. */
  lemma StepStored(s: Setting, hi: nat, hookArgs: seq<Value>, depth: nat, args: Value, runner: Runner, o: OpRun)
    requires hi < |s.hooks| && |hookArgs| >= 1 && depth <= RecursionLimit && Sound(s)
    requires OpStep(s, hi, hookArgs, depth, args, runner, o)
    requires o.res.Ok? && s.hooks[hi].1.ops[o.k].name.Some?
    ensures Stored(o.after.hr, s.hooks[hi].0, s.hooks[hi].1.ops[o.k].name.value, o.res.value)
  {
    var op := s.hooks[hi].1.ops[o.k];
    assert o.got.Ok? && s.hooks[hi].0 in o.ran.hr;
  }

  /** A call op run as RunCallOp promises: its output is empty, or its
      failure is the rendering's or the callee's. */
  lemma CallOpRuns(s: Setting, hi: nat, hookArgs: seq<Value>, depth: nat, args: Value, runner: Runner,
                   k: nat, before: Snap, c: Outcome, callee: Result<bool>, calleeSteps: seq<OpRun>, ran: Snap)
    requires hi < |s.hooks| && k < |s.hooks[hi].1.ops| && |hookArgs| >= 1 && depth <= RecursionLimit && Sound(s)
    requires s.hooks[hi].1.ops[k].kind == Parser.Call
    requires var rd := Rendered(s, before, hi, k, args);
      && (rd.Err? ==> c == Fail(rd.error) && ran == before)
      && (rd.Ok? ==>
            && Entered(s, rd.value.0, depth + 1, args, before, callee, ran)
            && BodyRan(s, [rd.value.0], depth + 1, args, runner, before, callee, calleeSteps, ran)
            && (callee.Err? ==> c == Fail(callee.error))
            && (callee.Ok? ==> c == Pass))
    ensures OpRuns(s, hi, hookArgs, depth, args, runner, k, before,
                   if c.Fail? then Err(c.error) else Ok((Str(""), Str(""))), callee, calleeSteps, ran)
  {
  }

  /** A named op's output stored as StoreOutput promises. */
  lemma NamedOpStores(s: Setting, hi: nat, k: nat, out: (Value, Value), ran: Snap, st: Outcome, after: Snap)
    requires hi < |s.hooks| && k < |s.hooks[hi].1.ops| && s.hooks[hi].1.ops[k].name.Some?
    requires after.vars == ran.vars
    requires st.Fail? <==> s.hooks[hi].0 !in ran.hr
    requires st.Fail? ==> st.error.OtherError? && after.hr == ran.hr && after.out == ran.out
    requires st.Pass? ==>
      && after.hr == Overlaid(ran.hr, s.hooks[hi].0, s.hooks[hi].1.ops[k].name.value, OutputData(out))
      && Parser.HooksRep(after.out, after.hr)
    ensures OpStores(s, hi, k, Ok(out), ran, if st.Fail? then Err(st.error) else Ok(out), after)
  {
  }

  /** The snapshot a sequence of steps leaves. */
  function LastSnap(start: Snap, steps: seq<OpRun>): Snap {
    if steps == [] then start else steps[|steps| - 1].after
  }

  /** Each op is a step of the loop and starts from the snapshot the
      previous one left. */
  ghost predicate OpsChain(s: Setting, hi: nat, hookArgs: seq<Value>, depth: nat, args: Value, runner: Runner,
                           start: Snap, steps: seq<OpRun>)
    requires hi < |s.hooks| && |hookArgs| >= 1 && depth <= RecursionLimit && Sound(s)
    decreases Budget(depth), 2
  {
    && (steps != [] ==> steps[0].before == start)
    && (forall j :: 0 < j < |steps| ==> steps[j].before == steps[j - 1].after)
    && (forall o {:trigger OpStep(s, hi, hookArgs, depth, args, runner, o)} :: o in steps ==> OpStep(s, hi, hookArgs, depth, args, runner, o))
  }

  /** The op indices of the steps, in order. */
  function Ks(steps: seq<OpRun>): (r: seq<nat>)
    ensures |r| == |steps| && forall j :: 0 <= j < |steps| ==> r[j] == steps[j].k
  {
    seq(|steps|, j requires 0 <= j < |steps| => steps[j].k)
  }

  /** The op loop of hook hi from `start`: the ops reached are a prefix of
      the selected ones, run in order, each from where the previous left
      off; every one but the last passed. Ok(true) means every selected op
      ran and passed; an error is the last op's. */
  ghost predicate OpsRan(s: Setting, hi: nat, hookArgs: seq<Value>, depth: nat, args: Value, runner: Runner,
                         start: Snap, steps: seq<OpRun>, r: Result<bool>, end: Snap)
    requires hi < |s.hooks| && |hookArgs| >= 1 && depth <= RecursionLimit && PlatformsValid(s.hooks[hi].1.ops) && Sound(s)
    decreases Budget(depth), 3
  {
    var all := Selected(s.hooks[hi].1.ops, s.platform, |s.hooks[hi].1.ops|);
    && OpsChain(s, hi, hookArgs, depth, args, runner, start, steps)
    && end == LastSnap(start, steps)
    && Ks(steps) <= all
    && (forall j :: 0 <= j < |steps| - 1 ==> steps[j].res.Ok?)
    && (r.Ok? ==> r == Ok(true) && Ks(steps) == all && forall j :: 0 <= j < |steps| ==> steps[j].res.Ok?)
    && (r.Err? ==> steps != [] && steps[|steps| - 1].res == Err(r.error))
  }

  /** A hook run whose guard, lookup and condition let it through runs its
      op loop; any other run runs no op. */
  ghost predicate BodyRan(s: Setting, hookArgs: seq<Value>, depth: nat, args: Value, runner: Runner,
                          st: Snap, r: Result<bool>, steps: seq<OpRun>, st': Snap)
    requires |hookArgs| >= 1 && Sound(s)
    decreases Budget(depth), 4
  {
    var found := FindHook(s.hooks, hookArgs[0]);
    if depth <= RecursionLimit && found.Ok? && Condition(s, st, found.value, args) == Ok(true) then
      && PlatformsValid(s.hooks[found.value].1.ops)
      && OpsRan(s, found.value, hookArgs, depth, args, runner, st, steps, r, st')
    else steps == []
  }

  /** Writes confined to named ops and published results kept in step
      survive one more step. */
  lemma ChainStep(s: Setting, hi: nat, hookArgs: seq<Value>, depth: nat, args: Value, runner: Runner,
                  start: Snap, steps: seq<OpRun>, o: OpRun)
    requires hi < |s.hooks| && |hookArgs| >= 1 && depth <= RecursionLimit && Sound(s)
    requires OpsChain(s, hi, hookArgs, depth, args, runner, start, steps)
    requires o.before == LastSnap(start, steps) && OpStep(s, hi, hookArgs, depth, args, runner, o)
    ensures OpsChain(s, hi, hookArgs, depth, args, runner, start, steps + [o])
    ensures LastSnap(start, steps + [o]) == o.after && Ks(steps + [o]) == Ks(steps) + [o.k]
  {
    assert (steps + [o])[..|steps|] == steps;
  }

  /** The op loop of hook hi has looked at its first k ops: those run are
      the selected ones among them, chained from `start` to `cur`, and all
      passed; writes are confined to named ops and the published results
      kept in step. */
  ghost predicate OpsLoop(s: Setting, hi: nat, hookArgs: seq<Value>, depth: nat, args: Value, runner: Runner,
                          start: Snap, k: nat, steps: seq<OpRun>, cur: Snap)
    requires hi < |s.hooks| && |hookArgs| >= 1 && depth <= RecursionLimit && Sound(s)
  {
    && k <= |s.hooks[hi].1.ops| && PlatformsValid(s.hooks[hi].1.ops)
    && OpsChain(s, hi, hookArgs, depth, args, runner, start, steps)
    && cur == LastSnap(start, steps)
    && Ks(steps) == Selected(s.hooks[hi].1.ops, s.platform, k)
    && (forall j :: 0 <= j < |steps| ==> steps[j].res.Ok?)
    && OnlyNamedOps(s.hooks, start.hr, cur.hr)
    && (Parser.HooksRep(start.out, start.hr) ==> Parser.HooksRep(cur.out, cur.hr))
  }

  /** Running op k: a pass moves the loop on, a failure ends it. */
  lemma LoopGrows(s: Setting, hi: nat, hookArgs: seq<Value>, depth: nat, args: Value, runner: Runner,
                  start: Snap, k: nat, steps: seq<OpRun>, o: OpRun)
    requires hi < |s.hooks| && |hookArgs| >= 1 && depth <= RecursionLimit && Sound(s) && k < |s.hooks[hi].1.ops|
    requires OpsLoop(s, hi, hookArgs, depth, args, runner, start, k, steps, o.before)
    requires PlatformAllows(s.hooks[hi].1.ops[k].platform, s.platform)
    requires o.k == k && OpStep(s, hi, hookArgs, depth, args, runner, o)
    ensures o.res.Ok? ==> OpsLoop(s, hi, hookArgs, depth, args, runner, start, k + 1, steps + [o], o.after)
    ensures o.res.Err? ==> OpsRan(s, hi, hookArgs, depth, args, runner, start, steps + [o], Err(o.res.error), o.after)
    ensures OnlyNamedOps(s.hooks, start.hr, o.after.hr)
    ensures Parser.HooksRep(start.out, start.hr) ==> Parser.HooksRep(o.after.out, o.after.hr)
  {
    var ops := s.hooks[hi].1.ops;
    OnlyNamedOpsTrans(s.hooks, start.hr, o.before.hr, o.after.hr);
    ChainStep(s, hi, hookArgs, depth, args, runner, start, steps, o);
    if o.res.Err? {
      SelectedGrows(ops, s.platform, k + 1, |ops|);
    }
  }

  /** An op the platform filter rejects is passed over. */
  lemma LoopSkips(s: Setting, hi: nat, hookArgs: seq<Value>, depth: nat, args: Value, runner: Runner,
                  start: Snap, k: nat, steps: seq<OpRun>, cur: Snap)
    requires hi < |s.hooks| && |hookArgs| >= 1 && depth <= RecursionLimit && Sound(s) && k < |s.hooks[hi].1.ops|
    requires OpsLoop(s, hi, hookArgs, depth, args, runner, start, k, steps, cur)
    requires !PlatformAllows(s.hooks[hi].1.ops[k].platform, s.platform)
    ensures OpsLoop(s, hi, hookArgs, depth, args, runner, start, k + 1, steps, cur)
  {
  }

  /** A loop that looked at every op ran all the selected ones. */
  lemma LoopDone(s: Setting, hi: nat, hookArgs: seq<Value>, depth: nat, args: Value, runner: Runner,
                 start: Snap, steps: seq<OpRun>, cur: Snap)
    requires hi < |s.hooks| && |hookArgs| >= 1 && depth <= RecursionLimit && Sound(s)
    requires OpsLoop(s, hi, hookArgs, depth, args, runner, start, |s.hooks[hi].1.ops|, steps, cur)
    ensures OpsRan(s, hi, hookArgs, depth, args, runner, start, steps, Ok(true), cur)
    ensures OnlyNamedOps(s.hooks, start.hr, cur.hr)
    ensures Parser.HooksRep(start.out, start.hr) ==> Parser.HooksRep(cur.out, cur.hr)
  {
  }

  // ---- run_hook ----

  function Strs(xs: seq<string>): (r: seq<Value>)
    ensures |r| == |xs| && forall i :: 0 <= i < |xs| ==> r[i] == Str(xs[i])
  {
    seq(|xs|, i requires 0 <= i < |xs| => Str(xs[i]))
  }

  /** "Running hook. hook args '<the extra args as a Python list>'". */
  function RunningMessage(hookArgs: seq<string>): string
    requires |hookArgs| >= 1
  {
    "Running hook. hook args '" + Show(List(Strs(hookArgs[1..]))) + "'"
  }

  /** An event of hook `name` with no status, in the given phase. */
  function HookEvent(phase: StateStore.Phase, msg: string, name: string): StateStore.Event {
    StateStore.Event(phase, msg, None, Some(name))
  }

  function RunningEvent(phase: StateStore.Phase, hookArgs: seq<string>): StateStore.Event
    requires |hookArgs| >= 1
  {
    HookEvent(phase, RunningMessage(hookArgs), hookArgs[0])
  }

  const SkippingMessage := "Skipping running hook, condition evaluted to false"
  const FinishedMessage := "Finished running hook"
  const NoHookArgsMessage := "IndexError: list index out of range"

  /** What interpolate_delayed_variable gives from a snapshot: the
      re-resolved variables and the outcome. */
  function Redelayed(s: Setting, st: Snap): (Entries, Outcome) {
    s.redelay(st.vars, st.out)
  }

  /** A hook that fails before its running event: re-resolving the
      deferred variables from `st` failed with r, leaving `end`. */
  predicate Stalled(s: Setting, st: Snap, r: Outcome, end: Snap) {
    var (vars, d) := Redelayed(s, st);
    d.Fail? && r == d && end == Snap(vars, st.out, st.hr)
  }

  /** The close of a hook run from snapshot `mid`: a failure is passed on;
      a skipped hook passes; a hook that ran passes with `_condition.ran`
      set to True, or is a KeyError when it has no results entry. */
  predicate Closed(name: string, mid: Snap, body: Result<bool>, r: Outcome, after: Snap) {
    && after.vars == mid.vars && after.out == mid.out
    && (body.Err? ==> r == Fail(body.error) && after.hr == mid.hr)
    && (body == Ok(false) ==> r == Pass && after.hr == mid.hr)
    && (body == Ok(true) ==>
          if name in mid.hr then r == Pass && after.hr == Overlaid(mid.hr, name, "_condition", map["ran" := Bool(true)])
          else r.Fail? && r.error.OtherError? && after.hr == mid.hr)
  }

  /** A started hook run from snapshot `st`: `args` bound to the hook
      arguments, its body runs at depth 1 up to `mid` with verdict `body`
      over the ops `steps`, and the run is closed. */
  ghost predicate Started(s: Setting, runner: Runner, hookArgs: seq<string>, st: Snap,
                          body: Result<bool>, steps: seq<OpRun>, mid: Snap, r: Outcome, after: Snap)
    requires Sound(s) && hookArgs != []
  {
    && Entered(s, Str(hookArgs[0]), 1, List(Strs(hookArgs)), st, body, mid)
    && BodyRan(s, Strs(hookArgs), 1, List(Strs(hookArgs)), runner, st, body, steps, mid)
    && Closed(hookArgs[0], mid, body, r, after)
  }

  /** A hook that ran and passed is marked as run. */
  lemma ClosedMarks(name: string, mid: Snap, body: Result<bool>, r: Outcome, after: Snap)
    requires Closed(name, mid, body, r, after) && body == Ok(true) && r.Pass?
    ensures name in after.hr && Ran(after.hr[name]) == Bool(true)
  {
  }

  /** run_hook from snapshot `before`: the deferred variables are
      re-resolved first, and their failure is passed on; no hook
      arguments is an IndexError; otherwise the hook is started from the
      re-resolved snapshot. */
  ghost predicate HookRunOk(s: Setting, runner: Runner, hookArgs: seq<string>, before: Snap,
                            started: bool, body: Result<bool>, steps: seq<OpRun>, mid: Snap, r: Outcome, after: Snap)
    requires Sound(s)
  {
    var (vars, d) := Redelayed(s, before);
    var st := Snap(vars, before.out, before.hr);
    if d.Fail? then !started && Stalled(s, before, r, after)
    else if hookArgs == [] then !started && r == Fail(OtherError(NoHookArgsMessage)) && after == st
    else started && Started(s, runner, hookArgs, st, body, steps, mid, r, after)
  }

  /** The events that close a hook run: the outcome of a skipped or a
      finished hook; for a failure, an error event when it is a CLIError
      and none otherwise. */
  function ClosingEvents(phase: StateStore.Phase, name: string, res: Result<bool>): seq<StateStore.Event> {
    match res
    case Ok(ran) => [HookEvent(phase, if ran then FinishedMessage else SkippingMessage, name)]
    case Err(e) => if e.CliError? then [HookEvent(phase, "Error during hook execution " + e.msg, name)] else []
  }
}

// The hook runner proper: the methods that run hooks and ops on a parser,
// each proved against the predicates of HookEngine.
module HookRunner {
  import opened Values
  import Utils
  import StateStore
  import Parser
  import opened HookEngine

  /** The end of one op: a named op's {stdout, stderr} overlaid on its
      entry in the hook results, which are then republished to the
      resolver. */
  method StoreOutput(p: Parser.ConfigParser, hi: nat, k: nat, out: (Value, Value)) returns (r: Outcome)
    requires p.Valid() && hi < |p.hooks| && k < |p.hooks[hi].1.ops| && p.hooks[hi].1.ops[k].name.Some?
    modifies p`hooksOut, p.state`hooksResult
    ensures p.Valid()
    ensures OnlyNamedOps(p.hooks, old(p.state.hooksResult), p.state.hooksResult)
    ensures r.Fail? <==> p.hooks[hi].0 !in old(p.state.hooksResult)
    ensures r.Fail? ==> r.error.OtherError? && p.state.hooksResult == old(p.state.hooksResult) && p.hooksOut == old(p.hooksOut)
    ensures r.Pass? ==>
      && p.state.hooksResult == Overlaid(old(p.state.hooksResult), p.hooks[hi].0, p.hooks[hi].1.ops[k].name.value, OutputData(out))
      && Parser.HooksRep(p.hooksOut, p.state.hooksResult)
  {
    var hook := p.hooks[hi].0;
    var name := p.hooks[hi].1.ops[k].name.value;
    assert Parser.GoodName(name);
    var data := OutputData(out);
    r := p.state.SetHookState(hook, name, data);
    if r.Fail? {
      return;
    }
    assert IsNamedOp(p.hooks, hook, name) by {
      assert p.hooks[hi].1.ops[k].name == Some(name);
    }
    ghost var hr0 := old(p.state.hooksResult);
    OverwriteNamed(p.hooks, hr0, hook, name, (if name in hr0[hook] then hr0[hook][name] else map[]) + data);
    p.UpdateHooksResult(p.state.hooksResult);
  }

  /** A call op: render its args and cwd, then run the hook its args name
      one level deeper with the same root variables; the callee's verdict
      is dropped and its failure passed on. */
  method RunCallOp(p: Parser.ConfigParser, hi: nat, k: nat, depth: nat, args: Value, runner: Runner, s: Setting)
    returns (r: Outcome, ghost callee: Result<bool>, ghost calleeSteps: seq<OpRun>)
    requires p.Valid() && hi < |p.hooks| && k < |p.hooks[hi].1.ops| && s.hooks == p.hooks && s.platform == p.platform && Sound(s)
    requires depth <= RecursionLimit
    modifies p`hooksOut, p.state`hooksResult
    decreases Budget(depth), 0
    ensures p.Valid()
    ensures OnlyNamedOps(p.hooks, old(p.state.hooksResult), p.state.hooksResult)
    ensures Parser.HooksRep(old(p.hooksOut), old(p.state.hooksResult)) ==> Parser.HooksRep(p.hooksOut, p.state.hooksResult)
    ensures var rd := Rendered(s, old(SnapOf(p)), hi, k, args);
      && (rd.Err? ==> r == Fail(rd.error) && SnapOf(p) == old(SnapOf(p)))
      && (rd.Ok? ==>
            && Entered(s, rd.value.0, depth + 1, args, old(SnapOf(p)), callee, SnapOf(p))
            && BodyRan(s, [rd.value.0], depth + 1, args, runner, old(SnapOf(p)), callee, calleeSteps, SnapOf(p))
            && (callee.Err? ==> r == Fail(callee.error))
            && (callee.Ok? ==> r == Pass))
  {
    callee, calleeSteps := Ok(false), [];
    var rd := Rendered(s, SnapOf(p), hi, k, args);
    if rd.Err? {
      return Fail(rd.error), callee, calleeSteps;
    }
    var sub;
    sub, calleeSteps := RunHookInner(p, [rd.value.0], depth + 1, args, runner, s);
    callee := sub;
    if sub.Err? {
      return Fail(sub.error), callee, calleeSteps;
    }
    return Pass, callee, calleeSteps;
  }

  /** Running op k of hook hi, before its output is stored: a call op
      runs the hook it names and yields empty output; any other op is
      run directly. */
  method Execute(p: Parser.ConfigParser, hi: nat, k: nat, hookArgs: seq<Value>, depth: nat, args: Value, runner: Runner,
                 s: Setting)
    returns (got: Result<(Value, Value)>, ghost callee: Result<bool>, ghost calleeSteps: seq<OpRun>)
    requires p.Valid() && hi < |p.hooks| && k < |p.hooks[hi].1.ops| && s.hooks == p.hooks && s.platform == p.platform && Sound(s)
    requires |hookArgs| >= 1 && depth <= RecursionLimit
    modifies p`hooksOut, p.state`hooksResult
    decreases Budget(depth), 1
    ensures p.Valid()
    ensures OpRuns(s, hi, hookArgs, depth, args, runner, k, old(SnapOf(p)), got, callee, calleeSteps, SnapOf(p))
    ensures OnlyNamedOps(p.hooks, old(p.state.hooksResult), p.state.hooksResult)
    ensures Parser.HooksRep(old(p.hooksOut), old(p.state.hooksResult)) ==> Parser.HooksRep(p.hooksOut, p.state.hooksResult)
  {
    callee, calleeSteps := Ok(false), [];
    if p.hooks[hi].1.ops[k].kind == Parser.Call {
      var c;
      c, callee, calleeSteps := RunCallOp(p, hi, k, depth, args, runner, s);
      CallOpRuns(s, hi, hookArgs, depth, args, runner, k, old(SnapOf(p)), c, callee, calleeSteps, SnapOf(p));
      got := if c.Fail? then Err(c.error) else Ok((Str(""), Str("")));
    } else {
      got := Direct(s, SnapOf(p), hi, k, hookArgs, args, runner);
    }
  }

  /** One pass of the op loop over op k of hook hi: run the op (a call op
      yields empty output), then, for a named op, store {stdout, stderr}
      in the hook results. `o` is the step. */
  method RunOp(p: Parser.ConfigParser, hi: nat, k: nat, hookArgs: seq<Value>, depth: nat, args: Value, runner: Runner,
               s: Setting)
    returns (r: Result<(Value, Value)>, ghost o: OpRun)
    requires p.Valid() && hi < |p.hooks| && k < |p.hooks[hi].1.ops| && s.hooks == p.hooks && s.platform == p.platform && Sound(s)
    requires |hookArgs| >= 1 && depth <= RecursionLimit
    modifies p`hooksOut, p.state`hooksResult
    decreases Budget(depth), 2
    ensures p.Valid()
    ensures o.k == k && o.before == old(SnapOf(p)) && o.after == SnapOf(p) && o.res == r
    ensures OpStep(s, hi, hookArgs, depth, args, runner, o)
  {
    var op := p.hooks[hi].1.ops[k];
    ghost var before := SnapOf(p);
    var got;
    ghost var callee, calleeSteps;
    got, callee, calleeSteps := Execute(p, hi, k, hookArgs, depth, args, runner, s);
    ghost var ran := SnapOf(p);
    r := got;
    if got.Ok? && op.name.Some? {
      var st := StoreOutput(p, hi, k, got.value);
      OnlyNamedOpsTrans(p.hooks, before.hr, ran.hr, p.state.hooksResult);
      NamedOpStores(s, hi, k, got.value, ran, st, SnapOf(p));
      if st.Fail? {
        r := Err(st.error);
      }
    }
    o := OpRun(k, before, got, callee, calleeSteps, ran, r, SnapOf(p));
  }

  /** The op loop of one hook whose condition held: ops in declaration
      order, those the platform filter rejects skipped, the first failure
      ending the loop. `steps` are the ops run. */
  method RunOps(p: Parser.ConfigParser, hi: nat, hookArgs: seq<Value>, depth: nat, args: Value, runner: Runner,
                s: Setting)
    returns (r: Result<bool>, ghost steps: seq<OpRun>)
    requires p.Valid() && hi < |p.hooks| && s.hooks == p.hooks && s.platform == p.platform && Sound(s)
    requires |hookArgs| >= 1 && depth <= RecursionLimit
    modifies p`hooksOut, p.state`hooksResult
    decreases Budget(depth), 4
    ensures p.Valid() && PlatformsValid(p.hooks[hi].1.ops)
    ensures OnlyNamedOps(p.hooks, old(p.state.hooksResult), p.state.hooksResult)
    ensures Parser.HooksRep(old(p.hooksOut), old(p.state.hooksResult)) ==> Parser.HooksRep(p.hooksOut, p.state.hooksResult)
    ensures OpsRan(s, hi, hookArgs, depth, args, runner, old(SnapOf(p)), steps, r, SnapOf(p))
  {
    var ops := p.hooks[hi].1.ops;
    assert PlatformsValid(ops);
    ghost var start := SnapOf(p);
    steps := [];
    var k := 0;
    while k < |ops|
      invariant 0 <= k <= |ops| && p.Valid()
      invariant OpsLoop(s, hi, hookArgs, depth, args, runner, start, k, steps, SnapOf(p))
    {
      var res;
      res, steps := OpAt(p, hi, k, hookArgs, depth, args, runner, s, start, steps);
      if res.Err? {
        return res, steps;
      }
      k := k + 1;
    }
    r := Ok(true);
    LoopDone(s, hi, hookArgs, depth, args, runner, start, steps, SnapOf(p));
  }

  /** One pass of the op loop over op k: an op the platform filter
      rejects is passed over, any other is run; an error ends the loop. */
  method OpAt(p: Parser.ConfigParser, hi: nat, k: nat, hookArgs: seq<Value>, depth: nat, args: Value, runner: Runner,
              s: Setting, ghost start: Snap, ghost steps: seq<OpRun>)
    returns (r: Result<bool>, ghost steps': seq<OpRun>)
    requires p.Valid() && hi < |p.hooks| && k < |p.hooks[hi].1.ops| && s.hooks == p.hooks && s.platform == p.platform && Sound(s)
    requires |hookArgs| >= 1 && depth <= RecursionLimit
    requires OpsLoop(s, hi, hookArgs, depth, args, runner, start, k, steps, SnapOf(p))
    modifies p`hooksOut, p.state`hooksResult
    decreases Budget(depth), 3
    ensures p.Valid()
    ensures r.Ok? ==> r == Ok(true) && OpsLoop(s, hi, hookArgs, depth, args, runner, start, k + 1, steps', SnapOf(p))
    ensures r.Err? ==>
      && OpsRan(s, hi, hookArgs, depth, args, runner, start, steps', r, SnapOf(p))
      && OnlyNamedOps(s.hooks, start.hr, p.state.hooksResult)
      && (Parser.HooksRep(start.out, start.hr) ==> Parser.HooksRep(p.hooksOut, p.state.hooksResult))
  {
    if !PlatformAllows(p.hooks[hi].1.ops[k].platform, p.platform) {
      LoopSkips(s, hi, hookArgs, depth, args, runner, start, k, steps, SnapOf(p));
      return Ok(true), steps;
    }
    var out, o := RunOp(p, hi, k, hookArgs, depth, args, runner, s);
    LoopGrows(s, hi, hookArgs, depth, args, runner, start, k, steps, o);
    steps' := steps + [o];
    r := if out.Err? then Err(out.error) else Ok(true);
  }

  /** _run_hook: the recursion guard first, then the hook lookup, then the
      condition; a true condition runs the op loop, anything else runs no
      op. */
  method RunHookInner(p: Parser.ConfigParser, hookArgs: seq<Value>, depth: nat, args: Value, runner: Runner,
                      s: Setting)
    returns (r: Result<bool>, ghost steps: seq<OpRun>)
    requires p.Valid() && |hookArgs| >= 1 && s.hooks == p.hooks && s.platform == p.platform && Sound(s)
    modifies p`hooksOut, p.state`hooksResult
    decreases Budget(depth), 5
    ensures p.Valid()
    ensures Entered(s, hookArgs[0], depth, args, old(SnapOf(p)), r, SnapOf(p))
    ensures BodyRan(s, hookArgs, depth, args, runner, old(SnapOf(p)), r, steps, SnapOf(p))
    ensures r == Ok(true) ==> Ks(steps) == SelectedOps(p.hooks, hookArgs[0], p.platform)
    ensures depth <= RecursionLimit && FindHook(p.hooks, hookArgs[0]).Ok? ==>
      var c := Condition(s, old(SnapOf(p)), FindHook(p.hooks, hookArgs[0]).value, args);
      && (c.Err? ==> r == c)
      && (c == Ok(false) <==> r == Ok(false))
  {
    steps := [];
    if depth > RecursionLimit {
      r := Err(CliError(LimitMessage(depth, hookArgs[0])));
      return;
    }
    var found := FindHook(p.hooks, hookArgs[0]);
    if found.Err? {
      r := Err(found.error);
      return;
    }
    var hi := found.value;
    var go := Condition(s, SnapOf(p), hi, args);
    if go.Err? {
      r := go;
      return;
    }
    if !go.value {
      r := Ok(false);
      return;
    }
    r, steps := RunOps(p, hi, hookArgs, depth, args, runner, s);
  }

  /** run_hook: re-resolve the deferred variables, record that the hook
      starts, run it at depth 1 with `args` bound to the hook arguments,
      then record the outcome: skipped, or finished and marked as run, or
      (for a CLIError only) the error, which is passed on. No event carries
      a status, so neither the phase nor the status index moves.
      `started` tells whether the hook got as far as its first event;
      `inner`, `steps` and `mid` are what its body gave, the ops it ran
      and the snapshot it left. */
  method RunHook(p: Parser.ConfigParser, hookArgs: seq<string>, runner: Runner)
    returns (r: Outcome, ghost started: bool, ghost inner: Result<bool>, ghost steps: seq<OpRun>, ghost mid: Snap)
    requires p.Valid()
    modifies p`vars, p`hooksOut, p.state`hooksResult, p.state`phase, p.state`events, p.state`statusPtr
    ensures p.Valid()
    ensures p.state.phase == old(p.state.phase) && p.state.statusPtr == old(p.state.statusPtr)
    ensures HookRunOk(old(SettingOf(p)), runner, hookArgs, old(SnapOf(p)), started, inner, steps, mid, r, SnapOf(p))
    ensures !started ==> r.Fail? && p.state.events == old(p.state.events)
    ensures !started && hookArgs != [] ==> Stalled(old(SettingOf(p)), old(SnapOf(p)), r, SnapOf(p))
    ensures !started && hookArgs == [] ==>
      Stalled(old(SettingOf(p)), old(SnapOf(p)), r, SnapOf(p)) || r == Fail(OtherError(NoHookArgsMessage))
    ensures started ==>
      && |hookArgs| >= 1
      && p.state.events == old(p.state.events) + [RunningEvent(old(p.state.phase), hookArgs)]
                           + ClosingEvents(old(p.state.phase), hookArgs[0], inner)
    ensures started && inner == Ok(true) && r.Pass? ==> Ran(p.state.hooksResult[hookArgs[0]]) == Bool(true)
    ensures started ==> OnlyNamedOps(p.hooks, old(p.state.hooksResult), mid.hr)
  {
    started, inner, steps, mid := false, Ok(false), [], SnapOf(p);
    var s := SettingOf(p);
    var d := p.DelayedVariableInterpolate();
    assert Redelayed(s, old(SnapOf(p))) == (p.vars, d);
    if d.Fail? {
      return d, started, inner, steps, mid;
    }
    if hookArgs == [] {
      return Fail(OtherError(NoHookArgsMessage)), started, inner, steps, mid;
    }
    started := true;
    r, inner, steps, mid := StartHook(p, hookArgs, runner, s);
  }

  /** A hook run past its deferred variables: record that the hook starts,
      run it at depth 1 with `args` bound to the hook arguments, then
      record the outcome. */
  method StartHook(p: Parser.ConfigParser, hookArgs: seq<string>, runner: Runner, s: Setting)
    returns (r: Outcome, ghost inner: Result<bool>, ghost steps: seq<OpRun>, ghost mid: Snap)
    requires p.Valid() && hookArgs != [] && s.hooks == p.hooks && s.platform == p.platform && Sound(s)
    modifies p`hooksOut, p.state`hooksResult, p.state`phase, p.state`events, p.state`statusPtr
    ensures p.Valid()
    ensures p.state.phase == old(p.state.phase) && p.state.statusPtr == old(p.state.statusPtr)
    ensures Started(s, runner, hookArgs, old(SnapOf(p)), inner, steps, mid, r, SnapOf(p))
    ensures p.state.events == old(p.state.events) + [RunningEvent(old(p.state.phase), hookArgs)]
                              + ClosingEvents(old(p.state.phase), hookArgs[0], inner)
    ensures inner == Ok(true) && r.Pass? ==> Ran(p.state.hooksResult[hookArgs[0]]) == Bool(true)
  {
    p.state.AddEvent(RunningMessage(hookArgs), None, None, Some(hookArgs[0]));
    var res;
    res, steps := RunHookInner(p, Strs(hookArgs), 1, List(Strs(hookArgs)), runner, s);
    inner, mid := res, SnapOf(p);
    r := Finish(p, hookArgs, res);
    if inner == Ok(true) && r.Pass? {
      ClosedMarks(hookArgs[0], mid, inner, r, SnapOf(p));
    }
  }

  /** The events and the mark that close a hook run. */
  method Finish(p: Parser.ConfigParser, hookArgs: seq<string>, res: Result<bool>) returns (r: Outcome)
    requires p.Valid() && |hookArgs| >= 1
    modifies p.state`hooksResult, p.state`phase, p.state`events, p.state`statusPtr
    ensures p.Valid()
    ensures p.state.phase == old(p.state.phase) && p.state.statusPtr == old(p.state.statusPtr)
    ensures p.state.events == old(p.state.events) + ClosingEvents(old(p.state.phase), hookArgs[0], res)
    ensures Closed(hookArgs[0], old(SnapOf(p)), res, r, SnapOf(p))
  {
    var name := hookArgs[0];
    if res.Err? {
      if res.error.CliError? {
        p.state.AddEvent("Error during hook execution " + res.error.msg, None, None, Some(name));
      }
      return Fail(res.error);
    }
    if !res.value {
      p.state.AddEvent(SkippingMessage, None, None, Some(name));
      return Pass;
    }
    p.state.AddEvent(FinishedMessage, None, None, Some(name));
    r := p.state.SetHookState(name, "_condition", map["ran" := Bool(true)]);
  }
}
