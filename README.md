# cdf deployment lifecycle — a Dafny model

`azext_cdf` is an Azure CLI extension that brings a deployment described
in a YAML file (`cdf.yml`) up and down. The deployment is a bicep file, an
ARM template or a Terraform directory. The extension runs user-defined
hooks around each lifecycle event and keeps a state document holding the
phase, an event log, the provisioning result and the hook outputs. This
project models the core of the extension and proves properties of it:

- **Values** (`values.dfy`): the configuration tree as dynamic values with
  insertion-ordered dictionaries. It also holds the error kinds the code
  raises (CLIError, Jinja2's UndefinedError and TemplateSyntaxError, any
  other exception) and the text Python's `str()` gives a value.
- **Templates** (`templates.dfy`): the part of Jinja2 the configuration
  relies on. That is literal text with `{{ a.b.c }}` placeholders, a strict
  dotted lookup and Jinja2's undefined-variable wording.
- **Utils** (`utils.dfy`): the pure helpers of `utils.py`. These are the
  lifecycle and platform membership tests, list coercion, the dotted
  lookup, the alphabet of `random_string` and the choice of template file.
- **StateStore** (`state.dfy`): the class `State`. It holds the phase,
  events, status index, scratch store, hook results and up result, and
  its methods update them in place. Opening a state from a location is
  modelled as well.
- **Parser** (`parser.dfy`): the class `ConfigParser`. It covers:
  - hook-name validation, `hooks_ops` and `hook_table`;
  - the two-phase interpolation and the lazy resolution of variables,
    where a variable that references `result` is deferred;
  - the delayed re-resolution and the publication of hook results to
    templates.
- **HookEngine** (`hooks.py`, in `hooks.dfy`): hook lookup and the
  condition check (`run_if`, with the `once` marker). It also covers
  platform filtering of ops, running ops (where `call` recurses to a depth
  of 5), storing named op output, the events around a hook run, and running
  every hook attached to a lifecycle event.
- **Provisioner** (`provisioner.dfy`): `provision` and `de_provision`. This
  is the order of state events, the resource-group handling and the hook
  triggers around one deployment, plus the argument lists handed to ARM and
  Terraform.
- **Tester** (`tester.dfy`): `run_test`. Each test gets its own
  configuration and state and goes through provisioning, testing and
  de-provisioning. A failing phase ends the test. Clean-up and
  exit-on-first-error are optional.
- **Formater** (`formater.dfy`): the printable hook listing.

Every call outside the process is a parameter of the model:
- Azure, bicep and Terraform outcomes are the `Provisioner.Cloud` value;
- command execution is the `HookEngine.Runner` function;
- a loaded test configuration is the `load` function of `Tester.RunTest`;
- state documents found on disk or behind a URL are `Option<Document>`
  arguments.

Where the code and its design description differ, the code is followed:
- `provision` runs the pre-up interpolation and the resource-group check
  before the pre-up hooks;
- `de_provision` calls `set_result({}, {})`, which writes nothing because
  `set_result` ignores empty values. The stored up result survives a
  teardown (`Provisioner.Teardown`, `Provisioner.DeProvision`).

## Model

| member | source | states |
|---|---|---|
| Values.Get | azext_cdf/parser.py:315-375 | a dictionary lookup finds a value exactly when the key is present, and the value found is stored under that key |
| Values.Put | azext_cdf/state.py:176-177 | assigning a key keeps the other keys and their order: an existing key keeps its place, a new key goes at the end, and reading the key back gives the value written |
| Values.Merge | azext_cdf/parser.py:290-293 | `{**a, **b}`: every key reads from b when b has it, else from a |
| Values.Strip | azext_cdf/hooks.py:140 | `str.strip()` result is no longer than its input and neither starts nor ends with whitespace (Python's `isspace` set); it is empty only when the input is all whitespace |
| Values.StripIsTrim | azext_cdf/hooks.py:140 | the stripped text is the input with a whitespace-only prefix and suffix cut off |
| Values.Lower | azext_cdf/hooks.py:141 | `str.lower()` keeps the length and lower-cases character by character (ASCII letters only) |
| Templates.Parse | azext_cdf/parser.py:253-254 | a template without `{{` compiles to its own text; syntax errors are TemplateSyntaxError |
| Templates.Lookup | azext_cdf/parser.py:253-255 | a first name absent from the variables fails with "'<name>' is undefined"; every lookup failure is an UndefinedError |
| Templates.Render | azext_cdf/parser.py:253-255 | rendering text without placeholders returns it unchanged; failures are only UndefinedError or TemplateSyntaxError |
| Templates.RenderSingleHole | azext_cdf/parser.py:253-255 | `{{p}}` renders to the printed value the path p names |
| Templates.SplitDotsPair | azext_cdf/utils.py:309-311 | two dot-free names joined by a dot split back into the two |
| Utils.IsEqualOrIn | azext_cdf/utils.py:225-233 | accepts exactly lists and strings; true iff the value equals the string or is an element of the list; any other type is a CLIError |
| Utils.IsPartOf | azext_cdf/utils.py:236-242 | for a string, membership; for a list, true iff every element is a listed string; other types are errors |
| Utils.ConvertToListIfNeed | azext_cdf/utils.py:297-303 | always a list: a list unchanged, None and "" empty, anything else wrapped |
| Utils.SplitFirstDot | azext_cdf/utils.py:309-310 | `keys.split(".", 1)`: the head has no dot and head + "." + rest rebuilds the input |
| Utils.DictLookupAgreesWithWalk | azext_cdf/utils.py:306-315 | dict_lookup finds the same value as a template placeholder with the same dotted path |
| Utils.DictLookupMissing | azext_cdf/utils.py:309-315 | a key missing at some level of the dotted path gives None, not an error |
| Utils.DictLookup | azext_cdf/utils.py:306-315 | a non-dictionary is an error; a dot-free key reads the dictionary, None when absent; a missing first key gives None |
| Utils.Alphabet | azext_cdf/utils.py:274-286 | an error iff no supported option is given; otherwise a character is in the alphabet iff it is an upper-case letter with "upper" or "all" selected, a lower-case letter with "lower" or "all", or a digit with "numbers", "special" or "all"; no option means upper + lower |
| Utils.RandomString | azext_cdf/utils.py:271-287 | the requested length (0 for negative) drawn only from the option's alphabet; fails iff the alphabet does |
| Utils.FindTheRightDir | azext_cdf/utils.py:245-249 | the configured up directory when set, else the config directory |
| Utils.FindTheRightFile | azext_cdf/utils.py:252-268 | an explicit location is returned unchanged; otherwise the glob loop decides, and its only failures are the two CLIErrors that name the file extension: none found, or more than one |
| Utils.PickFromLongPaths | azext_cdf/utils.py:259-268 | with paths longer than one character the glob loop succeeds iff exactly one file matches, and returns it |
| StateStore.ParseLocation | azext_cdf/state.py:21-28 | file:// gives the path after the scheme, http(s):// the URL; any other scheme is a CLIError, and only then |
| StateStore.Reconcile | azext_cdf/state.py:84-106 | the reconciled hook results have exactly the configured hooks |
| StateStore.ReconcileSpec | azext_cdf/state.py:84-106 | every configured op has an entry; other ops survive only if reserved (`_`-prefixed); surviving data is kept, new entries are empty |
| StateStore.StoreGetSticky | azext_cdf/state.py:180-187 | after the first store_get of a key every later one returns the first value and leaves the store alone |
| StateStore.State.Create | azext_cdf/state.py:31-45 | a new state: phase unknown, empty store, hook results and up result, the single "Created a state file" event with the status index on it |
| StateStore.State.Restore | azext_cdf/state.py:108-116 | a state read back holds the stored document |
| StateStore.State.Setup | azext_cdf/state.py:47-70 | fails iff the resource group or deployment name changes outside the unknown/down phases; records them when unset; reconciles hook results |
| StateStore.State.RecordIdentity | azext_cdf/state.py:51-68 | fails (CLIError) iff the requested resource group or deployment name differs from a recorded one outside the unknown/down phases; an unset resource group is always recorded, an unset name only when no clash is raised |
| StateStore.State.SetupHooksReference | azext_cdf/state.py:84-106 | the hook results become Reconcile of the old ones |
| StateStore.State.AddEvent | azext_cdf/state.py:151-160 | appends exactly one event carrying the (possibly new) phase; the status index moves to it iff a status is given |
| StateStore.State.TransitionToPhase | azext_cdf/state.py:136-139 | enters the phase with a pending "Transitioning to <phase>" event under the status index |
| StateStore.State.CompletedPhase | azext_cdf/state.py:141-149 | success enters the phase with "Successfully reached <phase>. <msg>"; error and failed log without changing phase; other statuses change nothing |
| StateStore.State.SetResult | azext_cdf/state.py:162-169 | each part of the up result is replaced only when the given value is truthy |
| StateStore.State.SetHookState | azext_cdf/state.py:171-178 | fails (KeyError) iff the hook is unknown; otherwise only that op's data changes, overlaid by the new data |
| StateStore.State.StoreGet | azext_cdf/state.py:180-187 | get-or-create: the stored value if any, else the default, which is then stored |
| StateStore.State.Report | azext_cdf/state.py:189-203 | phase, name and resource group, with status and message of the event under the status index; with the index at -1 the last event (`events[-1]`), and an IndexError only when the log is empty |
| StateStore.State.Events | azext_cdf/state.py:205-220 | the event log newest first, same length |
| StateStore.PruneHooks | azext_cdf/state.py:87-96 | the pruning loop computes Prune |
| StateStore.FillHooks | azext_cdf/state.py:99-106 | the filling loop computes InitMissing |
| StateStore.PruneHookOps | azext_cdf/state.py:90-94 | the inner pruning loop computes PruneOps |
| StateStore.InitHookOps | azext_cdf/state.py:104-106 | missing configured ops get `{}`, present ones are kept |
| StateStore.OpenState | azext_cdf/state.py:19-45 | fails iff the scheme is unsupported; otherwise a valid state holding Opened (the corrected reading) |
| StateStore.Opened | azext_cdf/state.py:108-119 | a document found at the state's location, file or URL, is the one used; none found gives a fresh document |
| StateStore.UrlStateIsDropped | azext_cdf/state.py:29-45 | as written, an up state kept at a URL comes back as a fresh document (with flushing taken as a no-op: the first flush to a URL raises "http write WIP") |
| Parser.HookNamesOf | azext_cdf/parser.py:377-385 | the hook names in declaration order |
| Parser.NameError | azext_cdf/parser.py:161-166 | a name passes iff it is non-empty and does not start with '_' |
| Parser.ValidateHooksAccepts | azext_cdf/parser.py:159-166 | _validate_hooks raises nothing iff every hook name and op name is acceptable |
| Parser.ValidateHooks | azext_cdf/parser.py:159-166 | the loop raises exactly the first bad name, in hook then op order |
| Parser.HooksOps | azext_cdf/parser.py:407-423 | fails (CLIError) iff a hook repeats an op name; otherwise maps each hook to exactly its named ops (HooksSignature) |
| Parser.OpNames | azext_cdf/parser.py:415-422 | fails (CLIError) iff one hook repeats an op name; otherwise exactly the hook's named ops |
| Parser.NamedOpsPrefix | azext_cdf/parser.py:417-421 | a duplicate found in a prefix of the ops is a duplicate of the hook |
| Parser.LifecycleList | azext_cdf/parser.py:401-403 | a string lifecycle becomes a one-element list, a list is kept |
| Parser.HookTable | azext_cdf/parser.py:396-405 | one row per hook, in order, with its name, description and lifecycle list |
| Parser.InterpolateObject | azext_cdf/parser.py:237-251 | success keeps the template's shape (lists and dictionaries keep length, keys and order); non-string leaves are CLIErrors |
| Parser.PlainIsFixpoint | azext_cdf/parser.py:237-255 | a template without placeholders interpolates to itself |
| Parser.ScopeOf | azext_cdf/parser.py:287-293 | phase 2 sees extra vars, then phase-1 vars, then phase-2 vars, in that precedence |
| Parser.RootVarsLayerMoot | azext_cdf/hooks.py:34 | the hook root variable `args` shadows no phase variable, so layering it above or below the phase scopes reads the same |
| Parser.Interpolate | azext_cdf/parser.py:284-309 | None passes through; success keeps the shape; undefined errors escape raw only when asked; everything else is a CLIError |
| Parser.InterpolateErrorWording | azext_cdf/parser.py:295-309 | a wrapped failure names "undefined variable" or "template syntax" with the original message |
| Parser.LazyFoldPartition | azext_cdf/parser.py:227-235 | after the lazy pass every defined variable is either resolved or deferred, never both |
| Parser.LazyFoldKeepsKeys | azext_cdf/parser.py:227-235 | the lazy pass never removes a resolved variable |
| Parser.LazyFoldDelaysOnly | azext_cdf/parser.py:231-233 | only defined variables are deferred |
| Parser.LazyFoldResolvesOnly | azext_cdf/parser.py:228-230 | only defined variables are resolved |
| Parser.ForwardRefFails | azext_cdf/parser.py:228-235 | a reference to a variable defined later fails with UndefinedError |
| Parser.BackRefResolves | azext_cdf/parser.py:228-230 | a reference to an earlier variable resolves to its printed value |
| Parser.ResultRefDeferred | azext_cdf/parser.py:231-233 | a variable referencing `result` is deferred, not an error |
| Parser.CycleFails | azext_cdf/parser.py:227-235 | two variables referencing each other fail |
| Parser.CdfKeyUndefined | azext_cdf/parser.py:205-209 | while variables resolve, `cdf.resource_group` is not yet defined |
| Parser.DelayedFoldWrites | azext_cdf/parser.py:263-265 | a successful delayed pass writes every deferred key and leaves every other variable alone |
| Parser.RewriteKeepsShape | azext_cdf/parser.py:273-282 | the in-place rewrite of the configuration keeps its structure, rendering only string leaves |
| Parser.HookOutputVisible | azext_cdf/parser.py:257-258 | what a named op stored is readable in phase 2 as `hooks.<hook>.<op>.<field>` |
| Parser.HooksValue | azext_cdf/parser.py:257-258 | the hook results become a dictionary value with exactly their hooks, ops and fields |
| Parser.PathJoin | azext_cdf/parser.py:200 | os.path.join: an absolute second part replaces the first |
| Parser.BootCdf | azext_cdf/parser.py:178-191 | the bootstrap cdf keys include tmp_dir and not yet name, resource_group or location |
| Parser.StateUri | azext_cdf/parser.py:195-200 | a state location given on the command line is used as is |
| Parser.Grouped | azext_cdf/parser.py:209-210 | a rendered group is a string and is the phase-1 rendering of the configured resource_group |
| Parser.Placement | azext_cdf/parser.py:209-211 | a rendered placement extends Grouped with the phase-1 rendering of `up` over the new group and location |
| Parser.PlacementSameKeys | azext_cdf/parser.py:195-211 | two configurations that agree on resource_group, location and `up` render the same placement |
| Parser.PlacedAsConfigured | azext_cdf/parser.py:195-211 | a placement resolved on the derived configuration is the one the original configures, and cdf and `up` hold its values |
| Parser.NewConfigParser | azext_cdf/parser.py:74-144 | a bad hook name is the first error; on success a fresh valid parser with the state at the command-line location when one is given; variables are the lazy pass; cdf `resource_group` and `location` and `data["up"]` are their phase-1 renderings (Placement); the state is set up: an unset resource group and name recorded, hook results reconciled with the configured ops (SetUp); result and hooks are published from the state |
| Parser.OpenConfigured | azext_cdf/parser.py:139-144 | OpenAt on the configuration StateUri derived, whose placement is the one the original configuration renders |
| Parser.OpenAt | azext_cdf/parser.py:139-144 | the state opened at the location parses it; then the resolver and the publication, with the placement rendered (Placed) and the state set up (SetUp) against the document found there |
| Parser.OpenParser | azext_cdf/parser.py:139-144 | the resolver, then result and hooks published from the state: the placement rendered (Placed), the state set up (SetUp), the location untouched; a failure leaves the deployment name and hook results as they were |
| Parser.ResolveParser | azext_cdf/parser.py:139-141 | a fresh parser over the given state: variables by the lazy pass, placement rendered (Placed), identity recorded unless already set and hook results reconciled (SetUp); a failure leaves the deployment name and hook results as they were |
| Parser.ConfigParser.ResolveCdfKey | azext_cdf/parser.py:205-210 | a cdf key is set to its phase-1 rendering iff that interpolation succeeds; a failure is that interpolation's error and leaves cdf alone |
| Parser.ConfigParser.LazyVariableResolve | azext_cdf/parser.py:227-235 | the loop computes the lazy pass LazyFold |
| Parser.ConfigParser.DelayedVariableInterpolate | azext_cdf/parser.py:263-265 | the loop computes the delayed pass DelayedFold |
| Parser.ConfigParser.DelayedUpElement | azext_cdf/parser.py:273-282 | the in-place rewrite computes RewriteLeaves |
| Parser.ConfigParser.DelayedUpInterpolate | azext_cdf/parser.py:267-270 | delayed variables first, then, only when `params` is present, every string leaf of the whole configuration re-rendered in phase 1 (not only `params`) |
| Parser.ConfigParser.UpdateHooksResult | azext_cdf/parser.py:257-258 | the `hooks` variable represents the given hook results |
| Parser.ConfigParser.UpdateResult | azext_cdf/parser.py:260-261 | the `result` variable holds outputs and resources |
| Parser.ConfigParser.ResolveNameAndVars | azext_cdf/parser.py:205-207 | the name is resolved first and is visible as `cdf.name`; the variables are then what the lazy pass computes over that scope |
| Parser.ConfigParser.ResolveName | azext_cdf/parser.py:205 | on success `cdf.name` holds the interpolated name and no other cdf key appears or disappears |
| Parser.ConfigParser.ResolvePlacement | azext_cdf/parser.py:209-215 | the three phase-1 renderings (Placement) written to cdf and `up`, or the first rendering error; then setup: a repeated op name or a Clash of resource group or name is a CLIError; otherwise an unset resource group and name are recorded and the hook results become Reconcile of the old ones; a failure leaves name and hook results |
| Parser.ConfigParser.ResolveRendered | azext_cdf/parser.py:209-211 | resource group and location, then `up`, written as Placement renders them; the first failure is passed on |
| Parser.ConfigParser.SetupState | azext_cdf/parser.py:213-215 | state.setup with the name, the rendered group and hooks_ops: fails (CLIError) iff an op name repeats or the identity clashes; records an unset group and name; reconciles the hook results |
| Parser.ConfigParser.ResolveGroupAndLocation | azext_cdf/parser.py:209-210 | resource_group then location rendered in phase 1, location seeing the new group (Grouped); a failure is the first error; success writes both, and the group returned is the one cdf holds |
| Parser.ConfigParser.ResolveUp | azext_cdf/parser.py:211 | `up` becomes its phase-1 rendering over the cdf so far; a failure is that error and leaves the configuration alone |
| Parser.ConfigParser.Publish | azext_cdf/parser.py:143-144 | `result` holds the state's up outputs and resources and `hooks` represents the state's hook results |
| Parser.ConfigParser.ResolveIdentity | azext_cdf/parser.py:205-215 | name, variables, group, location, `up`, then setup: success means the placement rendered over the cdf the variables saw, the rendered group and the name recorded unless already set, and the hook results reconciled; a failure leaves name and hook results |
| HookEngine.EvaluateCondition | azext_cdf/hooks.py:139-150 | true words run, false words skip, the `once` marker runs iff `_condition.ran` is not set; anything else is the CLIError; an unknown hook under `once` is a KeyError |
| HookEngine.ConditionIgnoresLeadingBlank | azext_cdf/hooks.py:140 | leading whitespace does not change the verdict |
| HookEngine.OnceMarkerClassified | azext_cdf/hooks.py:145 | the rendered `once` variable is recognised as the run-once marker |
| HookEngine.OnceRunsOnce | azext_cdf/hooks.py:145-148 | a run-once hook runs when never run and is skipped once `ran` is recorded |
| HookEngine.FindHook | azext_cdf/hooks.py:54 | the hook is found by exact name; otherwise a KeyError/TypeError |
| HookEngine.OpsName | azext_cdf/hooks.py:62 | the op's name, else its description, else "#" and a decimal number |
| HookEngine.OpsNameNumbers | azext_cdf/hooks.py:61-62 | two anonymous ops get the same "#n" label iff they are at the same position |
| HookEngine.Condition | azext_cdf/hooks.py:139-150 | a `run_if` failure is a CLIError, or the KeyError of a run-once hook without results |
| HookEngine.Rendered | azext_cdf/hooks.py:71-72 | args and cwd rendered in phase 2; a missing cwd stays None; a failure is a CLIError |
| HookEngine.Interactive | azext_cdf/hooks.py:73-79 | only cmd and script ops run interactively, and a script op does iff the hook has extra call arguments |
| HookEngine.Direct | azext_cdf/hooks.py:71-81 | a rendering failure is the op's error; print yields its rendered args and an empty stderr; a runner's output is two strings |
| HookEngine.StepStored | azext_cdf/hooks.py:86-87 | a named op that passed left its stdout and stderr in the hook results |
| HookEngine.ClosedMarks | azext_cdf/hooks.py:41-42 | a hook that ran and passed is marked `_condition.ran = True` |
| HookEngine.PlatformAllows | azext_cdf/hooks.py:63-69 | an op runs iff its platform is "" or mine, or a list holding either |
| HookEngine.SelectedSpec | azext_cdf/hooks.py:60-69 | the ops run are exactly those the platform allows, in op order |
| HookEngine.SelectedGrows | azext_cdf/hooks.py:60-69 | the ops selected so far are a prefix of those selected over all ops |
| HookEngine.OnlyNamedOpsTrans | azext_cdf/hooks.py:86-88 | writes confined to named ops compose |
| HookEngine.ConditionUntouched | azext_cdf/hooks.py:86-88 | op writes never touch a hook's `_condition` record |
| HookRunner.StoreOutput | azext_cdf/hooks.py:86-88 | a named op's stdout/stderr is overlaid on its entry and republished to templates; a hook without results is a KeyError that changes nothing |
| HookRunner.RunCallOp | azext_cdf/hooks.py:71-84 | args and cwd rendered first, a rendering failure passed on with nothing changed; then the hook the args name is entered one level deeper with the same root variables (Entered) and its own op loop really runs there (BodyRan over the callee's op steps `calleeSteps`), its failure passed on, its verdict dropped |
| HookRunner.Execute | azext_cdf/hooks.py:71-84 | the op's action (OpRuns): a call op as RunCallOp, its callee's body run one level deeper (BodyRan), print its rendered args, any other kind the runner's output on the rendered op (Direct) |
| HookRunner.RunOp | azext_cdf/hooks.py:71-88 | one op step (OpStep) from the parser's hook state before to the one after: a call op runs as RunCallOp, the callee's op steps recorded in the step and each of them an op step of the callee one level deeper; print returns its rendered args, other kinds the runner's output (Direct); a named op then stores its output, an unnamed one changes nothing |
| HookRunner.RunOps | azext_cdf/hooks.py:60-89 | the ops run are a prefix of the platform-selected ones, in order, each an op step from where the previous left off (OpsRan), a call op's step carrying the callee's own op loop (BodyRan); all but the last passed; Ok(true) iff every selected op ran and passed; an error is the last op's |
| HookRunner.RunHookInner | azext_cdf/hooks.py:48-89 | over the recursion limit the limit CLIError; an unknown hook the lookup error; then `run_if` (Condition): its error is the result, Ok(false) iff it is false, and when true the op loop runs (BodyRan, down through every call op's callee), Ok(true) meaning the selected ops all ran |
| HookRunner.StartHook | azext_cdf/hooks.py:34-45 | the running event, the hook entered at depth 1 with `args` bound to the hook arguments and its op loop run (Started: Entered and BodyRan, so every call op's callee body too), then the closing events and mark |
| HookRunner.RunHook | azext_cdf/hooks.py:27-45 | the deferred variables re-resolved first, their failure passed on before any event (Stalled); no hook arguments is the IndexError; otherwise the running event, the body at depth 1 with every op and every call op's callee body run (Entered, BodyRan) and the close (HookRunOk); a hook that ran and passed records `_condition.ran = True`; phase and status index unchanged |
| Lifecycle.RunNamed | azext_cdf/hooks.py:24 | run_hook([name]): either the deferred variables fail before any event (Stalled, nothing logged), or the running and closing events of a run of that hook (HookRunOk, its body and callees run) whose outcome is the result |
| HookRunner.Finish | azext_cdf/hooks.py:38-45 | the closing event for the hook's outcome (ClosingEvents), and the ran mark only after a run (Closed) |
| LifecycleSpec.TriggeredSpec | azext_cdf/hooks.py:21-24 | the hooks triggered are exactly those whose lifecycle names the event, in declaration order, each once |
| LifecycleSpec.TriggeredGrows | azext_cdf/hooks.py:21-24 | hooks triggered so far are a prefix of all triggered |
| Lifecycle.RunHookLifecycle | azext_cdf/hooks.py:16-24 | the hooks run are the triggered ones in configuration order, each from where the previous left off, every one but the last passed, all of them when the result passes (HooksRan: LifecycleRuns, LifecycleFrom); each recorded run is a real run of its hook (RanAsHook, i.e. HookRunOk); a failure is the last run's, or the deferred variables' failure before the next triggered hook's running event; a pass ends where the last run left off; the events appended are exactly those of the runs |
| Lifecycle.RunEach | azext_cdf/hooks.py:20-24 | the loop over the hooks in configuration order, stopping at the first failure, with what RunHookLifecycle states (Done: HooksRan and the events of the runs) |
| LifecycleSpec.HooksRanRun | azext_cdf/hooks.py:16-33 | what a lifecycle run promises, with its end state dropped: a failure no run raised is the deferred variables' error where the runs left off (HooksRun), and a pass ends where the last run left off |
| LifecycleSpec.StallIsRedelayError | azext_cdf/hooks.py:16-33 | a lifecycle failure that is no run's own is the error of re-resolving the deferred variables where the runs left off |
| Provisioner.KindOf | azext_cdf/provisioner.py:93-95 | the deployment kind is ARM iff `provisioner` is "arm", Terraform iff it is "terraform", bicep otherwise |
| Provisioner.ArmParameters | azext_cdf/provisioner.py:209-212 | one `["key=value"]` per param, in order |
| Provisioner.ArmParameterRoundTrip | azext_cdf/provisioner.py:211 | a parameter name without '=' and its value are recovered from the argument |
| Provisioner.DeploymentMode | azext_cdf/provisioner.py:214-217 | "Complete" iff a complete deployment is asked for, else "Incremental" |
| Provisioner.TerraformArgs | azext_cdf/provisioner.py:244-252 | command, -input, the deployment's state file, -auto-approve, -no-color, then the vars file iff params are non-empty |
| Provisioner.ApplyAndDestroyAgree | azext_cdf/provisioner.py:225-253 | apply and destroy differ only in the command: destroy reads the state file apply wrote |
| Provisioner.ResourceGroupTags | azext_cdf/provisioner.py:48-51 | the configured tags when they are a dictionary, else the default tags |
| Provisioner.DefaultTagsNameDeployment | azext_cdf/provisioner.py:49 | the default tags say "managed_by: CDF" and name the deployment |
| Provisioner.RgIfNeeded | azext_cdf/provisioner.py:44-52 | a group is created iff it is managed and absent, with those tags; unmanaged or existing groups need nothing; the check passes iff the group is unmanaged, exists, or was created |
| Provisioner.EmptyDeployment | azext_cdf/provisioner.py:33-41 | the teardown passes iff the deployment passed or its CLIError mentions ResourceGroupNotFound; other errors pass through |
| Provisioner.MissingGroupAnywhereInMessage | azext_cdf/provisioner.py:38 | the marker is recognised wherever it appears in the message |
| Provisioner.RgRemoval | azext_cdf/provisioner.py:83-84 | the group is deleted iff managed and present; an existence check or deletion failure is the error |
| Provisioner.Deploy | azext_cdf/provisioner.py:129-162 | a failed deployment changes nothing; a successful one stores the non-empty parts of its result |
| Provisioner.Teardown | azext_cdf/provisioner.py:90-104 | empty deployment for bicep/ARM, destroy for Terraform; the up result is left as it was |
| Provisioner.BeginUp | azext_cdf/provisioner.py:109-115 | going_up logged first with the status index on it; an interpolation or resource-group failure runs no hook and leaves the hooks' state; otherwise the pre-up hooks run from the entry state as RunHookLifecycle states (HooksRan: triggered, chained, each a real run, a stall being the deferred variables' error) and their events follow the transition event |
| Provisioner.Provision | azext_cdf/provisioner.py:107-126 | it stops at the pre-up interpolation iff that fails, passing its error on; at the resource group iff the group check then fails, with no hook run; the pre-up hooks run from the entry state and the post-up hooks from where they left off, each lifecycle as HooksRan states; the log is the transition event, the pre-up hook runs, then either nothing more (an earlier failure), the "General error during up phase" event (deployment failure), or the success event followed by the post-up hook runs; post-up hooks run only when every pre-up hook and the deployment passed; success stores the result |
| Provisioner.FinishUp | azext_cdf/provisioner.py:116-126 | a deployment failure logs only the up-phase error event, runs no hook and leaves the up result and hooks' state; success stores the result, logs the success event and then exactly the post-up hook runs, run as HooksRan states |
| Provisioner.Complete | azext_cdf/provisioner.py:125-126 | the success event under the status index, then exactly the runs of the hooks the post event triggers, in order, each a real run from where the previous left off (HooksRan); the phase stays reached |
| Provisioner.BeginDown | azext_cdf/provisioner.py:69-73 | going_down logged first with the status index on it; an interpolation failure runs no hook and leaves the hooks' state; otherwise the pre-down hooks run from the entry state as HooksRan states and their events follow the transition event |
| Provisioner.DeProvision | azext_cdf/provisioner.py:67-87 | it stops at the pre-up interpolation iff that fails, passing its error on, with no hook run; the pre-down hooks run from the entry state and the post-down hooks from where they left off, each lifecycle as HooksRan states; the log is the transition event, the pre-down hook runs, then the down-phase error event (teardown failure), nothing more (group removal failure), or the success event followed by the post-down hook runs; post-down hooks run only when every earlier step passed; the up result is never cleared |
| Provisioner.FinishDown | azext_cdf/provisioner.py:74-87 | a teardown failure logs only the down-phase error event; a group removal failure logs nothing; neither runs a hook; success logs the success event and then exactly the post-down hook runs, run as HooksRan states; the up result is never cleared |
| Tester.RunExpect | azext_cdf/tester.py:11-12 | the expectation check returns the one-element set {"failed"} and never fails |
| Tester.AbortIfNeeded | azext_cdf/tester.py:14-35 | a phase passes iff it succeeded; a CLIError gives "Failed during testing <phase>. …", or with exit-on-first-error the "test '<name>' failed" CLIError; other exceptions pass through |
| Tester.RunPhase | azext_cdf/tester.py:48-58 | provisioning gives what provision gives (UpRan: the interpolation failure iff it fails, the group check, the pre-up hooks and then the post-up hooks each run as HooksRan states from the parser's hook state, the deployment), de-provisioning what de_provision gives (DownRan, likewise) and logs going_down first; testing passes, runs no hook and logs nothing |
| Tester.DownLogged | azext_cdf/provisioner.py:67-87 | wherever de_provision stopped, its log began with the going_down transition |
| Tester.RunFnAbortIfNeeded | azext_cdf/tester.py:14-35 | the phase runs as RunPhase states, leaving the hooks' state `midSnap`; a clean-up de-provisioning runs (going_down logged after the phase) iff the phase failed with a CLIError outside de-provisioning and clean-up is asked for, with DownRan from `midSnap` for its outcome; the report is AbortIfNeeded of the two outcomes |
| Tester.OpenTest | azext_cdf/tester.py:46 | the test's ConfigParser: a bad hook name is the error; success is a fresh valid parser with the configured hooks, its variables the lazy pass, its placement rendered and its state set up as NewConfigParser states |
| Tester.RunPhases | azext_cdf/tester.py:47-61 | provisioning, testing, de-provisioning until one fails: `outs` are the phases' outcomes, provisioning's as UpRan from the entry hook state to `upEnd` and de-provisioning's (or the clean-up's) as DownRan from `upEnd`, all but the last passed; the report is AbortIfNeeded of the last phase and its clean-up; an error passed on is a CLIError only with exit-on-first-error |
| Tester.RunTestingAndDown | azext_cdf/tester.py:52-58 | testing passes and runs no hook, then de-provisioning runs as DownRan from the entry hook state and its report is AbortIfNeeded of its outcome |
| Tester.RunOneTest | azext_cdf/tester.py:45-61 | a configuration that does not open is the error and no phase runs (its hook-name error first); otherwise provisioning (UpRan over the opened configuration's setting from its hook state `start` to `upEnd`), testing and de-provisioning (DownRan from `upEnd`) until one fails, the report AbortIfNeeded of the last; a passing test ran all three; a failed report names the last phase run |
| Tester.Record | azext_cdf/tester.py:45-48 | the test's entry is replaced in place or appended; names stay distinct |
| Tester.RunTest | azext_cdf/tester.py:38-71 | no tests give no entries and the flag false; every test gets an entry; a failed test is recorded and the loop goes on, so only an exception (a load error, a configuration that does not open, with its hook-name error first, or an error of a test) ends it early; any failure ends in "At-least on test failed"; success returns all entries passed with the flag false; exit-on-first-error never records a failure |
| Tester.InitConfig | azext_cdf/utils.py:66-74 | init_config as intended: the configuration unchanged, or with the state location overridden by file://<state file> |
| Tester.InitConfigAsWritten | azext_cdf/tester.py:46 | the call with `test=` raises a TypeError for every test |
| Tester.RunTestAsWritten | azext_cdf/tester.py:44-46 | as written, run_test fails with that TypeError before the first test provisions anything |
| Formater.FormatRow | azext_cdf/_formater.py:10-17 | name and description copied; a single lifecycle event is shown as is |
| Formater.HooksOutputFormat | azext_cdf/_formater.py:5-19 | one line per row, same order, name and description copied, lifecycle joined by ", " |
| Formater.SplitJoin | azext_cdf/_formater.py:15 | the events joined by ", " split back into the events when none holds a comma |
| Formater.LifecycleReadable | azext_cdf/_formater.py:15 | a formatted Lifecycle column lists the row's events |

## Left out

- File, HTTP and process I/O: reading YAML, writing state files, flushing, temporary directories, `chmod`, `print`. Where the outcome matters it is a parameter.
- Timestamps in events and the status report, logging, progress indicators and `_version_compare` (which only logs).
- Schema validation by the `schema` library: its guarantees are the `Parser.SchemaValid` and `Parser.ConfigShape` preconditions, not a model of the library.
- Jinja2 beyond `{{ dotted.path }}` placeholders: filters, expressions, `include_file`, `template_file`, `random_string` and `store` as template globals.
- `run_command`, `shlex` splitting, and `_run_cmd`/`_run_az`/`_run_script`. These are the `HookEngine.Runner` function; the script copy to the temporary directory is not modelled.
- HookEngine.Interactive: reproduces that `_run_script` passes the hook arguments where `_run_cmd` expects the interactive flag; the flag only reaches the runner.
- `interpolate_delayed_variable` and `interpolate_pre_up`, which the hook engine and provisioner call but `ConfigParser` does not define. The first is modelled as `DelayedVariableInterpolate`; the second is the `preUp` outcome of `Provisioner.Cloud`.
- Azure and Terraform calls are outcomes in `Provisioner.Cloud`. This covers `deploy_arm_template_at_resource_group`, `show_resource`, `create_resource_group`, `delete_resource`, `run_bicep`, `build_bicep_file`, `check_deployment_error`, Terraform output decoding and `find_the_right_file` inside `_provision`.
- init_config in `run_test` is the `load` parameter (its intended result is `Tester.InitConfig`); the warnings logged for failed tests and failed clean-ups are not modelled.
- Parser.NewConfigParser: of its failures only the hook-name error is stated; the errors of the bootstrap keys, the state location, the renderings and the state setup are passed on but not named in its contract.
- Tester.RunTest: when a test's configuration does not open for a reason other than its hook names, the error is NewConfigParser's and is stated only as an error.
- Tester.RunTest: results are typed `Report(name, failed, msg)` entries, because the `phase` key of the initial result never survives.
- Parser.HooksValue: the hook results are Dafny maps, so the key order of the `hooks` variable is unspecified.
- Parser.CycleFails: as written the cycle raises a raw UndefinedError (lazy resolution asks for raw errors), not the CLIError a wrapped failure would be.
- Formater.HooksOutputFormat: requires string lifecycle events (join's TypeError for other items is not modelled); the schema admits only strings.
- Values.Lower: lower-cases ASCII letters only. The model compares its result only with ASCII words (`true`, `no`, ...), and no non-ASCII character lowers to one of them except the Kelvin sign and dotted capital I, which `str.lower()` maps to `k` and to `i` plus a combining dot; neither of those can spell a boolean word, so no verdict changes.
- HookEngine.RunOp: the hook root variables (`{"args": hook_args}`) are the top `extra` layer of the phase-2 scope. As written, `interpolate` (azext_cdf/parser.py:284) has no `root_vars` parameter, so the calls at azext_cdf/hooks.py:71, 72 and 139 raise TypeError; the model follows the evident intent. The parser's tests expect root variables beneath the phase variables; `Parser.RootVarsLayerMoot` proves that with the one root variable, `args`, both layerings read the same.
- HookEngine.EvaluateCondition: uses the same root-variable layering as HookEngine.RunOp, and so does not model the TypeError of the `root_vars` keyword.
- Parser.ConfigParser.DelayedUpInterpolate: on a failed leaf the model leaves the configuration unchanged; Python has already written the leaves rendered before the failure in place.
- Utils.IsPartOf: a list holding a dictionary or list is `Ok(false)` in the model; Python's `set(item)` raises TypeError for such unhashable elements.
- Utils.RandomString: the option is a list of words; a string option, where `"upper" in option` is a substring test, is not modelled.
- The remaining files of the repository (handlers, help, params, schema, tests) are not part of this model.

## Findings

| source | as written | input that shows it | evidently intended | confidence | as-written member | corrected member |
|---|---|---|---|---|---|---|
| azext_cdf/state.py:29-45,117-119 | `_read_state` loads the document from a URL but returns False, so `__init__` overwrites it with a fresh document; the first flush of that document then raises CLIError("http write WIP") (azext_cdf/utils.py:167-169), so "comes back as a fresh document" holds with flushing taken as a no-op | a state at `https://host/state.json` whose document is in phase up | a document found at a URL is used, as one found in a file is | medium, not executed | StateStore.UrlStateIsDropped | StateStore.Opened |
| azext_cdf/tester.py:46 | `run_test` calls `init_config(..., test=test_name)`, a keyword init_config does not take; init_config itself calls `ConfigParser(config_filepath=...)`, whose parameter is `config` (azext_cdf/utils.py:74) | any `run_test` with at least one test name | init_config builds the test's ConfigParser with the state file override | high, not executed | Tester.RunTestAsWritten | Tester.RunTest |
