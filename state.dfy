/** The deployment state store of azext_cdf/state.py: the phase label, the
    append-only event log with its status index, the write-once deployment
    name and resource group, the get-or-create scratch store, the per-hook,
    per-op results and the provisioning result. The persisted document is
    the object's fields; writing it out (a file or an HTTP endpoint) is not
    part of this model, so every flush is a no-op. */
module StateStore {
  import opened Values

  datatype Phase = Unknown | GoingUp | Up | GoingDown | Down | Testing | Tested

  datatype Status = StatusUnknown | StatusPending | StatusSuccess | StatusError | StatusFailed

  /** One entry of the event log (its timestamp is not modelled). */
  datatype Event = Event(phase: Phase, msg: string, status: Option<Status>, hook: Option<string>)

  /** Where the state document lives. */
  datatype Location = FilePath(path: string) | Url(url: string)

  /** What `status` reports: the deployment identity, the phase, and the
      event the status index designates. */
  datatype StatusReport = StatusReport(
    name: Option<string>, phase: Phase, resourceGroup: Option<string>,
    status: Option<Status>, statusMessage: string)

  type OpData = map<string, Value>
  type HookResults = map<string, map<string, OpData>>
  /** hook name -> the names of its named ops, as the parser's hooks_ops
      gives them (the inner `{}` values carry nothing). */
  type HookSignature = map<string, set<string>>

  /** The label the state document stores for a phase. */
  function PhaseName(p: Phase): string {
    match p
    case Unknown => "unknown"
    case GoingUp => "going_up"
    case Up => "up"
    case GoingDown => "going_down"
    case Down => "down"
    case Testing => "testing"
    case Tested => "tested"
  }

  /** Phases in which the deployment identity may be replaced. */
  predicate Movable(p: Phase) {
    p == Unknown || p == Down
  }

  /** The scheme check and path extraction of State.__init__. */
  function ParseLocation(uri: string): (r: Result<Location>)
    ensures StartsWith(uri, "file://") ==> r == Ok(FilePath(uri[7..]))
    ensures !StartsWith(uri, "file://") && (StartsWith(uri, "http://") || StartsWith(uri, "https://")) ==> r == Ok(Url(uri))
    ensures r.Err? <==> !(StartsWith(uri, "file://") || StartsWith(uri, "http://") || StartsWith(uri, "https://"))
    ensures r.Err? ==> r.error.CliError?
  {
    if StartsWith(uri, "file://") then Ok(FilePath(uri[|"file://"|..]))
    else if StartsWith(uri, "http://") || StartsWith(uri, "https://") then Ok(Url(uri))
    else Err(CliError("Error unsupported schmea for state file '" + uri + "' supported schemas 'file://'|'https://'|'http://'"))
  }

  // ---- reconciliation of hook results against the hook configuration ----

  /** Op keys starting with '_' are internal bookkeeping (`_condition`). */
  predicate Reserved(op: string) {
    |op| > 0 && op[0] == '_'
  }

  predicate NoEmptyOp(h: HookResults) {
    forall k :: k in h ==> "" !in h[k]
  }

  /** The ops of one retained hook after pruning: internal ones and the ones
      still configured survive. */
  function PruneOps(ops: map<string, OpData>, keep: set<string>): map<string, OpData> {
    map op | op in ops && (Reserved(op) || op in keep) :: ops[op]
  }

  /** The first loop of _setup_hooks_reference: hooks no longer configured
      are dropped, stale ops of the others are dropped. */
  function Prune(stored: HookResults, config: HookSignature): HookResults {
    map h | h in stored && h in config :: PruneOps(stored[h], config[h])
  }

  /** The second loop: every configured hook and op gets an entry, `{}` when
      it has none yet. */
  function InitMissing(pruned: HookResults, config: HookSignature): HookResults {
    map h | h in config :: Filled(pruned, config, h)
  }

  /** One configured hook's entry after the second loop. */
  function Filled(pruned: HookResults, config: HookSignature, h: string): map<string, OpData>
    requires h in config
  {
    var cur := if h in pruned then pruned[h] else map[];
    cur + map op | op in config[h] && op !in cur :: map[]
  }

  /** The hook results _setup_hooks_reference leaves behind. */
  function Reconcile(stored: HookResults, config: HookSignature): (r: HookResults)
    requires NoEmptyOp(stored)
    requires forall h :: h in config ==> "" !in config[h]
    ensures NoEmptyOp(r)
    ensures r.Keys == config.Keys
  {
    InitMissing(Prune(stored, config), config)
  }

  /** What reconciliation promises: exactly the configured hooks remain;
      each has an entry for every configured op; an op beyond the
      configured ones survives only if it is internal; stored results of
      surviving ops are kept; every other entry is empty. */
  lemma {:induction false} ReconcileSpec(stored: HookResults, config: HookSignature)
    requires NoEmptyOp(stored)
    requires forall h :: h in config ==> "" !in config[h]
    ensures var r := Reconcile(stored, config);
      && r.Keys == config.Keys
      && (forall h :: h in r ==> config[h] <= r[h].Keys)
      && (forall h, op :: h in r && op in r[h] && op !in config[h] ==> Reserved(op))
      && (forall h, op :: h in r && op in r[h] && h in stored && op in stored[h] ==> r[h][op] == stored[h][op])
      && (forall h, op :: h in r && op in r[h] && !(h in stored && op in stored[h]) ==> r[h][op] == map[])
      && (forall h, op :: h in stored && h in config && op in stored[h] && (Reserved(op) || op in config[h]) ==> op in r[h])
  {
    var r := Reconcile(stored, config);
    var p := Prune(stored, config);
    forall h | h in r
      ensures config[h] <= r[h].Keys
      ensures forall op :: op in r[h] && op !in config[h] ==> Reserved(op)
      ensures forall op :: op in r[h] && h in stored && op in stored[h] ==> r[h][op] == stored[h][op]
      ensures forall op :: op in r[h] && !(h in stored && op in stored[h]) ==> r[h][op] == map[]
    {
      assert r[h] == Filled(p, config, h);
    }
    forall h, op | h in stored && h in config && op in stored[h] && (Reserved(op) || op in config[h])
      ensures op in r[h]
    {
      assert op in p[h];
    }
  }

  /** A stored value that differs from the requested one while the phase
      forbids changing it. */
  predicate Clash(stored: Option<string>, requested: string, p: Phase) {
    stored.Some? && stored.value != requested && !Movable(p)
  }

  /** get-or-create on the scratch store: the new store and the value
      returned. */
  function GetOrCreate(store: map<string, Value>, k: string, v: Value): (map<string, Value>, Value) {
    if k in store then (store, store[k]) else (store[k := v], v)
  }

  /** Once a key has been fetched, every later fetch returns that first
      value, whatever default it passes. */
  lemma {:induction false} StoreGetSticky(store: map<string, Value>, k: string, v1: Value, v2: Value)
    ensures GetOrCreate(GetOrCreate(store, k, v1).0, k, v2).1 == GetOrCreate(store, k, v1).1
    ensures GetOrCreate(GetOrCreate(store, k, v1).0, k, v2).0 == GetOrCreate(store, k, v1).0
    ensures k !in store ==> GetOrCreate(GetOrCreate(store, k, v1).0, k, v2).1 == v1
  {
  }

  /** The persisted state document, as a state file holds it. */
  datatype Document = Document(
    deploymentName: Option<string>, phase: Phase, statusPtr: int, events: seq<Event>,
    store: map<string, Value>, hooksResult: HookResults, resourceGroup: Option<string>,
    upOutputs: Value, upResources: Value)

  /** What every document this code writes satisfies. */
  predicate DocValid(d: Document) {
    && -1 <= d.statusPtr < |d.events|
    && (d.statusPtr >= 0 ==> d.events[d.statusPtr].status.Some?)
    && NoEmptyOp(d.hooksResult)
  }

  class State {
    var location: Location
    var configHooks: HookSignature
    var deploymentName: Option<string>
    var resourceGroup: Option<string>
    var phase: Phase
    var statusPtr: int
    var events: seq<Event>
    var store: map<string, Value>
    var hooksResult: HookResults
    var upOutputs: Value
    var upResources: Value

    /** The status index is -1 or designates an event that carries a
        status; no op key is empty (the code indexes op[0]). */
    ghost predicate Valid()
      reads this
    {
      && -1 <= statusPtr < |events|
      && (statusPtr >= 0 ==> events[statusPtr].status.Some?)
      && NoEmptyOp(hooksResult)
    }

    /** The document the object currently holds. */
    function Doc(): (d: Document)
      reads this
      ensures Valid() ==> DocValid(d)
    {
      Document(deploymentName, phase, statusPtr, events, store, hooksResult, resourceGroup, upOutputs, upResources)
    }

    /** An existing state document read back from where it is stored. */
    constructor Restore(loc: Location, d: Document)
      requires DocValid(d)
      ensures Valid()
      ensures location == loc && configHooks == map[] && Doc() == d
    {
      location := loc;
      configHooks := map[];
      deploymentName := d.deploymentName;
      phase := d.phase;
      statusPtr := d.statusPtr;
      events := d.events;
      store := d.store;
      hooksResult := d.hooksResult;
      resourceGroup := d.resourceGroup;
      upOutputs := d.upOutputs;
      upResources := d.upResources;
    }

    /** A fresh state document: phase unknown, status index -1, then the single
        "Created a state file" event, which moves the status index to 0. */
    constructor Create(loc: Location)
      ensures Valid()
      ensures location == loc && configHooks == map[]
      ensures deploymentName.None? && resourceGroup.None?
      ensures phase == Unknown
      ensures events == [Event(Unknown, "Created a state file", Some(StatusUnknown), None)]
      ensures statusPtr == 0
      ensures store == map[] && hooksResult == map[]
      ensures upOutputs == Dict([]) && upResources == Dict([])
    {
      location := loc;
      configHooks := map[];
      deploymentName := None;
      phase := Unknown;
      statusPtr := -1;
      events := [];
      store := map[];
      hooksResult := map[];
      resourceGroup := None;
      upOutputs := Dict([]);
      upResources := Dict([]);
      new;
      SetupHooksReference();
      AddEvent("Created a state file", Some(StatusUnknown), None, None);
    }

    /** setup: records the configured hooks, then checks the resource group
        and the deployment name against the stored ones. Each is written
        only when nothing is stored; an equal value, or a differing one in
        phase unknown or down, is accepted without change; otherwise the
        call fails (a resource group written before a failing name check
        stays written). On success the hook results are reconciled. */
    method Setup(name: string, rg: string, config: HookSignature) returns (r: Outcome)
      requires Valid()
      requires forall h :: h in config ==> "" !in config[h]
      modifies this`configHooks, this`resourceGroup, this`deploymentName, this`hooksResult
      ensures Valid()
      ensures configHooks == config
      ensures r.Fail? <==> Clash(old(resourceGroup), rg, phase) || Clash(old(deploymentName), name, phase)
      ensures r.Fail? ==> r.error.CliError?
      ensures resourceGroup == (if old(resourceGroup).None? then Some(rg) else old(resourceGroup))
      ensures r.Pass? ==> deploymentName == (if old(deploymentName).None? then Some(name) else old(deploymentName))
      ensures r.Pass? ==> hooksResult == Reconcile(old(hooksResult), config)
      ensures r.Fail? ==> deploymentName == old(deploymentName) && hooksResult == old(hooksResult)
    {
      configHooks := config;
      r := RecordIdentity(name, rg);
      if r.Pass? {
        SetupHooksReference();
      }
    }

    /** The resource group and deployment name checks of setup. */
    method RecordIdentity(name: string, rg: string) returns (r: Outcome)
      requires Valid()
      modifies this`resourceGroup, this`deploymentName
      ensures Valid()
      ensures r.Fail? <==> Clash(old(resourceGroup), rg, phase) || Clash(old(deploymentName), name, phase)
      ensures r.Fail? ==> r.error.CliError?
      ensures resourceGroup == (if old(resourceGroup).None? then Some(rg) else old(resourceGroup))
      ensures deploymentName == (if r.Pass? && old(deploymentName).None? then Some(name) else old(deploymentName))
    {
      if Clash(resourceGroup, rg, phase) {
        return Fail(CliError("Resource group already provisioned '" + resourceGroup.value + "' requested '" + rg
          + "', Can't change resource group before destroying."));
      }
      if resourceGroup.None? {
        resourceGroup := Some(rg);
      }
      if Clash(deploymentName, name, phase) {
        return Fail(CliError("state error seems you have changed the deployment name to '" + deploymentName.value
          + "', the state has this deployment name: " + name));
      }
      if deploymentName.None? {
        deploymentName := Some(name);
      }
      return Pass;
    }

    /** _setup_hooks_reference: prunes the stored hook results against the
        configured hooks, then, unless no hook is configured, creates the
        missing entries. */
    method SetupHooksReference()
      requires Valid()
      requires forall h :: h in configHooks ==> "" !in configHooks[h]
      modifies this`hooksResult
      ensures Valid()
      ensures hooksResult == Reconcile(old(hooksResult), configHooks)
    {
      var pruned := PruneHooks(hooksResult, configHooks);
      hooksResult := pruned;
      if configHooks == map[] {
        assert InitMissing(pruned, configHooks) == map[];
        return;
      }
      hooksResult := FillHooks(pruned, configHooks);
    }

    /** add_event: appends exactly one event, recording the phase (after
        storing the given one); the status index moves to the new event
        only when a status is given. */
    method AddEvent(msg: string, status: Option<Status>, p: Option<Phase>, hook: Option<string>)
      requires Valid()
      modifies this`phase, this`events, this`statusPtr
      ensures Valid()
      ensures phase == (if p.Some? then p.value else old(phase))
      ensures events == old(events) + [Event(phase, msg, status, hook)]
      ensures statusPtr == (if status.Some? then |events| - 1 else old(statusPtr))
    {
      if p.Some? {
        phase := p.value;
      }
      events := events + [Event(phase, msg, status, hook)];
      if status.Some? {
        statusPtr := |events| - 1;
      }
    }

    /** transition_to_phase: enters the phase with status pending. */
    method TransitionToPhase(p: Phase)
      requires Valid()
      modifies this`phase, this`events, this`statusPtr
      ensures Valid()
      ensures phase == p
      ensures events == old(events) + [Event(p, "Transitioning to " + PhaseName(p), Some(StatusPending), None)]
      ensures statusPtr == |events| - 1
    {
      AddEvent("Transitioning to " + PhaseName(p), Some(StatusPending), Some(p), None);
    }

    /** completed_phase: success reaches the phase; error and failed record
        their status but keep the current phase; any other status records
        nothing. */
    method CompletedPhase(p: Phase, status: Status, msg: string)
      requires Valid()
      modifies this`phase, this`events, this`statusPtr
      ensures Valid()
      ensures status == StatusSuccess ==>
        phase == p && events == old(events) + [Event(p, "Successfully reached " + PhaseName(p) + ". " + msg, Some(StatusSuccess), None)]
      ensures status == StatusError ==>
        phase == old(phase) && events == old(events) + [Event(old(phase), "Errored during " + PhaseName(p) + ". " + msg, Some(StatusError), None)]
      ensures status == StatusFailed ==>
        phase == old(phase) && events == old(events) + [Event(old(phase), "Failed during " + PhaseName(p) + ". " + msg, Some(StatusFailed), None)]
      ensures status in {StatusSuccess, StatusError, StatusFailed} ==> statusPtr == |events| - 1
      ensures status !in {StatusSuccess, StatusError, StatusFailed} ==>
        phase == old(phase) && events == old(events) && statusPtr == old(statusPtr)
    {
      if status == StatusSuccess {
        AddEvent("Successfully reached " + PhaseName(p) + ". " + msg, Some(StatusSuccess), Some(p), None);
      } else if status == StatusError {
        AddEvent("Errored during " + PhaseName(p) + ". " + msg, Some(StatusError), None, None);
      } else if status == StatusFailed {
        AddEvent("Failed during " + PhaseName(p) + ". " + msg, Some(StatusFailed), None, None);
      }
    }

    /** set_result: each part is written only when the given value is
        truthy; an empty or missing part leaves the stored one as it is. */
    method SetResult(outputs: Value, resources: Value)
      modifies this`upOutputs, this`upResources
      ensures upOutputs == (if Truthy(outputs) then outputs else old(upOutputs))
      ensures upResources == (if Truthy(resources) then resources else old(upResources))
    {
      if Truthy(outputs) {
        upOutputs := outputs;
      }
      if Truthy(resources) {
        upResources := resources;
      }
    }

    /** set_hook_state: the op's stored data overlaid by `data`, `data`
        winning; every other hook and op keeps its entry. A hook with no
        entry at all is a KeyError. */
    method SetHookState(hook: string, op: string, data: OpData) returns (r: Outcome)
      requires Valid()
      requires op != ""
      modifies this`hooksResult
      ensures Valid()
      ensures r.Fail? <==> hook !in old(hooksResult)
      ensures r.Fail? ==> r.error.OtherError? && hooksResult == old(hooksResult)
      ensures r.Pass? ==> hooksResult == old(hooksResult)[hook := old(hooksResult)[hook][op :=
        (if op in old(hooksResult)[hook] then old(hooksResult)[hook][op] else map[]) + data]]
    {
      if hook !in hooksResult {
        return Fail(OtherError("KeyError: '" + hook + "'"));
      }
      var cur: OpData := map[];
      if op in hooksResult[hook] && hooksResult[hook][op] != map[] {
        cur := hooksResult[hook][op];
      }
      hooksResult := hooksResult[hook := hooksResult[hook][op := cur + data]];
      return Pass;
    }

    /** store_get: get-or-create in the scratch store. */
    method StoreGet(k: string, v: Value) returns (r: Value)
      modifies this`store
      ensures (store, r) == GetOrCreate(old(store), k, v)
      ensures k in store && store[k] == r
    {
      if k in store {
        return store[k];
      }
      store := store[k := v];
      return v;
    }

    /** status: the report built from the event at the status index,
        which then carries a status. A status index of -1 (a restored
        document that never logged a status) reads the newest event, as
        Python's `events[-1]` does; with no event at all that is an
        IndexError. */
    function Report(): (r: Result<StatusReport>)
      reads this
      requires Valid()
      ensures r.Err? <==> statusPtr < 0 && events == []
      ensures r.Err? ==> r.error.OtherError?
      ensures r.Ok? ==> r.value.phase == phase && r.value.name == deploymentName && r.value.resourceGroup == resourceGroup
      ensures statusPtr >= 0 ==>
        && r.Ok? && r.value.status.Some?
        && r.value.status == events[statusPtr].status && r.value.statusMessage == events[statusPtr].msg
      ensures statusPtr < 0 && events != [] ==>
        r.Ok? && r.value.status == events[|events| - 1].status && r.value.statusMessage == events[|events| - 1].msg
    {
      if statusPtr < 0 && events == [] then Err(OtherError("IndexError: list index out of range"))
      else
        var e := if statusPtr >= 0 then events[statusPtr] else events[|events| - 1];
        Ok(StatusReport(deploymentName, phase, resourceGroup, e.status, e.msg))
    }

    /** events: the log, newest first. */
    method Events() returns (r: seq<Event>)
      ensures |r| == |events|
      ensures forall i :: 0 <= i < |r| ==> r[i] == events[|events| - 1 - i]
    {
      r := [];
      var i := |events|;
      while i > 0
        invariant 0 <= i <= |events|
        invariant |r| == |events| - i
        invariant forall j :: 0 <= j < |r| ==> r[j] == events[|events| - 1 - j]
      {
        i := i - 1;
        r := r + [events[i]];
      }
    }
  }

  // ---- the per-hook loops of SetupHooksReference ----

  /** The first loop of _setup_hooks_reference, over the stored hooks. */
  method PruneHooks(stored: HookResults, config: HookSignature) returns (r: HookResults)
    requires NoEmptyOp(stored)
    ensures r == Prune(stored, config)
  {
    r := stored;
    var todo := stored.Keys;
    while todo != {}
      invariant todo <= stored.Keys
      invariant forall h :: h in r <==> h in stored && (h in todo || h in config)
      invariant forall h :: h in r && h in todo ==> r[h] == stored[h]
      invariant forall h :: h in r && h !in todo ==> r[h] == PruneOps(stored[h], config[h])
      decreases todo
    {
      var h :| h in todo;
      if h in config {
        var kept := PruneHookOps(stored[h], config[h]);
        r := r[h := kept];
      } else {
        r := r - {h};
      }
      todo := todo - {h};
    }
    assert r.Keys == Prune(stored, config).Keys;
  }

  /** The second loop of _setup_hooks_reference, over the configured hooks. */
  method FillHooks(pruned: HookResults, config: HookSignature) returns (r: HookResults)
    requires pruned.Keys <= config.Keys
    ensures r == InitMissing(pruned, config)
  {
    r := pruned;
    var todo := config.Keys;
    assert r == FilledExcept(pruned, config, todo);
    while todo != {}
      invariant todo <= config.Keys
      invariant r == FilledExcept(pruned, config, todo)
      decreases todo
    {
      var h :| h in todo;
      r := FillHook(r, pruned, config, h);
      FilledExceptStep(pruned, config, todo, h);
      todo := todo - {h};
    }
    assert r == InitMissing(pruned, config);
  }

  /** The hook results once every configured hook outside `todo` is filled. */
  function FilledExcept(pruned: HookResults, config: HookSignature, todo: set<string>): HookResults {
    map h | h in pruned.Keys + (config.Keys - todo) ::
      if h in config && h !in todo then Filled(pruned, config, h) else pruned[h]
  }

  lemma FilledExceptStep(pruned: HookResults, config: HookSignature, todo: set<string>, h: string)
    requires h in todo && todo <= config.Keys
    ensures FilledExcept(pruned, config, todo)[h := Filled(pruned, config, h)] == FilledExcept(pruned, config, todo - {h})
  {
    var a := FilledExcept(pruned, config, todo)[h := Filled(pruned, config, h)];
    var b := FilledExcept(pruned, config, todo - {h});
    assert a.Keys == b.Keys;
  }

  /** One pass of that loop: the hook gets an entry if it has none, and
      every configured op of it an empty result. */
  method FillHook(cur: HookResults, pruned: HookResults, config: HookSignature, h: string) returns (r: HookResults)
    requires h in config && (h in cur <==> h in pruned) && (h in pruned ==> cur[h] == pruned[h])
    ensures r == cur[h := Filled(pruned, config, h)]
  {
    r := cur;
    if h !in r {
      r := r[h := map[]];
    }
    var filled := InitHookOps(r[h], config[h]);
    r := r[h := filled];
  }

  /** The inner loop of the pruning pass: pops every op of one hook that is
      neither internal nor configured. */
  method PruneHookOps(ops: map<string, OpData>, keep: set<string>) returns (r: map<string, OpData>)
    requires "" !in ops
    ensures r == PruneOps(ops, keep)
  {
    r := ops;
    var todo := ops.Keys;
    while todo != {}
      invariant todo <= ops.Keys
      invariant forall op :: op in r <==> op in ops && (op in todo || Reserved(op) || op in keep)
      invariant forall op :: op in r ==> r[op] == ops[op]
      decreases todo
    {
      var op :| op in todo;
      if op[0] == '_' {
      } else if op !in keep {
        r := r - {op};
      }
      todo := todo - {op};
    }
    assert r.Keys == PruneOps(ops, keep).Keys;
  }

  /** The inner loop of the initialising pass: every configured op of one
      hook that has no entry gets `{}`; existing entries are kept. */
  method InitHookOps(cur: map<string, OpData>, ops: set<string>) returns (r: map<string, OpData>)
    ensures r == cur + map op | op in ops && op !in cur :: map[]
  {
    r := cur;
    var todo := ops;
    while todo != {}
      invariant todo <= ops
      invariant r.Keys == cur.Keys + (ops - todo)
      invariant forall op :: op in cur ==> r[op] == cur[op]
      invariant forall op :: op in r && op !in cur ==> r[op] == map[]
      decreases todo
    {
      var op :| op in todo;
      if op !in r {
        r := r[op := map[]];
      }
      todo := todo - {op};
    }
    ghost var spec := cur + map op | op in ops && op !in cur :: map[];
    assert r.Keys == spec.Keys;
    assert forall op :: op in r ==> r[op] == spec[op];
  }


  // ---- opening a state ----

  /** State(uri): the scheme is checked, then a document found where the
      state lives is restored, or else a fresh state is created. The
      document at an http(s) URL is restored like a file's (see
      OpenedAsWritten for what the code does instead). */
  method OpenState(uri: string, fileDoc: Option<Document>, urlDoc: Option<Document>) returns (r: Result<State>)
    requires fileDoc.Some? ==> DocValid(fileDoc.value)
    requires urlDoc.Some? ==> DocValid(urlDoc.value)
    ensures r.Err? <==> ParseLocation(uri).Err?
    ensures r.Err? ==> r.error.CliError?
    ensures r.Ok? ==> fresh(r.value) && r.value.Valid() && r.value.location == ParseLocation(uri).value
    ensures r.Ok? ==> ParseLocation(uri) == Ok(r.value.location)
    ensures r.Ok? ==> r.value.Doc() == Opened(r.value.location, fileDoc, urlDoc)
  {
    var loc :- ParseLocation(uri);
    var found := if loc.FilePath? then fileDoc else urlDoc;
    if found.Some? {
      var st := new State.Restore(loc, found.value);
      return Ok(st);
    }
    var st := new State.Create(loc);
    return Ok(st);
  }

  /** The document of a state that was just created. */
  function NewDocument(): (d: Document)
    ensures DocValid(d) && |d.events| == 1 && d.phase == Unknown
  {
    Document(None, Unknown, 0, [Event(Unknown, "Created a state file", Some(StatusUnknown), None)],
      map[], map[], None, Dict([]), Dict([]))
  }

  /** The state document State(uri) ends up holding, as written. */
  function OpenedAsWritten(loc: Location, fileDoc: Option<Document>, urlDoc: Option<Document>): Document {
    if loc.FilePath? && fileDoc.Some? then fileDoc.value else NewDocument()
  }

  /** The evident intent: a document found at either kind of location is
      the one restored. */
  function Opened(loc: Location, fileDoc: Option<Document>, urlDoc: Option<Document>): (d: Document)
    ensures loc.Url? && urlDoc.Some? ==> d == urlDoc.value
    ensures loc.FilePath? && fileDoc.Some? ==> d == fileDoc.value
    ensures (loc.Url? && urlDoc.None?) || (loc.FilePath? && fileDoc.None?) ==> d == NewDocument()
  {
    if loc.FilePath? && fileDoc.Some? then fileDoc.value
    else if loc.Url? && urlDoc.Some? then urlDoc.value
    else NewDocument()
  }

  /** As written, an up state kept at a URL comes back as a fresh state:
      its deployment identity and events are gone. */
  lemma UrlStateIsDropped(d: Document)
    requires d.phase == Up && d.resourceGroup.Some?
    ensures OpenedAsWritten(Url("https://host/state.json"), None, Some(d)) != d
    ensures Opened(Url("https://host/state.json"), None, Some(d)) == d
  {
  }
}
