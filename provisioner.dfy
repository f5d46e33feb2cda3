/** The lifecycle coordinator of azext_cdf/provisioner.py: the order of
    state events, resource-group handling and hook triggers around one
    deployment going up or coming down, and the argument lists handed to
    ARM and Terraform. Every Azure, bicep and Terraform call is outside
    the model: its outcome is given as part of a `Cloud`. */
module Provisioner {
  import opened Values
  import StateStore
  import Parser
  import HookEngine
  import LifecycleSpec
  import Lifecycle

  const PreUp := "pre-up"
  const PostUp := "post-up"
  const PreDown := "pre-down"
  const PostDown := "post-down"

  /** The provisioner the configuration selects (bicep by default). */
  datatype Kind = Bicep | Arm | Terraform

  function KindOf(data: Entries): (r: Kind)
    ensures r == Arm <==> Get(data, "provisioner") == Some(Str("arm"))
    ensures r == Terraform <==> Get(data, "provisioner") == Some(Str("terraform"))
  {
    match Get(data, "provisioner")
    case Some(Str(s)) => if s == "arm" then Arm else if s == "terraform" then Terraform else Bicep
    case _ => Bicep
  }

  /** manage_resource_group, true by default. */
  predicate Managed(data: Entries) {
    Get(data, "manage_resource_group") != Some(Bool(false))
  }

  /** The outcomes of the calls made outside the model: the pre-up
      interpolation, whether the resource group exists, its creation, the
      deployment (output resources and outputs), the empty deployment or
      Terraform destroy that tears it down, and the group's deletion. */
  datatype Cloud = Cloud(
    preUp: Outcome, rgExists: Result<bool>, createRg: Outcome,
    deploy: Result<(Value, Value)>, emptyDeploy: Outcome, destroy: Outcome, deleteRg: Outcome)

  // ---- argument builders ----

  /** run_arm_deployment's parameters: each param becomes the one-element
      list ["key=value"], in dictionary order. */
  method ArmParameters(params: Entries) returns (r: seq<seq<string>>)
    ensures |r| == |params|
    ensures forall i :: 0 <= i < |params| ==> r[i] == [params[i].0 + "=" + Show(params[i].1)]
  {
    r := [];
    var i := 0;
    while i < |params|
      invariant 0 <= i <= |params| && |r| == i
      invariant forall j :: 0 <= j < i ==> r[j] == [params[j].0 + "=" + Show(params[j].1)]
    {
      r := r + [[params[i].0 + "=" + Show(params[i].1)]];
      i := i + 1;
    }
  }

  /** The text before and after the first '='. */
  function SplitAtEquals(s: string): (r: (string, string))
    ensures '=' !in s ==> r == (s, "")
  {
    if s == [] then ("", "")
    else if s[0] == '=' then ("", s[1..])
    else
      var rest := SplitAtEquals(s[1..]);
      assert [s[0]] + s[1..] == s;
      ([s[0]] + rest.0, rest.1)
  }

  /** A parameter whose name holds no '=' is recovered from its argument:
      the name is what precedes the first '=' and the rendered value is
      the rest. */
  lemma {:induction false} ArmParameterRoundTrip(key: string, value: string)
    requires '=' !in key
    ensures SplitAtEquals(key + "=" + value) == (key, value)
  {
    if key == [] {
      assert key + "=" + value == ['='] + value;
    } else {
      assert (key + "=" + value)[1..] == key[1..] + "=" + value;
      ArmParameterRoundTrip(key[1..], value);
      assert [key[0]] + key[1..] == key;
    }
  }

  /** The deployment mode: "Complete" iff a complete deployment is asked
      for, "Incremental" otherwise. */
  function DeploymentMode(complete: bool): (r: string)
    ensures r == "Complete" <==> complete
    ensures r == "Incremental" <==> !complete
  {
    if complete then "Complete" else "Incremental"
  }

  /** Python's str() of a bool. */
  function BoolText(b: bool): string {
    if b then "True" else "False"
  }

  /** The variables file Terraform is pointed at. */
  function VarsFile(tmpDir: string): string {
    Parser.PathJoin(tmpDir, "terraformvars.json")
  }

  /** The state file of a deployment, shared by apply and destroy. */
  function StateArg(tmpDir: string, name: string): string {
    "-state=" + tmpDir + "/" + name + ".tfstate"
  }

  /** The argument list of _run_terraform_cmd, built by appending. */
  method TerraformArgs(command: string, noPrompt: bool, tmpDir: string, name: string, params: Value) returns (r: seq<string>)
    ensures |r| == (if Truthy(params) then 7 else 5)
    ensures r[..5] == [command, "-input=" + BoolText(noPrompt), StateArg(tmpDir, name), "-auto-approve", "-no-color"]
    ensures Truthy(params) ==> r[5..] == ["-var-file", VarsFile(tmpDir)]
  {
    r := [command, "-input=" + BoolText(noPrompt), StateArg(tmpDir, name), "-auto-approve", "-no-color"];
    if Truthy(params) {
      r := r + ["-var-file"];
      r := r + [VarsFile(tmpDir)];
    }
  }

  /** Apply and destroy of the same deployment differ only in their first
      argument: destroy reads the state file apply wrote, with the same
      variables file. */
  method ApplyAndDestroyAgree(noPrompt: bool, tmpDir: string, name: string, params: Value)
    returns (apply: seq<string>, destroy: seq<string>)
    ensures |apply| == |destroy| >= 5 && apply[0] == "apply" && destroy[0] == "destroy"
    ensures apply[1..] == destroy[1..]
  {
    apply := TerraformArgs("apply", noPrompt, tmpDir, name, params);
    destroy := TerraformArgs("destroy", noPrompt, tmpDir, name, params);
    assert apply[..5][1..] == destroy[..5][1..];
    if Truthy(params) {
      assert apply == apply[..5] + apply[5..] && destroy == destroy[..5] + destroy[5..];
    } else {
      assert apply == apply[..5] && destroy == destroy[..5];
    }
  }

  // ---- resource group and teardown decisions ----

  /** cdf.name, the deployment's name. */
  function DeploymentName(cdf: Entries): Value {
    match Get(cdf, "name")
    case Some(v) => v
    case None => Null
  }

  function DefaultTags(name: Value): Value {
    Dict([("managed_by", Str("CDF")), ("deployment", name)])
  }

  /** The tags of a created resource group: `vars.resource_group_tags` when
      that is a dictionary, else the default tags naming the deployment. */
  function ResourceGroupTags(vars: Entries, name: Value): (r: Value)
    ensures r.Dict?
    ensures Get(vars, "resource_group_tags").Some? && Get(vars, "resource_group_tags").value.Dict? ==>
      r == Get(vars, "resource_group_tags").value
    ensures !(Get(vars, "resource_group_tags").Some? && Get(vars, "resource_group_tags").value.Dict?) ==>
      r == DefaultTags(name)
  {
    match Get(vars, "resource_group_tags")
    case Some(Dict(es)) => Dict(es)
    case _ => DefaultTags(name)
  }

  /** The default tags say who manages the group and which deployment it
      belongs to. */
  lemma DefaultTagsNameDeployment(vars: Entries, name: Value)
    requires !HasKey(vars, "resource_group_tags")
    ensures Get(ResourceGroupTags(vars, name).entries, "managed_by") == Some(Str("CDF"))
    ensures Get(ResourceGroupTags(vars, name).entries, "deployment") == Some(name)
  {
    assert Get(vars, "resource_group_tags") == None;
  }

  /** The resource-group step lets provisioning go on: the group is not
      managed, or it exists, or it was absent and is created. */
  predicate RgReady(data: Entries, cloud: Cloud) {
    !Managed(data) || cloud.rgExists == Ok(true) || (cloud.rgExists == Ok(false) && cloud.createRg.Pass?)
  }

  /** provision_rg_if_needed: the group is created only when it is managed
      and absent; Ok(Some(tags)) tells it was created with those tags. */
  function RgIfNeeded(data: Entries, vars: Entries, name: Value, cloud: Cloud): (r: Result<Option<Value>>)
    ensures r.Ok? <==> RgReady(data, cloud)
    ensures r.Ok? && r.value.Some? <==>
      Managed(data) && cloud.rgExists == Ok(false) && cloud.createRg.Pass?
    ensures r.Ok? && r.value.Some? ==> r.value.value == ResourceGroupTags(vars, name)
    ensures r == Ok(None) <==> !Managed(data) || cloud.rgExists == Ok(true)
    ensures !Managed(data) ==> r == Ok(None)
  {
    if !Managed(data) then Ok(None)
    else match cloud.rgExists
      case Err(e) => Err(e)
      case Ok(exists_) =>
        if exists_ then Ok(None)
        else if cloud.createRg.Fail? then Err(cloud.createRg.error)
        else Ok(Some(ResourceGroupTags(vars, name)))
  }

  /** The empty deployment that tears down bicep and ARM deployments: an
      error mentioning "ResourceGroupNotFound" means there is nothing to
      tear down and is swallowed; any other error is passed on. */
  function EmptyDeployment(deploy: Outcome): (r: Outcome)
    ensures r.Pass? <==> deploy.Pass? || (deploy.error.CliError? && Contains(deploy.error.msg, "ResourceGroupNotFound"))
    ensures r.Fail? ==> r == deploy
  {
    if deploy.Pass? then Pass
    else if deploy.error.CliError? && Contains(deploy.error.msg, "ResourceGroupNotFound") then Pass
    else deploy
  }

  /** A teardown run again after a swallowed missing group still passes:
      the decision depends on the error only. */
  lemma {:induction false} MissingGroupAnywhereInMessage(prefix: string, suffix: string)
    ensures EmptyDeployment(Fail(CliError(prefix + "ResourceGroupNotFound" + suffix))).Pass?
  {
    ContainsInside(prefix, "ResourceGroupNotFound", suffix);
  }

  lemma {:induction false} ContainsInside(a: string, b: string, c: string)
    ensures Contains(a + b + c, b)
    decreases |a|
  {
    if a == [] {
      assert (a + b + c)[..|b|] == b;
    } else {
      assert (a + b + c)[1..] == a[1..] + b + c;
      ContainsInside(a[1..], b, c);
    }
  }

  // ---- the up and down flows ----

  /** Where a flow stopped. */
  datatype Stop = AtInterpolation | AtResourceGroup | AtPreHooks | AtProvisioner | AtPostHooks | Completed

  function UpError(e: Error): string {
    if e.CliError? then "Errored during up phase: " + e.msg else "General error during up phase: " + e.msg
  }

  function DownError(e: Error): string {
    if e.CliError? then "Errored during down phase: " + e.msg else "General error during down phase: " + e.msg
  }

  function TransitionEvent(p: StateStore.Phase): StateStore.Event {
    StateStore.Event(p, "Transitioning to " + StateStore.PhaseName(p), Some(StateStore.StatusPending), None)
  }

  function SuccessEvent(p: StateStore.Phase): StateStore.Event {
    StateStore.Event(p, "Successfully reached " + StateStore.PhaseName(p) + ". ", Some(StateStore.StatusSuccess), None)
  }

  /** What set_result leaves for one part of the up result. */
  function Kept(given: Value, stored: Value): Value {
    if Truthy(given) then given else stored
  }

  /** _provision: the deployment's outputs and resources, each written
      only when non-empty. */
  method Deploy(p: Parser.ConfigParser, cloud: Cloud) returns (r: Outcome)
    modifies p.state`upOutputs, p.state`upResources
    ensures cloud.deploy.Err? ==>
      (r == Fail(cloud.deploy.error)
       && p.state.upOutputs == old(p.state.upOutputs) && p.state.upResources == old(p.state.upResources))
    ensures cloud.deploy.Ok? ==>
      (r.Pass?
       && p.state.upOutputs == Kept(cloud.deploy.value.1, old(p.state.upOutputs))
       && p.state.upResources == Kept(cloud.deploy.value.0, old(p.state.upResources)))
  {
    if cloud.deploy.Err? {
      return Fail(cloud.deploy.error);
    }
    var (resources, outputs) := cloud.deploy.value;
    p.state.SetResult(outputs, resources);
    return Pass;
  }

  /** _de_provision: an empty deployment for bicep and ARM, a destroy for
      Terraform, then set_result({}, {}) which, both parts being empty,
      leaves the stored up result as it was. */
  method Teardown(p: Parser.ConfigParser, cloud: Cloud) returns (r: Outcome)
    modifies p.state`upOutputs, p.state`upResources
    ensures r == (if KindOf(p.data) == Terraform then cloud.destroy else EmptyDeployment(cloud.emptyDeploy))
    ensures p.state.upOutputs == old(p.state.upOutputs) && p.state.upResources == old(p.state.upResources)
  {
    if KindOf(p.data) == Terraform {
      r := cloud.destroy;
    } else {
      r := EmptyDeployment(cloud.emptyDeploy);
    }
    if r.Fail? {
      return;
    }
    p.state.SetResult(Dict([]), Dict([]));
  }

  /** The event an error of the deployment or the teardown leaves. */
  function ErrorEvent(phase: StateStore.Phase, msg: string): StateStore.Event {
    StateStore.Event(phase, msg, Some(StateStore.StatusError), None)
  }

  /** The log `events` followed by the transition into `phase` and the
      runs of the hooks that follow it. */
  function Began(events: seq<StateStore.Event>, phase: StateStore.Phase, pre: seq<LifecycleSpec.HookRun>): seq<StateStore.Event> {
    events + [TransitionEvent(phase)] + LifecycleSpec.RunLog(phase, pre)
  }

  /** The log `events` followed by the success event of `phase` and the
      runs of the hooks that follow it. */
  function Reached(events: seq<StateStore.Event>, phase: StateStore.Phase, post: seq<LifecycleSpec.HookRun>): seq<StateStore.Event> {
    events + [SuccessEvent(phase)] + LifecycleSpec.RunLog(phase, post)
  }

  /** The first half of provision: going up, the pre-up interpolation, the
      resource group, the pre-up hooks. None of it moves the status past
      the transition event. `pre` are the pre-up hook runs. */
  method BeginUp(p: Parser.ConfigParser, cloud: Cloud, runner: HookEngine.Runner)
    returns (r: Outcome, ghost stop: Stop, ghost pre: seq<LifecycleSpec.HookRun>)
    requires p.Valid()
    modifies p`vars, p`hooksOut, p.state`hooksResult, p.state`phase, p.state`events, p.state`statusPtr
    ensures p.Valid()
    ensures r.Fail? ==> stop in {AtInterpolation, AtResourceGroup, AtPreHooks}
    ensures r.Pass? ==> stop == AtProvisioner
    ensures p.state.phase == StateStore.GoingUp && p.state.statusPtr == |old(p.state.events)|
    ensures p.state.events == Began(old(p.state.events), StateStore.GoingUp, pre)
    ensures stop in {AtInterpolation, AtResourceGroup} ==> pre == []
    ensures stop in {AtPreHooks, AtProvisioner} ==> LifecycleSpec.LifecycleRuns(p.hooks, PreUp, r, pre)
    ensures stop in {AtPreHooks, AtProvisioner} ==> LifecycleSpec.HooksRan(HookEngine.SettingOf(p), runner, PreUp, old(HookEngine.SnapOf(p)), pre, r, HookEngine.SnapOf(p))
    ensures stop == AtProvisioner ==> HookEngine.SnapOf(p) == LifecycleSpec.SnapAfter(old(HookEngine.SnapOf(p)), pre)
    ensures stop in {AtInterpolation, AtResourceGroup} ==> HookEngine.SnapOf(p) == old(HookEngine.SnapOf(p))
    ensures stop == AtInterpolation ==> r == cloud.preUp
    ensures stop == AtInterpolation <==> cloud.preUp.Fail?
    ensures stop == AtResourceGroup ==>
      RgIfNeeded(old(p.data), old(p.vars), DeploymentName(p.cdf), cloud).Err? &&
      r == Fail(RgIfNeeded(old(p.data), old(p.vars), DeploymentName(p.cdf), cloud).error)
    ensures stop != AtInterpolation && stop != AtResourceGroup ==> RgReady(old(p.data), cloud)
  {
    p.state.TransitionToPhase(StateStore.GoingUp);
    pre := [];
    if cloud.preUp.Fail? {
      return cloud.preUp, AtInterpolation, pre;
    }
    var rg := RgIfNeeded(p.data, p.vars, DeploymentName(p.cdf), cloud);
    if rg.Err? {
      return Fail(rg.error), AtResourceGroup, pre;
    }
    r, pre := Lifecycle.RunHookLifecycle(p, PreUp, runner);
    stop := if r.Fail? then AtPreHooks else AtProvisioner;
  }

  /** provision: going up, pre-up interpolation, resource group, pre-up
      hooks, the deployment (whose failure is logged as an error event
      and passed on), the up phase, post-up hooks. The log is the
      transition, the pre-up hook runs, then either the error or the
      success event followed by the post-up hook runs: no post-up hook
      runs unless every pre-up hook and the deployment passed. */
  method Provision(p: Parser.ConfigParser, cloud: Cloud, runner: HookEngine.Runner)
    returns (r: Outcome, ghost stop: Stop, ghost pre: seq<LifecycleSpec.HookRun>, ghost post: seq<LifecycleSpec.HookRun>)
    requires p.Valid()
    modifies p`vars, p`hooksOut, p.state`hooksResult, p.state`phase, p.state`events, p.state`statusPtr
    modifies p.state`upOutputs, p.state`upResources
    ensures p.Valid()
    ensures r.Pass? <==> stop == Completed
    ensures stop in {AtInterpolation, AtResourceGroup} ==> pre == []
    ensures stop == AtPreHooks ==> LifecycleSpec.LifecycleRuns(p.hooks, PreUp, r, pre)
    ensures stop in {AtProvisioner, AtPostHooks, Completed} ==> LifecycleSpec.LifecycleRuns(p.hooks, PreUp, Pass, pre)
    ensures stop == AtPreHooks ==> LifecycleSpec.HooksRan(HookEngine.SettingOf(p), runner, PreUp, old(HookEngine.SnapOf(p)), pre, r, HookEngine.SnapOf(p))
    ensures stop in {AtProvisioner, AtPostHooks, Completed} ==>
      LifecycleSpec.HooksRan(HookEngine.SettingOf(p), runner, PreUp, old(HookEngine.SnapOf(p)), pre, Pass, LifecycleSpec.SnapAfter(old(HookEngine.SnapOf(p)), pre))
    ensures stop in {AtInterpolation, AtResourceGroup} ==> HookEngine.SnapOf(p) == old(HookEngine.SnapOf(p))
    ensures stop == AtProvisioner ==> HookEngine.SnapOf(p) == LifecycleSpec.SnapAfter(old(HookEngine.SnapOf(p)), pre)
    ensures stop in {AtPostHooks, Completed} ==>
      LifecycleSpec.HooksRan(HookEngine.SettingOf(p), runner, PostUp, LifecycleSpec.SnapAfter(old(HookEngine.SnapOf(p)), pre), post, r, HookEngine.SnapOf(p))
    ensures stop in {AtInterpolation, AtResourceGroup, AtPreHooks, AtProvisioner} ==> post == []
    ensures stop in {AtInterpolation, AtResourceGroup, AtPreHooks} ==>
      && p.state.events == Began(old(p.state.events), StateStore.GoingUp, pre)
      && p.state.phase == StateStore.GoingUp && p.state.statusPtr == |old(p.state.events)|
      && p.state.upOutputs == old(p.state.upOutputs) && p.state.upResources == old(p.state.upResources)
    ensures stop == AtProvisioner ==>
      && cloud.deploy.Err? && r == Fail(cloud.deploy.error)
      && p.state.events == Began(old(p.state.events), StateStore.GoingUp, pre) + [ErrorEvent(StateStore.GoingUp, UpError(cloud.deploy.error))]
      && p.state.phase == StateStore.GoingUp && p.state.statusPtr == |Began(old(p.state.events), StateStore.GoingUp, pre)|
      && p.state.upOutputs == old(p.state.upOutputs) && p.state.upResources == old(p.state.upResources)
    ensures stop in {AtPostHooks, Completed} ==>
      && cloud.deploy.Ok?
      && p.state.events == Reached(Began(old(p.state.events), StateStore.GoingUp, pre), StateStore.Up, post)
      && LifecycleSpec.LifecycleRuns(p.hooks, PostUp, r, post)
      && p.state.phase == StateStore.Up
      && p.state.statusPtr == |Began(old(p.state.events), StateStore.GoingUp, pre)|
      && p.state.upOutputs == Kept(cloud.deploy.value.1, old(p.state.upOutputs))
      && p.state.upResources == Kept(cloud.deploy.value.0, old(p.state.upResources))
    ensures stop == AtInterpolation ==> r == cloud.preUp
    ensures stop == AtInterpolation <==> cloud.preUp.Fail?
    ensures stop == AtResourceGroup ==>
      RgIfNeeded(old(p.data), old(p.vars), DeploymentName(p.cdf), cloud).Err? &&
      r == Fail(RgIfNeeded(old(p.data), old(p.vars), DeploymentName(p.cdf), cloud).error)
    ensures stop != AtInterpolation && stop != AtResourceGroup ==> RgReady(old(p.data), cloud)
  {
    r, stop, pre := BeginUp(p, cloud, runner);
    post := [];
    if r.Fail? {
      return;
    }
    r, stop, post := FinishUp(p, cloud, runner);
  }

  /** The close of both flows: the phase is reached and logged as a
      success, then the hooks of the matching post event run; `post` are
      their runs. */
  method Complete(p: Parser.ConfigParser, reached: StateStore.Phase, event: string, runner: HookEngine.Runner)
    returns (r: Outcome, ghost post: seq<LifecycleSpec.HookRun>)
    requires p.Valid()
    modifies p`vars, p`hooksOut, p.state`hooksResult, p.state`phase, p.state`events, p.state`statusPtr
    ensures p.Valid() && p.state.phase == reached
    ensures p.state.events == Reached(old(p.state.events), reached, post)
    ensures p.state.statusPtr == |old(p.state.events)|
    ensures LifecycleSpec.LifecycleRuns(p.hooks, event, r, post)
    ensures LifecycleSpec.HooksRan(HookEngine.SettingOf(p), runner, event, old(HookEngine.SnapOf(p)), post, r, HookEngine.SnapOf(p))
  {
    p.state.CompletedPhase(reached, StateStore.StatusSuccess, "");
    assert "Successfully reached " + StateStore.PhaseName(reached) + ". " + "" == SuccessEvent(reached).msg;
    r, post := Lifecycle.RunHookLifecycle(p, event, runner);
  }

  /** The second half of provision, once going_up is logged: the
      deployment (whose failure is logged as an error event and passed
      on), the up phase, post-up hooks. */
  method FinishUp(p: Parser.ConfigParser, cloud: Cloud, runner: HookEngine.Runner)
    returns (r: Outcome, ghost stop: Stop, ghost post: seq<LifecycleSpec.HookRun>)
    requires p.Valid() && p.state.phase == StateStore.GoingUp
    modifies p`vars, p`hooksOut, p.state`hooksResult, p.state`phase, p.state`events, p.state`statusPtr
    modifies p.state`upOutputs, p.state`upResources
    ensures p.Valid()
    ensures r.Pass? <==> stop == Completed
    ensures stop in {AtProvisioner, AtPostHooks, Completed}
    ensures stop == AtProvisioner ==>
      && cloud.deploy.Err? && r == Fail(cloud.deploy.error) && post == []
      && p.state.events == old(p.state.events) + [ErrorEvent(StateStore.GoingUp, UpError(cloud.deploy.error))]
      && p.state.phase == StateStore.GoingUp && p.state.statusPtr == |old(p.state.events)|
      && HookEngine.SnapOf(p) == old(HookEngine.SnapOf(p))
      && p.state.upOutputs == old(p.state.upOutputs) && p.state.upResources == old(p.state.upResources)
    ensures stop in {AtPostHooks, Completed} ==>
      && cloud.deploy.Ok?
      && p.state.events == Reached(old(p.state.events), StateStore.Up, post)
      && LifecycleSpec.LifecycleRuns(p.hooks, PostUp, r, post)
      && LifecycleSpec.HooksRan(HookEngine.SettingOf(p), runner, PostUp, old(HookEngine.SnapOf(p)), post, r, HookEngine.SnapOf(p))
      && p.state.phase == StateStore.Up && p.state.statusPtr == |old(p.state.events)|
      && p.state.upOutputs == Kept(cloud.deploy.value.1, old(p.state.upOutputs))
      && p.state.upResources == Kept(cloud.deploy.value.0, old(p.state.upResources))
  {
    post := [];
    r := Deploy(p, cloud);
    if r.Fail? {
      p.state.AddEvent(UpError(r.error), Some(StateStore.StatusError), None, None);
      return r, AtProvisioner, post;
    }
    r, post := Complete(p, StateStore.Up, PostUp, runner);
    stop := if r.Fail? then AtPostHooks else Completed;
  }

  /** Whether the managed resource group is deleted after a teardown:
      Ok(true) when it was, Ok(false) when it is not managed or absent. */
  function RgRemoval(data: Entries, cloud: Cloud): (r: Result<bool>)
    ensures r == Ok(true) <==> Managed(data) && cloud.rgExists == Ok(true) && cloud.deleteRg.Pass?
    ensures r == Ok(false) <==> !Managed(data) || cloud.rgExists == Ok(false)
    ensures r.Err? ==> Managed(data)
  {
    if !Managed(data) then Ok(false)
    else match cloud.rgExists
      case Err(e) => Err(e)
      case Ok(exists_) =>
        if !exists_ then Ok(false)
        else if cloud.deleteRg.Fail? then Err(cloud.deleteRg.error)
        else Ok(true)
  }

  /** The first half of de_provision: going down, the pre-up
      interpolation, the pre-down hooks; `pre` are their runs. */
  method BeginDown(p: Parser.ConfigParser, cloud: Cloud, runner: HookEngine.Runner)
    returns (r: Outcome, ghost stop: Stop, ghost pre: seq<LifecycleSpec.HookRun>)
    requires p.Valid()
    modifies p`vars, p`hooksOut, p.state`hooksResult, p.state`phase, p.state`events, p.state`statusPtr
    ensures p.Valid()
    ensures r.Fail? ==> stop in {AtInterpolation, AtPreHooks}
    ensures r.Pass? ==> stop == AtProvisioner
    ensures p.state.phase == StateStore.GoingDown && p.state.statusPtr == |old(p.state.events)|
    ensures p.state.events == Began(old(p.state.events), StateStore.GoingDown, pre)
    ensures stop == AtInterpolation ==> r == cloud.preUp && pre == []
    ensures stop == AtInterpolation <==> cloud.preUp.Fail?
    ensures stop in {AtPreHooks, AtProvisioner} ==> LifecycleSpec.LifecycleRuns(p.hooks, PreDown, r, pre)
    ensures stop in {AtPreHooks, AtProvisioner} ==> LifecycleSpec.HooksRan(HookEngine.SettingOf(p), runner, PreDown, old(HookEngine.SnapOf(p)), pre, r, HookEngine.SnapOf(p))
    ensures stop == AtProvisioner ==> HookEngine.SnapOf(p) == LifecycleSpec.SnapAfter(old(HookEngine.SnapOf(p)), pre)
    ensures stop == AtInterpolation ==> HookEngine.SnapOf(p) == old(HookEngine.SnapOf(p))
  {
    p.state.TransitionToPhase(StateStore.GoingDown);
    pre := [];
    if cloud.preUp.Fail? {
      return cloud.preUp, AtInterpolation, pre;
    }
    r, pre := Lifecycle.RunHookLifecycle(p, PreDown, runner);
    stop := if r.Fail? then AtPreHooks else AtProvisioner;
  }

  /** de_provision: going down, pre-down hooks, the teardown (whose
      failure is logged as an error event and passed on), the managed
      resource group's removal, the down phase, post-down hooks. The log
      is the transition, the pre-down hook runs, then the error event, or
      nothing when the group's removal fails, or the success event
      followed by the post-down hook runs. The stored up result is never
      cleared. */
  method DeProvision(p: Parser.ConfigParser, cloud: Cloud, runner: HookEngine.Runner)
    returns (r: Outcome, ghost stop: Stop, ghost pre: seq<LifecycleSpec.HookRun>, ghost post: seq<LifecycleSpec.HookRun>)
    requires p.Valid()
    modifies p`vars, p`hooksOut, p.state`hooksResult, p.state`phase, p.state`events, p.state`statusPtr
    modifies p.state`upOutputs, p.state`upResources
    ensures p.Valid()
    ensures r.Pass? <==> stop == Completed
    ensures p.state.upOutputs == old(p.state.upOutputs) && p.state.upResources == old(p.state.upResources)
    ensures stop == AtInterpolation ==> r == cloud.preUp && pre == []
    ensures stop == AtInterpolation <==> cloud.preUp.Fail?
    ensures stop == AtPreHooks ==> LifecycleSpec.LifecycleRuns(p.hooks, PreDown, r, pre)
    ensures stop in {AtProvisioner, AtResourceGroup, AtPostHooks, Completed} ==> LifecycleSpec.LifecycleRuns(p.hooks, PreDown, Pass, pre)
    ensures stop == AtPreHooks ==> LifecycleSpec.HooksRan(HookEngine.SettingOf(p), runner, PreDown, old(HookEngine.SnapOf(p)), pre, r, HookEngine.SnapOf(p))
    ensures stop in {AtProvisioner, AtResourceGroup, AtPostHooks, Completed} ==>
      LifecycleSpec.HooksRan(HookEngine.SettingOf(p), runner, PreDown, old(HookEngine.SnapOf(p)), pre, Pass, LifecycleSpec.SnapAfter(old(HookEngine.SnapOf(p)), pre))
    ensures stop == AtInterpolation ==> HookEngine.SnapOf(p) == old(HookEngine.SnapOf(p))
    ensures stop in {AtProvisioner, AtResourceGroup} ==> HookEngine.SnapOf(p) == LifecycleSpec.SnapAfter(old(HookEngine.SnapOf(p)), pre)
    ensures stop in {AtPostHooks, Completed} ==>
      LifecycleSpec.HooksRan(HookEngine.SettingOf(p), runner, PostDown, LifecycleSpec.SnapAfter(old(HookEngine.SnapOf(p)), pre), post, r, HookEngine.SnapOf(p))
    ensures stop in {AtResourceGroup, AtPostHooks, Completed} ==>
      (if KindOf(old(p.data)) == Terraform then cloud.destroy else EmptyDeployment(cloud.emptyDeploy)).Pass?
    ensures stop in {AtInterpolation, AtPreHooks, AtProvisioner, AtResourceGroup} ==> post == []
    ensures stop in {AtInterpolation, AtPreHooks, AtResourceGroup} ==>
      && p.state.events == Began(old(p.state.events), StateStore.GoingDown, pre)
      && p.state.phase == StateStore.GoingDown && p.state.statusPtr == |old(p.state.events)|
    ensures stop == AtResourceGroup ==> RgRemoval(old(p.data), cloud).Err? && r == Fail(RgRemoval(old(p.data), cloud).error)
    ensures stop == AtProvisioner ==>
      && var e := (if KindOf(old(p.data)) == Terraform then cloud.destroy else EmptyDeployment(cloud.emptyDeploy));
      && e.Fail? && r == e
      && p.state.events == Began(old(p.state.events), StateStore.GoingDown, pre) + [ErrorEvent(StateStore.GoingDown, DownError(e.error))]
      && p.state.phase == StateStore.GoingDown && p.state.statusPtr == |Began(old(p.state.events), StateStore.GoingDown, pre)|
    ensures stop in {AtPostHooks, Completed} ==>
      && RgRemoval(old(p.data), cloud).Ok?
      && p.state.events == Reached(Began(old(p.state.events), StateStore.GoingDown, pre), StateStore.Down, post)
      && LifecycleSpec.LifecycleRuns(p.hooks, PostDown, r, post)
      && p.state.phase == StateStore.Down
      && p.state.statusPtr == |Began(old(p.state.events), StateStore.GoingDown, pre)|
  {
    r, stop, pre := BeginDown(p, cloud, runner);
    post := [];
    if r.Fail? {
      return;
    }
    r, stop, post := FinishDown(p, cloud, runner);
  }

  /** The second half of de_provision, once going_down is logged. */
  method FinishDown(p: Parser.ConfigParser, cloud: Cloud, runner: HookEngine.Runner)
    returns (r: Outcome, ghost stop: Stop, ghost post: seq<LifecycleSpec.HookRun>)
    requires p.Valid() && p.state.phase == StateStore.GoingDown
    modifies p`vars, p`hooksOut, p.state`hooksResult, p.state`phase, p.state`events, p.state`statusPtr
    modifies p.state`upOutputs, p.state`upResources
    ensures p.Valid()
    ensures r.Pass? <==> stop == Completed
    ensures stop in {AtProvisioner, AtResourceGroup, AtPostHooks, Completed}
    ensures stop != AtProvisioner ==>
      (if KindOf(old(p.data)) == Terraform then cloud.destroy else EmptyDeployment(cloud.emptyDeploy)).Pass?
    ensures p.state.upOutputs == old(p.state.upOutputs) && p.state.upResources == old(p.state.upResources)
    ensures stop in {AtProvisioner, AtResourceGroup} ==> post == []
    ensures stop == AtResourceGroup ==>
      && RgRemoval(old(p.data), cloud).Err? && r == Fail(RgRemoval(old(p.data), cloud).error)
      && p.state.events == old(p.state.events)
      && p.state.phase == old(p.state.phase) && p.state.statusPtr == old(p.state.statusPtr)
      && HookEngine.SnapOf(p) == old(HookEngine.SnapOf(p))
    ensures stop == AtProvisioner ==>
      && var e := (if KindOf(old(p.data)) == Terraform then cloud.destroy else EmptyDeployment(cloud.emptyDeploy));
      && e.Fail? && r == e
      && p.state.events == old(p.state.events) + [ErrorEvent(StateStore.GoingDown, DownError(e.error))]
      && p.state.phase == StateStore.GoingDown && p.state.statusPtr == |old(p.state.events)|
      && HookEngine.SnapOf(p) == old(HookEngine.SnapOf(p))
    ensures stop in {AtPostHooks, Completed} ==>
      && RgRemoval(old(p.data), cloud).Ok?
      && p.state.events == Reached(old(p.state.events), StateStore.Down, post)
      && LifecycleSpec.LifecycleRuns(p.hooks, PostDown, r, post)
      && LifecycleSpec.HooksRan(HookEngine.SettingOf(p), runner, PostDown, old(HookEngine.SnapOf(p)), post, r, HookEngine.SnapOf(p))
      && p.state.phase == StateStore.Down && p.state.statusPtr == |old(p.state.events)|
  {
    post := [];
    r := Teardown(p, cloud);
    if r.Fail? {
      p.state.AddEvent(DownError(r.error), Some(StateStore.StatusError), None, None);
      return r, AtProvisioner, post;
    }
    var removal := RgRemoval(p.data, cloud);
    if removal.Err? {
      return Fail(removal.error), AtResourceGroup, post;
    }
    r, post := Complete(p, StateStore.Down, PostDown, runner);
    stop := if r.Fail? then AtPostHooks else Completed;
  }
}
