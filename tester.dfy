/** The test runner of azext_cdf/tester.py: each named test is loaded into
    its own configuration and state, brought up, checked and brought down
    again; a failing phase ends that test, optionally after one clean-up
    attempt, and optionally aborts the whole run. */
module Tester {
  import opened Values
  import StateStore
  import Parser
  import HookEngine
  import LifecycleSpec
  import Provisioner

  /** The three phases of one test, in the order they run. */
  datatype TestPhase = Provisioning | Testing | DeProvisioning

  function PhaseLabel(phase: TestPhase): string {
    match phase
    case Provisioning => "provisioning"
    case Testing => "testing"
    case DeProvisioning => "de-provisioning"
  }

  /** The result of one phase: whether it failed and why. */
  datatype PhaseReport = PhaseReport(failed: bool, msg: string)

  /** The results entry of one test: its name merged with the result of
      the last phase that ran. */
  datatype Report = Report(name: string, failed: bool, msg: string)

  /** A test's configuration as init_config hands it to ConfigParser: the
      validated document and its hooks, the environment, the extension
      version, the configuration's directory, the platform, the state
      location given on the command line (or ""), the state documents
      found at a file and at a URL, and the outcomes of its cloud calls. */
  datatype Loaded = Loaded(
    data: Entries, hooks: Parser.Hooks, env: Value, version: string, configDir: string, platform: string,
    cliState: string, fileDoc: Option<StateStore.Document>, urlDoc: Option<StateStore.Document>,
    cloud: Provisioner.Cloud)

  predicate Loadable(cfg: Loaded) {
    && Parser.SchemaValid(cfg.hooks) && Parser.ConfigShape(cfg.data)
    && (cfg.fileDoc.Some? ==> StateStore.DocValid(cfg.fileDoc.value))
    && (cfg.urlDoc.Some? ==> StateStore.DocValid(cfg.urlDoc.value))
  }

  /** init_config as intended: the configuration with, when a state file
      is given, the state location overridden by file://<state file>. */
  function InitConfig(base: Loaded, stateFile: string): (r: Loaded)
    ensures stateFile == "" ==> r == base
    ensures stateFile != "" ==> r.cliState == "file://" + stateFile && r == base.(cliState := r.cliState)
    ensures Loadable(base) ==> Loadable(r)
  {
    if stateFile == "" then base else base.(cliState := "file://" + stateFile)
  }

  const InitConfigTypeError := "TypeError" + ": init_config() got an unexpected keyword argument 'test'"

  /** init_config as run_test calls it: the call passes `test=`, a
      keyword init_config does not take, so it raises a TypeError for
      every test name. */
  function InitConfigAsWritten(testName: string): (r: Result<Loaded>)
    ensures r.Err? && r.error.OtherError? && StartsWith(r.error.msg, "TypeError")
  {
    assert ("TypeError" + ": init_config() got an unexpected keyword argument 'test'")[..|"TypeError"|] == "TypeError";
    Err(OtherError(InitConfigTypeError))
  }

  /** The expectations of a test: not implemented by the extension, it
      returns a fixed set and never fails. */
  function RunExpect(testName: string): (r: set<string>)
    ensures |r| == 1 && "failed" in r
  {
    {"failed"}
  }

  function FailMessage(phase: TestPhase, msg: string): string {
    "Failed during testing " + PhaseLabel(phase) + ". " + msg
  }

  function ExitMessage(testName: string, msg: string): string {
    "test '" + testName + "' failed with msg '" + msg
  }

  /** Whether a failed phase is followed by a clean-up de-provisioning. */
  predicate CleansUp(phase: TestPhase, alwaysCleanUp: bool, out: Outcome) {
    out.Fail? && out.error.CliError? && alwaysCleanUp && phase != DeProvisioning
  }

  /** What _run_fn_abort_if_needed makes of a phase's outcome `out` and,
      when one was attempted, of the clean-up's outcome `cleanUp`: a
      CLIError becomes a failed report (or, when exiting on the first
      error, a CLIError naming the test); any other exception, of the
      phase or of the clean-up, is passed on; a clean-up's CLIError is
      only logged. */
  function AbortIfNeeded(phase: TestPhase, testName: string, out: Outcome, exitOnFirst: bool,
                         alwaysCleanUp: bool, cleanUp: Outcome): (r: Result<PhaseReport>)
    ensures r == Ok(PhaseReport(false, "")) <==> out.Pass?
    ensures r.Ok? && r.value.failed ==>
      && out.Fail? && out.error.CliError? && !exitOnFirst
      && StartsWith(r.value.msg, "Failed during testing " + PhaseLabel(phase) + ". ")
    ensures out.Fail? && !out.error.CliError? ==> r == Err(out.error)
    ensures out.Fail? && out.error.CliError? && exitOnFirst ==>
      r.Err? && (r.error.CliError? ==> r.error.msg == ExitMessage(testName, FailMessage(phase, out.error.msg)))
    ensures r.Err? && r != Err(out.error) ==> out.Fail? && (exitOnFirst || CleansUp(phase, alwaysCleanUp, out))
    ensures r.Err? && !exitOnFirst ==> !r.error.CliError?
  {
    match out
    case Pass => Ok(PhaseReport(false, ""))
    case Fail(e) =>
      if !e.CliError? then Err(e)
      else
        var msg := FailMessage(phase, e.msg);
        assert msg[..|"Failed during testing " + PhaseLabel(phase) + ". "|] == "Failed during testing " + PhaseLabel(phase) + ". ";
        if CleansUp(phase, alwaysCleanUp, out) && cleanUp.Fail? && !cleanUp.error.CliError? then Err(cleanUp.error)
        else if exitOnFirst then Err(CliError(ExitMessage(testName, msg)))
        else Ok(PhaseReport(true, msg))
  }

  /** What provision gives, stated on its inputs: `stop` says where it
      stopped, and only a run that completed passes; each earlier stop
      passes on the failure met there. The hook runs of the setting `s`
      go from the hooks' state `start` to `end`: none before the resource
      group is ready, the pre-up runs from `start`, and the post-up runs
      from where those left off. */
  ghost predicate UpRan(s: HookEngine.Setting, runner: HookEngine.Runner, start: HookEngine.Snap, end: HookEngine.Snap,
                        data: Entries, cdf: Entries, cloud: Provisioner.Cloud,
                        r: Outcome, stop: Provisioner.Stop, pre: seq<LifecycleSpec.HookRun>, post: seq<LifecycleSpec.HookRun>)
    requires HookEngine.Sound(s)
  {
    var rg := Provisioner.RgIfNeeded(data, start.vars, Provisioner.DeploymentName(cdf), cloud);
    var afterPre := LifecycleSpec.SnapAfter(start, pre);
    && (r.Pass? <==> stop == Provisioner.Completed)
    && (stop == Provisioner.AtInterpolation <==> cloud.preUp.Fail?)
    && (stop == Provisioner.AtInterpolation ==> r == cloud.preUp)
    && (stop == Provisioner.AtResourceGroup ==> rg.Err? && r == Fail(rg.error))
    && (stop == Provisioner.AtInterpolation || stop == Provisioner.AtResourceGroup ==> end == start)
    && (stop != Provisioner.AtInterpolation && stop != Provisioner.AtResourceGroup ==> rg.Ok?)
    && (stop == Provisioner.AtPreHooks ==> LifecycleSpec.HooksRan(s, runner, Provisioner.PreUp, start, pre, r, end))
    && (stop == Provisioner.AtProvisioner ==> cloud.deploy.Err? && r == Fail(cloud.deploy.error) && end == afterPre)
    && (stop == Provisioner.AtProvisioner || stop == Provisioner.AtPostHooks || stop == Provisioner.Completed ==>
          LifecycleSpec.HooksRan(s, runner, Provisioner.PreUp, start, pre, Pass, afterPre))
    && (stop == Provisioner.AtPostHooks || stop == Provisioner.Completed ==>
          && cloud.deploy.Ok?
          && LifecycleSpec.HooksRan(s, runner, Provisioner.PostUp, afterPre, post, r, end))
  }

  /** What de_provision gives, stated on its inputs, likewise. */
  ghost predicate DownRan(s: HookEngine.Setting, runner: HookEngine.Runner, start: HookEngine.Snap, end: HookEngine.Snap,
                          data: Entries, cloud: Provisioner.Cloud,
                          r: Outcome, stop: Provisioner.Stop, pre: seq<LifecycleSpec.HookRun>, post: seq<LifecycleSpec.HookRun>)
    requires HookEngine.Sound(s)
  {
    var rm := Provisioner.RgRemoval(data, cloud);
    var td := if Provisioner.KindOf(data) == Provisioner.Terraform then cloud.destroy else Provisioner.EmptyDeployment(cloud.emptyDeploy);
    var afterPre := LifecycleSpec.SnapAfter(start, pre);
    && (r.Pass? <==> stop == Provisioner.Completed)
    && (stop == Provisioner.AtInterpolation <==> cloud.preUp.Fail?)
    && (stop == Provisioner.AtInterpolation ==> r == cloud.preUp && end == start)
    && (stop == Provisioner.AtPreHooks ==> LifecycleSpec.HooksRan(s, runner, Provisioner.PreDown, start, pre, r, end))
    && (stop == Provisioner.AtProvisioner ==> r.Fail? && r == td)
    && (stop == Provisioner.AtProvisioner || stop == Provisioner.AtResourceGroup ==> end == afterPre)
    && (stop == Provisioner.AtResourceGroup || stop == Provisioner.AtPostHooks || stop == Provisioner.Completed ==> td.Pass?)
    && (stop == Provisioner.AtResourceGroup ==> rm.Err? && r == Fail(rm.error))
    && (stop == Provisioner.AtProvisioner || stop == Provisioner.AtResourceGroup || stop == Provisioner.AtPostHooks
        || stop == Provisioner.Completed ==>
          LifecycleSpec.HooksRan(s, runner, Provisioner.PreDown, start, pre, Pass, afterPre))
    && (stop == Provisioner.AtPostHooks || stop == Provisioner.Completed ==>
          && rm.Ok?
          && LifecycleSpec.HooksRan(s, runner, Provisioner.PostDown, afterPre, post, r, end))
  }

  /** What one phase of a test gives: provision's or de_provision's
      outcome, and for testing a pass that runs no hook. */
  ghost predicate PhaseRan(phase: TestPhase, s: HookEngine.Setting, runner: HookEngine.Runner,
                           start: HookEngine.Snap, end: HookEngine.Snap, data: Entries, cdf: Entries,
                           cloud: Provisioner.Cloud, r: Outcome, stop: Provisioner.Stop,
                           pre: seq<LifecycleSpec.HookRun>, post: seq<LifecycleSpec.HookRun>)
    requires HookEngine.Sound(s)
  {
    match phase
    case Provisioning => UpRan(s, runner, start, end, data, cdf, cloud, r, stop, pre, post)
    case Testing => r == Pass && stop == Provisioner.Completed && pre == [] && post == [] && end == start
    case DeProvisioning => DownRan(s, runner, start, end, data, cloud, r, stop, pre, post)
  }

  /** `after` is `before` followed by the going_down transition and more. */
  predicate WentDown(before: seq<StateStore.Event>, after: seq<StateStore.Event>) {
    |after| > |before| && after[..|before|] == before && after[|before|] == Provisioner.TransitionEvent(StateStore.GoingDown)
  }

  /** A log that begins with the going_down transition went down. */
  lemma BeganWith(before: seq<StateStore.Event>, pre: seq<LifecycleSpec.HookRun>, after: seq<StateStore.Event>)
    requires Provisioner.Began(before, StateStore.GoingDown, pre) <= after
    ensures WentDown(before, after)
  {
    var b := Provisioner.Began(before, StateStore.GoingDown, pre);
    assert b[..|before|] == before && b[|before|] == Provisioner.TransitionEvent(StateStore.GoingDown);
    assert after[..|before|] == b[..|before|];
  }

  /** One phase of a test against its own configuration: provision, the
      expectations, or de_provision. */
  method RunPhase(p: Parser.ConfigParser, cloud: Provisioner.Cloud, phase: TestPhase, testName: string,
                  runner: HookEngine.Runner)
    returns (r: Outcome, ghost stop: Provisioner.Stop, ghost pre: seq<LifecycleSpec.HookRun>, ghost post: seq<LifecycleSpec.HookRun>)
    requires p.Valid()
    modifies p`vars, p`hooksOut, p.state`hooksResult, p.state`phase, p.state`events, p.state`statusPtr
    modifies p.state`upOutputs, p.state`upResources
    ensures p.Valid()
    ensures PhaseRan(phase, HookEngine.SettingOf(p), runner, old(HookEngine.SnapOf(p)), HookEngine.SnapOf(p),
                     p.data, p.cdf, cloud, r, stop, pre, post)
    ensures phase == Testing ==> p.state.events == old(p.state.events)
    ensures phase == Provisioning && r.Pass? ==> p.state.phase == StateStore.Up
    ensures phase == DeProvisioning && r.Pass? ==> p.state.phase == StateStore.Down
    ensures phase == DeProvisioning ==> WentDown(old(p.state.events), p.state.events)
  {
    match phase
    case Provisioning =>
      r, stop, pre, post := Provisioner.Provision(p, cloud, runner);
    case Testing =>
      var _ := RunExpect(testName);
      r, stop, pre, post := Pass, Provisioner.Completed, [], [];
    case DeProvisioning =>
      r, stop, pre, post := Provisioner.DeProvision(p, cloud, runner);
      DownLogged(old(p.state.events), p.state.events, stop, pre, post);
  }

  /** Wherever de_provision stopped, its log began with going_down. */
  lemma DownLogged(before: seq<StateStore.Event>, after: seq<StateStore.Event>, stop: Provisioner.Stop,
                   pre: seq<LifecycleSpec.HookRun>, post: seq<LifecycleSpec.HookRun>)
    requires stop == Provisioner.AtInterpolation || stop == Provisioner.AtPreHooks || stop == Provisioner.AtResourceGroup ==>
      after == Provisioner.Began(before, StateStore.GoingDown, pre)
    requires stop == Provisioner.AtProvisioner ==>
      exists e :: after == Provisioner.Began(before, StateStore.GoingDown, pre) + [e]
    requires stop == Provisioner.AtPostHooks || stop == Provisioner.Completed ==>
      after == Provisioner.Reached(Provisioner.Began(before, StateStore.GoingDown, pre), StateStore.Down, post)
    ensures WentDown(before, after)
  {
    var b := Provisioner.Began(before, StateStore.GoingDown, pre);
    if stop == Provisioner.AtProvisioner {
      var e :| after == b + [e];
      assert after[..|b|] == b;
    } else if stop == Provisioner.AtPostHooks || stop == Provisioner.Completed {
      assert after[..|b|] == b;
    }
    BeganWith(before, pre, after);
  }

  /** _run_fn_abort_if_needed: runs one phase and, after a CLIError outside
      de-provisioning with clean-up asked for, exactly one de-provisioning;
      the report is AbortIfNeeded of the two outcomes. `out` is the
      phase's outcome, `cleanUp` the clean-up's (Pass when none ran), and
      `stop`, `pre` and `post` where the phase stopped and the hooks it ran,
      and `mid` the log as the phase left it. */
  method RunFnAbortIfNeeded(p: Parser.ConfigParser, cloud: Provisioner.Cloud, phase: TestPhase, testName: string,
                            exitOnFirst: bool, alwaysCleanUp: bool, runner: HookEngine.Runner)
    returns (r: Result<PhaseReport>, out: Outcome, cleaned: bool, cleanUp: Outcome,
             ghost stop: Provisioner.Stop, ghost pre: seq<LifecycleSpec.HookRun>, ghost post: seq<LifecycleSpec.HookRun>,
             ghost mid: seq<StateStore.Event>, ghost midSnap: HookEngine.Snap)
    requires p.Valid()
    modifies p`vars, p`hooksOut, p.state`hooksResult, p.state`phase, p.state`events, p.state`statusPtr
    modifies p.state`upOutputs, p.state`upResources
    ensures p.Valid()
    ensures PhaseRan(phase, HookEngine.SettingOf(p), runner, old(HookEngine.SnapOf(p)), midSnap, p.data, p.cdf, cloud, out, stop, pre, post)
    ensures cleaned <==> CleansUp(phase, alwaysCleanUp, out)
    ensures !cleaned ==> cleanUp == Pass && p.state.events == mid && HookEngine.SnapOf(p) == midSnap
    ensures cleaned ==> WentDown(mid, p.state.events)
    ensures cleaned ==> exists dstop, dpre, dpost ::
      DownRan(HookEngine.SettingOf(p), runner, midSnap, HookEngine.SnapOf(p), p.data, cloud, cleanUp, dstop, dpre, dpost)
    ensures r == AbortIfNeeded(phase, testName, out, exitOnFirst, alwaysCleanUp, cleanUp)
    ensures r.Err? && !exitOnFirst ==> !r.error.CliError?
  {
    out, stop, pre, post := RunPhase(p, cloud, phase, testName, runner);
    mid, midSnap := p.state.events, HookEngine.SnapOf(p);
    cleanUp := Pass;
    cleaned := CleansUp(phase, alwaysCleanUp, out);
    if cleaned {
      ghost var dstop, dpre, dpost;
      cleanUp, dstop, dpre, dpost := RunPhase(p, cloud, DeProvisioning, testName, runner);
    }
    r := AbortIfNeeded(phase, testName, out, exitOnFirst, alwaysCleanUp, cleanUp);
  }

  /** The phases of a test that fails nowhere. */
  const AllPhases := [Provisioning, Testing, DeProvisioning]

  /** init_config's ConfigParser(...) for one test: the variables resolved
      at `cdfAtVars`, the placement rendered and the state set up. */
  method OpenTest(cfg: Loaded) returns (r: Result<Parser.ConfigParser>, ghost cdfAtVars: Entries)
    requires Loadable(cfg)
    ensures Parser.FirstHookError(cfg.hooks).Some? ==> r == Err(Parser.FirstHookError(cfg.hooks).value)
    ensures r.Ok? ==> fresh(r.value) && fresh(r.value.state) && r.value.Valid() && r.value.hooks == cfg.hooks
    ensures r.Ok? ==> (r.value.vars, r.value.delayed, Pass) == Parser.LazyFold(cdfAtVars, cfg.env, [], [], Parser.VarDefsOf(cfg.data))
    ensures r.Ok? ==>
      var pl := Parser.Placement(cfg.data, cdfAtVars, cfg.env, r.value.vars);
      && pl.Ok?
      && Get(r.value.cdf, "resource_group") == Some(pl.value.0) && Get(r.value.cdf, "location") == Some(pl.value.1)
      && Get(r.value.data, "up") == Some(pl.value.2)
      && Parser.SetUp(cfg.hooks, StateStore.Opened(r.value.state.location, cfg.fileDoc, cfg.urlDoc), r.value.state.Doc(),
                      r.value.state.configHooks, cdfAtVars, pl)
  {
    r, cdfAtVars := Parser.NewConfigParser(cfg.data, cfg.hooks, cfg.env, cfg.version, cfg.configDir, cfg.platform,
                                           cfg.cliState, cfg.fileDoc, cfg.urlDoc);
  }

  /** The testing and de-provisioning phases of a test whose provisioning
      passed: testing always passes, so the report is de-provisioning's. */
  method RunTestingAndDown(p: Parser.ConfigParser, cloud: Provisioner.Cloud, testName: string, exitOnFirst: bool,
                           alwaysCleanUp: bool, runner: HookEngine.Runner)
    returns (rep: Result<PhaseReport>, out: Outcome, cleanUp: Outcome)
    requires p.Valid()
    modifies p`vars, p`hooksOut, p.state`hooksResult, p.state`phase, p.state`events, p.state`statusPtr
    modifies p.state`upOutputs, p.state`upResources
    ensures exists stop, pre, post ::
      DownRan(HookEngine.SettingOf(p), runner, old(HookEngine.SnapOf(p)), HookEngine.SnapOf(p), p.data, cloud, out, stop, pre, post)
    ensures cleanUp == Pass
    ensures rep == AbortIfNeeded(DeProvisioning, testName, out, exitOnFirst, alwaysCleanUp, cleanUp)
  {
    var cleaned;
    ghost var stop, pre, post, mid, midSnap;
    rep, out, cleaned, cleanUp, stop, pre, post, mid, midSnap :=
      RunFnAbortIfNeeded(p, cloud, Testing, testName, exitOnFirst, alwaysCleanUp, runner);
    ghost var start := HookEngine.SnapOf(p);
    rep, out, cleaned, cleanUp, stop, pre, post, mid, midSnap :=
      RunFnAbortIfNeeded(p, cloud, DeProvisioning, testName, exitOnFirst, alwaysCleanUp, runner);
    assert DownRan(HookEngine.SettingOf(p), runner, start, HookEngine.SnapOf(p), p.data, cloud, out, stop, pre, post);
  }

  /** The three phases of one test on its configuration, until one fails.
      `outs` holds each phase's outcome, and `lastClean` the outcome of the
      clean-up after the last phase (Pass when none ran). */
  method RunPhases(p: Parser.ConfigParser, cloud: Provisioner.Cloud, testName: string, exitOnFirst: bool,
                   alwaysCleanUp: bool, runner: HookEngine.Runner)
    returns (r: Result<Report>, ghost ran: seq<TestPhase>, ghost outs: seq<Outcome>, ghost lastClean: Outcome,
             ghost upEnd: HookEngine.Snap)
    requires p.Valid()
    modifies p`vars, p`hooksOut, p.state`hooksResult, p.state`phase, p.state`events, p.state`statusPtr
    modifies p.state`upOutputs, p.state`upResources
    ensures ran != [] && ran <= AllPhases && |outs| == |ran|
    ensures forall k :: 0 <= k < |outs| - 1 ==> outs[k].Pass?
    ensures exists stop, pre, post ::
      UpRan(HookEngine.SettingOf(p), runner, old(HookEngine.SnapOf(p)), upEnd, p.data, p.cdf, cloud, outs[0], stop, pre, post)
    ensures |ran| >= 2 ==> outs[1] == Pass
    ensures |ran| == 3 ==> exists stop, pre, post ::
      DownRan(HookEngine.SettingOf(p), runner, upEnd, HookEngine.SnapOf(p), p.data, cloud, outs[2], stop, pre, post)
    ensures !CleansUp(ran[|ran| - 1], alwaysCleanUp, outs[|outs| - 1]) ==> lastClean == Pass
    ensures |ran| == 1 && !CleansUp(ran[0], alwaysCleanUp, outs[0]) ==> HookEngine.SnapOf(p) == upEnd
    ensures CleansUp(ran[|ran| - 1], alwaysCleanUp, outs[|outs| - 1]) ==>
      |ran| == 1 && exists stop, pre, post ::
        DownRan(HookEngine.SettingOf(p), runner, upEnd, HookEngine.SnapOf(p), p.data, cloud, lastClean, stop, pre, post)
    ensures var rep := AbortIfNeeded(ran[|ran| - 1], testName, outs[|outs| - 1], exitOnFirst, alwaysCleanUp, lastClean);
      && (rep.Err? ==> r == Err(rep.error))
      && (rep.Ok? ==> r == Ok(Report(testName, rep.value.failed, rep.value.msg)))
    ensures r.Err? ==> exitOnFirst || !r.error.CliError?
    ensures r.Ok? ==> r.value.name == testName
    ensures r.Ok? && !r.value.failed ==> ran == AllPhases && r.value.msg == ""
    ensures r.Ok? && r.value.failed ==>
      && !exitOnFirst && (ran == [Provisioning] || ran == AllPhases)
      && StartsWith(r.value.msg, "Failed during testing " + PhaseLabel(ran[|ran| - 1]) + ". ")
  {
    var rep;
    var out, cleaned, cleanUp;
    ghost var stop, pre, post, mid;
    ran := [Provisioning];
    rep, out, cleaned, cleanUp, stop, pre, post, mid, upEnd :=
      RunFnAbortIfNeeded(p, cloud, Provisioning, testName, exitOnFirst, alwaysCleanUp, runner);
    outs, lastClean := [out], cleanUp;
    ghost var upStop, upPre, upPost := stop, pre, post;
    assert UpRan(HookEngine.SettingOf(p), runner, old(HookEngine.SnapOf(p)), upEnd, p.data, p.cdf, cloud, outs[0], upStop, upPre, upPost);
    if rep.Err? {
      return Err(rep.error), ran, outs, lastClean, upEnd;
    }
    if rep.value.failed {
      return Ok(Report(testName, true, rep.value.msg)), ran, outs, lastClean, upEnd;
    }
    ran := ran + [Testing, DeProvisioning];
    rep, out, cleanUp := RunTestingAndDown(p, cloud, testName, exitOnFirst, alwaysCleanUp, runner);
    outs, lastClean := outs + [Pass, out], cleanUp;
    assert outs[2] == out;
    assert UpRan(HookEngine.SettingOf(p), runner, old(HookEngine.SnapOf(p)), upEnd, p.data, p.cdf, cloud, outs[0], upStop, upPre, upPost);
    if rep.Err? {
      return Err(rep.error), ran, outs, lastClean, upEnd;
    }
    return Ok(Report(testName, rep.value.failed, rep.value.msg)), ran, outs, lastClean, upEnd;
  }

  /** One iteration of run_test: a fresh configuration and state for the
      test, then provisioning, testing and de-provisioning until one fails.
      `ran` is empty when the configuration could not be built. */
  method RunOneTest(cfg: Loaded, testName: string, exitOnFirst: bool, alwaysCleanUp: bool, runner: HookEngine.Runner)
    returns (r: Result<Report>, ghost ran: seq<TestPhase>, ghost made: Result<Parser.ConfigParser>,
             ghost start: HookEngine.Snap, ghost upEnd: HookEngine.Snap, ghost outs: seq<Outcome>, ghost lastClean: Outcome)
    requires Loadable(cfg)
    ensures ran <= AllPhases
    ensures ran == [] <==> made.Err?
    ensures made.Err? ==> r == Err(made.error)
    ensures Parser.FirstHookError(cfg.hooks).Some? ==> r == Err(Parser.FirstHookError(cfg.hooks).value) && ran == []
    ensures made.Ok? ==> made.value.hooks == cfg.hooks && |outs| == |ran|
    ensures made.Ok? ==> exists stop, pre, post ::
      UpRan(HookEngine.SettingOf(made.value), runner, start, upEnd, made.value.data, made.value.cdf, cfg.cloud, outs[0], stop, pre, post)
    ensures made.Ok? && |ran| == 3 ==> exists stop, pre, post ::
      DownRan(HookEngine.SettingOf(made.value), runner, upEnd, HookEngine.SnapOf(made.value), made.value.data, cfg.cloud, outs[2], stop, pre, post)
    ensures made.Ok? ==>
      var rep := AbortIfNeeded(ran[|ran| - 1], testName, outs[|outs| - 1], exitOnFirst, alwaysCleanUp, lastClean);
      && (rep.Err? ==> r == Err(rep.error))
      && (rep.Ok? ==> r == Ok(Report(testName, rep.value.failed, rep.value.msg)))
    ensures r.Err? && ran != [] ==> exitOnFirst || !r.error.CliError?
    ensures r.Ok? ==> r.value.name == testName
    ensures r.Ok? && !r.value.failed ==> ran == AllPhases && r.value.msg == ""
    ensures r.Ok? && r.value.failed ==>
      && !exitOnFirst && (ran == [Provisioning] || ran == AllPhases)
      && StartsWith(r.value.msg, "Failed during testing " + PhaseLabel(ran[|ran| - 1]) + ". ")
  {
    var opening;
    ghost var cdfAtVars;
    opening, cdfAtVars := OpenTest(cfg);
    made, outs, lastClean := opening, [], Pass;
    start := HookEngine.Snap([], Null, map[]);
    upEnd := start;
    if opening.Err? {
      return Err(opening.error), [], made, start, upEnd, outs, lastClean;
    }
    start := HookEngine.SnapOf(opening.value);
    r, ran, outs, lastClean, upEnd := RunPhases(opening.value, cfg.cloud, testName, exitOnFirst, alwaysCleanUp, runner);
  }

  function NameSet(results: seq<Report>): set<string> {
    set k | 0 <= k < |results| :: results[k].name
  }

  predicate DistinctNames(results: seq<Report>) {
    forall j, k :: 0 <= j < k < |results| ==> results[j].name != results[k].name
  }

  /** results[name] = report: the entry of the same name is replaced in
      place, or a new one is appended. */
  function Record(results: seq<Report>, rep: Report): (r: seq<Report>)
    requires DistinctNames(results)
    ensures DistinctNames(r)
    ensures NameSet(r) == NameSet(results) + {rep.name}
    ensures rep in r
    ensures forall k :: 0 <= k < |r| && r[k].name != rep.name ==> r[k] in results
    ensures rep.name in NameSet(results) ==> |r| == |results|
    ensures rep.name !in NameSet(results) ==> r == results + [rep]
  {
    if rep.name in NameSet(results) then
      var k :| 0 <= k < |results| && results[k].name == rep.name;
      var r := results[k := rep];
      assert NameSet(r) == NameSet(results) by {
        forall n | n in NameSet(results) ensures n in NameSet(r) {
          var j :| 0 <= j < |results| && results[j].name == n;
          assert r[j].name == n;
        }
      }
      r
    else
      var r := results + [rep];
      assert NameSet(r) == NameSet(results) + {rep.name} by {
        forall n | n in NameSet(r) ensures n in NameSet(results) + {rep.name} {
          var j :| 0 <= j < |r| && r[j].name == n;
          if j < |results| { assert r[j] == results[j]; }
        }
        assert r[|results|] == rep;
        forall n | n in NameSet(results) ensures n in NameSet(r) {
          var j :| 0 <= j < |results| && results[j].name == n;
          assert r[j] == results[j];
        }
      }
      r
  }

  const AtLeastOneFailed := "At-least on test failed"

  /** Recording test i keeps the names those of tests 0 to i. */
  lemma RecordNames(results: seq<Report>, rep: Report, names: seq<string>, i: nat)
    requires i < |names| && rep.name == names[i] && DistinctNames(results)
    requires NameSet(results) == (set j | 0 <= j < i :: names[j])
    ensures NameSet(Record(results, rep)) == (set j | 0 <= j < i + 1 :: names[j])
  {
    assert (set j | 0 <= j < i + 1 :: names[j]) == (set j | 0 <= j < i :: names[j]) + {names[i]};
  }

  /** The first n tests' configurations all load. */
  predicate LoadsUpTo(load: string -> Result<Loaded>, names: seq<string>, n: nat)
    requires n <= |names|
  {
    forall k :: 0 <= k < n ==> load(names[k]).Ok?
  }

  lemma LoadsStep(load: string -> Result<Loaded>, names: seq<string>, n: nat)
    requires n < |names| && LoadsUpTo(load, names, n) && load(names[n]).Ok?
    ensures LoadsUpTo(load, names, n + 1)
  {
  }

  /** run_test: the tests in order, each on its own configuration. A failed
      test is recorded and the loop moves on; at the end any failure is a
      CLIError, otherwise the results come back with the flag false. Only
      an exception stops the loop early. `failedAt` is the failed flag of
      each test run to its end; `lastRan` the phases of the test that
      raised. */
  method RunTest(names: seq<string>, load: string -> Result<Loaded>, exitOnFirst: bool, alwaysCleanUp: bool,
                 runner: HookEngine.Runner)
    returns (r: Result<(seq<Report>, bool)>, ghost failedAt: seq<bool>, ghost lastRan: seq<TestPhase>)
    requires forall n :: load(n).Ok? ==> Loadable(load(n).value)
    ensures names == [] ==> r == Ok(([], false))
    ensures |failedAt| <= |names|
    ensures LoadsUpTo(load, names, |failedAt|)
    ensures |failedAt| < |names| ==> r.Err?
    ensures |failedAt| < |names| && load(names[|failedAt|]).Err? ==> r == Err(load(names[|failedAt|]).error)
    ensures |failedAt| < |names| && load(names[|failedAt|]).Ok? && lastRan != [] ==>
      exitOnFirst || !r.error.CliError?
    ensures |failedAt| < |names| && load(names[|failedAt|]).Ok? && lastRan == [] ==>
      var hookError := Parser.FirstHookError(load(names[|failedAt|]).value.hooks);
      hookError.Some? ==> r == Err(hookError.value)
    ensures exitOnFirst ==> true !in failedAt
    ensures r.Ok? ==>
      && |failedAt| == |names| && true !in failedAt && !r.value.1
      && NameSet(r.value.0) == (set j | 0 <= j < |names| :: names[j])
      && DistinctNames(r.value.0)
      && forall k :: 0 <= k < |r.value.0| ==> !r.value.0[k].failed && r.value.0[k].msg == ""
    ensures |failedAt| == |names| && true in failedAt ==> r == Err(CliError(AtLeastOneFailed))
    ensures |failedAt| == |names| && true !in failedAt ==> r.Ok?
  {
    var results: seq<Report> := [];
    var oneFailed := false;
    failedAt := [];
    lastRan := [];
    var i := 0;
    while i < |names|
      invariant 0 <= i <= |names| && |failedAt| == i
      invariant LoadsUpTo(load, names, i)
      invariant i == 0 ==> results == []
      invariant oneFailed <==> true in failedAt
      invariant exitOnFirst ==> true !in failedAt
      invariant DistinctNames(results)
      invariant NameSet(results) == (set j | 0 <= j < i :: names[j])
      invariant forall k :: 0 <= k < |results| && (results[k].failed || results[k].msg != "") ==> true in failedAt
    {
      var cfg := load(names[i]);
      if cfg.Err? {
        return Err(cfg.error), failedAt, lastRan;
      }
      var rep;
      ghost var made, start, upEnd, outs, lastClean;
      rep, lastRan, made, start, upEnd, outs, lastClean := RunOneTest(cfg.value, names[i], exitOnFirst, alwaysCleanUp, runner);
      if rep.Err? {
        return Err(rep.error), failedAt, lastRan;
      }
      ghost var before := results;
      RecordNames(results, rep.value, names, i);
      results := Record(results, rep.value);
      LoadsStep(load, names, i);
      oneFailed := oneFailed || rep.value.failed;
      failedAt := failedAt + [rep.value.failed];
      forall k | 0 <= k < |results| && (results[k].failed || results[k].msg != "") ensures true in failedAt {
        if results[k].name != rep.value.name {
          var j :| 0 <= j < |before| && before[j] == results[k];
        }
      }
      i := i + 1;
    }
    if oneFailed {
      return Err(CliError(AtLeastOneFailed)), failedAt, lastRan;
    }
    return Ok((results, false)), failedAt, lastRan;
  }

  /** run_test as written: init_config raises on the first test, before
      anything is provisioned or recorded. */
  method RunTestAsWritten(names: seq<string>, exitOnFirst: bool, alwaysCleanUp: bool, runner: HookEngine.Runner)
    returns (r: Result<(seq<Report>, bool)>)
    ensures names != [] ==> r == Err(OtherError(InitConfigTypeError))
    ensures names == [] ==> r == Ok(([], false))
  {
    ghost var failedAt, lastRan;
    var load := InitConfigAsWritten;
    r, failedAt, lastRan := RunTest(names, load, exitOnFirst, alwaysCleanUp, runner);
    assert names != [] ==> load(names[0]).Err?;
  }
}
