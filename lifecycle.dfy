// run_hook_lifecycle (azext_cdf/hooks.py): every hook an event triggers,
// run in configuration order through run_hook. LifecycleSpec states what
// the runs are; Lifecycle runs them.
module LifecycleSpec {
  import opened Values
  import Utils
  import StateStore
  import Parser
  import opened HookEngine

  /** The lifecycle of a hook is the event, or lists it. */
  function Triggers(lifecycle: Value, event: string): bool {
    Utils.IsEqualOrIn(event, lifecycle) == Ok(true)
  }

  /** The names, in configuration order, of those of the first n hooks
      that the event triggers. */
  function Triggered(hooks: Parser.Hooks, event: string, n: nat): seq<string>
    requires n <= |hooks|
  {
    if n == 0 then []
    else Triggered(hooks, event, n - 1) + (if Triggers(hooks[n - 1].1.lifecycle, event) then [hooks[n - 1].0] else [])
  }

  /** A hook is run by the event iff its lifecycle is the event or a list
      holding it; since hook names are distinct, each runs at most once. */
  lemma {:induction false} TriggeredSpec(hooks: Parser.Hooks, event: string, n: nat)
    requires n <= |hooks| && Parser.SchemaValid(hooks)
    ensures forall i :: 0 <= i < n ==>
      (hooks[i].0 in Triggered(hooks, event, n) <==>
       hooks[i].1.lifecycle == Str(event) || (hooks[i].1.lifecycle.List? && Str(event) in hooks[i].1.lifecycle.items))
    ensures forall a, b :: 0 <= a < b < |Triggered(hooks, event, n)| ==> Triggered(hooks, event, n)[a] != Triggered(hooks, event, n)[b]
    ensures forall name :: name in Triggered(hooks, event, n) ==> exists i :: 0 <= i < n && hooks[i].0 == name
  {
    TriggeredFrom(hooks, event, n);
    if n > 0 {
      TriggeredSpec(hooks, event, n - 1);
      TriggeredFrom(hooks, event, n - 1);
      var t := Triggered(hooks, event, n - 1);
      assert Triggered(hooks, event, n) == t + (if Triggers(hooks[n - 1].1.lifecycle, event) then [hooks[n - 1].0] else []);
      forall i | 0 <= i < n - 1
        ensures hooks[i].0 != hooks[n - 1].0
      {
      }
      assert hooks[n - 1].0 !in t;
    }
  }

  /** Every triggered name is that of one of the first n hooks. */
  lemma {:induction false} TriggeredFrom(hooks: Parser.Hooks, event: string, n: nat)
    requires n <= |hooks|
    ensures forall name :: name in Triggered(hooks, event, n) ==> exists i :: 0 <= i < n && hooks[i].0 == name
  {
    if n > 0 {
      TriggeredFrom(hooks, event, n - 1);
    }
  }

  lemma {:induction false} TriggeredGrows(hooks: Parser.Hooks, event: string, a: nat, b: nat)
    requires a <= b <= |hooks|
    ensures Triggered(hooks, event, a) <= Triggered(hooks, event, b)
    decreases b - a
  {
    if a < b {
      TriggeredGrows(hooks, event, a, b - 1);
    }
  }

  /** One hook run by run_hook_lifecycle once its running event is
      logged: the hook, the snapshot it started from, what its body gave
      and the ops it ran, the snapshot the body left, what run_hook gave,
      and the snapshot the run left. */
  datatype HookRun = HookRun(name: string, before: Snap, body: Result<bool>, steps: seq<OpRun>, mid: Snap,
                             result: Outcome, after: Snap)

  function Names(runs: seq<HookRun>): (r: seq<string>)
    ensures |r| == |runs| && forall k :: 0 <= k < |runs| ==> r[k] == runs[k].name
  {
    seq(|runs|, k requires 0 <= k < |runs| => runs[k].name)
  }

  /** The events one hook run logs: its running event, then its closing
      events. */
  function RunEvents(phase: StateStore.Phase, run: HookRun): seq<StateStore.Event> {
    [RunningEvent(phase, [run.name])] + ClosingEvents(phase, run.name, run.body)
  }

  /** The events a sequence of hook runs logs, in order. */
  function RunLog(phase: StateStore.Phase, runs: seq<HookRun>): seq<StateStore.Event> {
    if runs == [] then [] else RunLog(phase, runs[..|runs| - 1]) + RunEvents(phase, runs[|runs| - 1])
  }

  /** What run_hook_lifecycle promises about its runs: they are the hooks
      the event triggers, in configuration order; every run but the last
      passed; on success every triggered hook ran and passed; on failure
      either the last run failed with the error passed on, or the next
      triggered hook failed before its running event was logged. */
  predicate LifecycleRuns(hooks: Parser.Hooks, event: string, r: Outcome, runs: seq<HookRun>) {
    && Names(runs) <= Triggered(hooks, event, |hooks|)
    && (forall k :: 0 <= k < |runs| - 1 ==> runs[k].result.Pass?)
    && (r.Pass? ==> Names(runs) == Triggered(hooks, event, |hooks|) && forall k :: 0 <= k < |runs| ==> runs[k].result.Pass?)
    && (r.Fail? ==>
          || (runs != [] && runs[|runs| - 1].result == r)
          || (|runs| < |Triggered(hooks, event, |hooks|)| && (runs == [] || runs[|runs| - 1].result.Pass?)))
  }

  /** The snapshot a sequence of hook runs leaves. */
  function SnapAfter(start: Snap, runs: seq<HookRun>): Snap {
    if runs == [] then start else runs[|runs| - 1].after
  }

  /** Each hook run starts from the snapshot the previous run left. */
  predicate RunsChain(start: Snap, runs: seq<HookRun>)
    decreases |runs|
  {
    runs != [] ==>
      && RunsChain(start, runs[..|runs| - 1])
      && runs[|runs| - 1].before == SnapAfter(start, runs[..|runs| - 1])
  }

  /** run_hook_lifecycle's runs from `start`, chained, ending in `end`: a
      pass ends where the last run left off, as does a failure of the
      last run; any other failure is that of the deferred variables,
      re-resolved from where the last run left off. */
  predicate LifecycleFrom(s: Setting, start: Snap, runs: seq<HookRun>, r: Outcome, end: Snap)
  {
    match r
    case Pass => RunsChain(start, runs) && end == SnapAfter(start, runs)
    case Fail(_) =>
      && RunsChain(start, runs)
      && if runs == [] || runs[|runs| - 1].result.Pass? then Stalled(s, SnapAfter(start, runs), r, end)
         else end == SnapAfter(start, runs)
  }

  /** A failure that is no run's own is the error of re-resolving the
      deferred variables where the runs left off: in particular a
      lifecycle that fails before any hook ran fails with that error. */
  lemma StallIsRedelayError(s: Setting, start: Snap, runs: seq<HookRun>, r: Outcome, end: Snap)
    requires LifecycleFrom(s, start, runs, r, end) && r.Fail?
    requires runs == [] || runs[|runs| - 1].result.Pass?
    ensures Redelayed(s, SnapAfter(start, runs)).1 == r
    ensures end.hr == SnapAfter(start, runs).hr && end.out == SnapAfter(start, runs).out
  {
  }

  /** A run of the lifecycle is run_hook on its hook with no extra
      arguments, started from the run's own snapshot. */
  ghost predicate RanAsHook(s: Setting, runner: Runner, run: HookRun)
    requires Sound(s)
  {
    HookRunOk(s, runner, [run.name], run.before, true, run.body, run.steps, run.mid, run.result, run.after)
  }

  /** What run_hook_lifecycle promises about the hooks of `event` run from
      `start` with outcome r, ending in `end`: the runs are those the event
      triggers (LifecycleRuns), chained from `start` with a failure no run
      raised being the deferred variables' (LifecycleFrom), and every one
      of them really ran its hook. */
  ghost predicate HooksRan(s: Setting, runner: Runner, event: string, start: Snap, runs: seq<HookRun>, r: Outcome, end: Snap)
    requires Sound(s)
  {
    && LifecycleRuns(s.hooks, event, r, runs)
    && LifecycleFrom(s, start, runs, r, end)
    && forall k {:trigger RanAsHook(s, runner, runs[k])} :: 0 <= k < |runs| ==> RanAsHook(s, runner, runs[k])
  }

  /** HooksRan where the snapshot the lifecycle ends in is not at hand:
      the runs are those triggered, chained from `start`, each a real run
      of its hook, and a failure no run raised is the error of re-resolving
      the deferred variables where the runs left off. */
  ghost predicate HooksRun(s: Setting, runner: Runner, event: string, start: Snap, runs: seq<HookRun>, r: Outcome)
    requires Sound(s)
  {
    && LifecycleRuns(s.hooks, event, r, runs)
    && RunsChain(start, runs)
    && (forall k {:trigger RanAsHook(s, runner, runs[k])} :: 0 <= k < |runs| ==> RanAsHook(s, runner, runs[k]))
    && (r.Fail? && (runs == [] || runs[|runs| - 1].result.Pass?) ==> Redelayed(s, SnapAfter(start, runs)).1 == r)
  }

  /** A lifecycle that passed ends where its last run left off, and what
      it promises holds with the end left out. */
  lemma {:induction false} HooksRanRun(s: Setting, runner: Runner, event: string, start: Snap, runs: seq<HookRun>, r: Outcome, end: Snap)
    requires Sound(s) && HooksRan(s, runner, event, start, runs, r, end)
    ensures HooksRun(s, runner, event, start, runs, r)
    ensures r.Pass? ==> end == SnapAfter(start, runs)
  {
    if r.Fail? && (runs == [] || runs[|runs| - 1].result.Pass?) {
      StallIsRedelayError(s, start, runs, r, end);
    }
  }

  /** The log and the names grow by one run. */
  lemma LogStep(base: seq<StateStore.Event>, phase: StateStore.Phase, runs: seq<HookRun>, run: HookRun)
    ensures base + RunLog(phase, runs + [run]) == (base + RunLog(phase, runs)) + RunEvents(phase, run)
    ensures Names(runs + [run]) == Names(runs) + [run.name]
  {
    assert (runs + [run])[..|runs|] == runs;
  }

  /** run_hook_lifecycle's loop once it has seen the first i hooks: the
      runs are those of the hooks triggered so far, all passed, logged
      after `base`, chained from `start` and ending in `cur`. */
  ghost predicate Progress(s: Setting, runner: Runner, start: Snap, hooks: Parser.Hooks, event: string, i: nat,
                           base: seq<StateStore.Event>, phase: StateStore.Phase, runs: seq<HookRun>,
                           events: seq<StateStore.Event>, cur: Snap)
  {
    && i <= |hooks| && hooks == s.hooks && Sound(s)
    && (forall k {:trigger RanAsHook(s, runner, runs[k])} :: 0 <= k < |runs| ==> RanAsHook(s, runner, runs[k]))
    && Names(runs) == Triggered(hooks, event, i)
    && (forall k :: 0 <= k < |runs| ==> runs[k].result.Pass?)
    && events == base + RunLog(phase, runs)
    && RunsChain(start, runs) && cur == SnapAfter(start, runs)
  }

  /** What run_hook_lifecycle promises once it returns r: the events it
      logged after `base`, and the hooks it ran. */
  ghost predicate Done(s: Setting, runner: Runner, start: Snap, hooks: Parser.Hooks, event: string,
                       base: seq<StateStore.Event>, phase: StateStore.Phase, runs: seq<HookRun>,
                       events: seq<StateStore.Event>, r: Outcome, end: Snap)
  {
    && events == base + RunLog(phase, runs)
    && hooks == s.hooks
    && Sound(s) && HooksRan(s, runner, event, start, runs, r, end)
  }

  /** Every triggered hook ran and passed: the lifecycle passes. */
  lemma AllRan(s: Setting, runner: Runner, start: Snap, hooks: Parser.Hooks, event: string,
               base: seq<StateStore.Event>, phase: StateStore.Phase, runs: seq<HookRun>,
               events: seq<StateStore.Event>, cur: Snap)
    requires Progress(s, runner, start, hooks, event, |hooks|, base, phase, runs, events, cur)
    ensures Done(s, runner, start, hooks, event, base, phase, runs, events, Pass, cur)
  {
  }

  /** A hook the event does not trigger is passed over. */
  lemma PassOver(s: Setting, runner: Runner, start: Snap, hooks: Parser.Hooks, event: string, i: nat,
             base: seq<StateStore.Event>, phase: StateStore.Phase, runs: seq<HookRun>,
             events: seq<StateStore.Event>, cur: Snap)
    requires i < |hooks| && !Triggers(hooks[i].1.lifecycle, event)
    requires Progress(s, runner, start, hooks, event, i, base, phase, runs, events, cur)
    ensures Progress(s, runner, start, hooks, event, i + 1, base, phase, runs, events, cur)
  {
  }

  /** A hook the event triggers either ran, and its run joins the others,
      or stalled before its running event; a failure ends the lifecycle. */
  lemma Advance(s: Setting, runner: Runner, start: Snap, hooks: Parser.Hooks, event: string, i: nat,
                base: seq<StateStore.Event>, phase: StateStore.Phase, runs: seq<HookRun>,
                before: seq<StateStore.Event>, cur: Snap,
                run: Option<HookRun>, r: Outcome, after: seq<StateStore.Event>, end: Snap)
    requires i < |hooks| && Triggers(hooks[i].1.lifecycle, event)
    requires Progress(s, runner, start, hooks, event, i, base, phase, runs, before, cur)
    requires run.None? ==> Stalled(s, cur, r, end) && after == before
    requires run.Some? ==>
      && run.value.name == hooks[i].0 && run.value.result == r
      && run.value.before == cur && run.value.after == end
      && after == before + RunEvents(phase, run.value)
      && RanAsHook(s, runner, run.value)
    ensures var runs' := if run.Some? then runs + [run.value] else runs;
      && (r.Pass? ==> Progress(s, runner, start, hooks, event, i + 1, base, phase, runs', after, end))
      && (r.Fail? ==> Done(s, runner, start, hooks, event, base, phase, runs', after, r, end))
  {
    RunAtStep(hooks, event, i, base, phase, runs, run, r, before, after);
    ChainGrows(s, start, runs, cur, run, r, end);
  }

  /** A hook the event triggers extends the names triggered so far, which
      stay a prefix of all those the event triggers. */
  lemma NextTriggered(hooks: Parser.Hooks, event: string, i: nat)
    requires i < |hooks| && Triggers(hooks[i].1.lifecycle, event)
    ensures Triggered(hooks, event, i + 1) == Triggered(hooks, event, i) + [hooks[i].0]
    ensures Triggered(hooks, event, i + 1) <= Triggered(hooks, event, |hooks|)
  {
    TriggeredGrows(hooks, event, i + 1, |hooks|);
  }

  /** What one run of a triggered hook adds to the runs so far, stated on
      the logs before and after it. */
  lemma RunAtStep(hooks: Parser.Hooks, event: string, i: nat, base: seq<StateStore.Event>, phase: StateStore.Phase,
                  runs: seq<HookRun>, run: Option<HookRun>, r: Outcome,
                  before: seq<StateStore.Event>, after: seq<StateStore.Event>)
    requires i < |hooks| && Triggers(hooks[i].1.lifecycle, event)
    requires Names(runs) == Triggered(hooks, event, i)
    requires forall k :: 0 <= k < |runs| ==> runs[k].result.Pass?
    requires before == base + RunLog(phase, runs)
    requires run.None? ==> r.Fail? && after == before
    requires run.Some? ==> run.value.name == hooks[i].0 && run.value.result == r && after == before + RunEvents(phase, run.value)
    ensures var runs' := if run.Some? then runs + [run.value] else runs;
      && after == base + RunLog(phase, runs')
      && (r.Pass? ==> Names(runs') == Triggered(hooks, event, i + 1) && forall k :: 0 <= k < |runs'| ==> runs'[k].result.Pass?)
      && (r.Fail? ==> LifecycleRuns(hooks, event, r, runs'))
  {
    NextTriggered(hooks, event, i);
    if run.Some? {
      LogStep(base, phase, runs, run.value);
      StepRan(hooks, event, i, runs, run.value);
    } else {
      StepStalled(hooks, event, i, runs, r);
    }
  }

  /** A triggered hook that ran joins the runs: they keep to the triggered
      names, and a failure is its own. */
  lemma StepRan(hooks: Parser.Hooks, event: string, i: nat, runs: seq<HookRun>, run: HookRun)
    requires i < |hooks|
    requires Names(runs + [run]) == Triggered(hooks, event, i + 1)
    requires Triggered(hooks, event, i + 1) <= Triggered(hooks, event, |hooks|)
    requires forall k :: 0 <= k < |runs| ==> runs[k].result.Pass?
    ensures run.result.Pass? ==> forall k :: 0 <= k < |runs + [run]| ==> (runs + [run])[k].result.Pass?
    ensures run.result.Fail? ==> LifecycleRuns(hooks, event, run.result, runs + [run])
  {
  }

  /** A triggered hook that stalled before its running event leaves the
      runs as they were, one short of those triggered. */
  lemma StepStalled(hooks: Parser.Hooks, event: string, i: nat, runs: seq<HookRun>, r: Outcome)
    requires i < |hooks| && r.Fail?
    requires Names(runs) == Triggered(hooks, event, i)
    requires Triggered(hooks, event, i + 1) == Triggered(hooks, event, i) + [hooks[i].0]
    requires Triggered(hooks, event, i + 1) <= Triggered(hooks, event, |hooks|)
    requires forall k :: 0 <= k < |runs| ==> runs[k].result.Pass?
    ensures LifecycleRuns(hooks, event, r, runs)
  {
  }

  /** What one run of a triggered hook adds to the chain of runs: a run
      that got going extends it; one that stalled ends it. */
  lemma ChainGrows(s: Setting, start: Snap, runs: seq<HookRun>, cur: Snap, run: Option<HookRun>, r: Outcome, end: Snap)
    requires RunsChain(start, runs) && cur == SnapAfter(start, runs)
    requires forall k :: 0 <= k < |runs| ==> runs[k].result.Pass?
    requires run.None? ==> Stalled(s, cur, r, end)
    requires run.Some? ==> run.value.result == r && run.value.before == cur && run.value.after == end
    ensures LifecycleFrom(s, start, if run.Some? then runs + [run.value] else runs, r, end)
  {
    if run.Some? {
      assert (runs + [run.value])[..|runs|] == runs;
    }
  }
}

module Lifecycle {
  import opened Values
  import StateStore
  import Parser
  import opened HookEngine
  import opened HookRunner
  import opened LifecycleSpec

  /** run_hook for one hook with no extra arguments. `run` is None when
      the hook failed before its running event, and otherwise tells what
      the run logged and gave. */
  method RunNamed(p: Parser.ConfigParser, name: string, runner: Runner) returns (r: Outcome, ghost run: Option<HookRun>)
    requires p.Valid()
    modifies p`vars, p`hooksOut, p.state`hooksResult, p.state`phase, p.state`events, p.state`statusPtr
    ensures p.Valid()
    ensures p.state.phase == old(p.state.phase) && p.state.statusPtr == old(p.state.statusPtr)
    ensures run.None? ==> Stalled(old(SettingOf(p)), old(SnapOf(p)), r, SnapOf(p)) && p.state.events == old(p.state.events)
    ensures run.Some? ==>
      && run.value.name == name && run.value.result == r
      && run.value.before == old(SnapOf(p)) && run.value.after == SnapOf(p)
      && HookRunOk(old(SettingOf(p)), runner, [name], run.value.before, true, run.value.body, run.value.steps, run.value.mid, r, run.value.after)
      && p.state.events == old(p.state.events) + RunEvents(old(p.state.phase), run.value)
  {
    ghost var before := SnapOf(p);
    ghost var started, inner, steps, mid;
    r, started, inner, steps, mid := RunHook(p, [name], runner);
    run := if started then Some(HookRun(name, before, inner, steps, mid, r, SnapOf(p))) else None;
  }

  /** run_hook_lifecycle: every hook the event triggers is run with no
      extra arguments, in configuration order, each from where the
      previous one left off; the first failure is passed on and no later
      hook runs. The events appended are exactly those of the runs, in
      order. */
  method RunHookLifecycle(p: Parser.ConfigParser, event: string, runner: Runner) returns (r: Outcome, ghost runs: seq<HookRun>)
    requires p.Valid()
    modifies p`vars, p`hooksOut, p.state`hooksResult, p.state`phase, p.state`events, p.state`statusPtr
    ensures p.Valid()
    ensures p.state.phase == old(p.state.phase) && p.state.statusPtr == old(p.state.statusPtr)
    ensures p.state.events == old(p.state.events) + RunLog(old(p.state.phase), runs)
    ensures HooksRan(old(SettingOf(p)), runner, event, old(SnapOf(p)), runs, r, SnapOf(p))
    ensures r.Pass? ==> SnapOf(p) == SnapAfter(old(SnapOf(p)), runs)
  {
    ghost var start, s, base := SnapOf(p), SettingOf(p), p.state.events;
    r, runs := RunEach(p, event, runner, s, start, base);
  }

  /** run_hook_lifecycle's loop over the hooks from the parser's state
      `start` (with setting `s` and log `base`), up to the first failure. */
  method RunEach(p: Parser.ConfigParser, event: string, runner: Runner, ghost s: Setting, ghost start: Snap,
                 ghost base: seq<StateStore.Event>)
    returns (r: Outcome, ghost runs: seq<HookRun>)
    requires p.Valid() && s == SettingOf(p) && start == SnapOf(p) && base == p.state.events
    modifies p`vars, p`hooksOut, p.state`hooksResult, p.state`phase, p.state`events, p.state`statusPtr
    ensures p.Valid()
    ensures p.state.phase == old(p.state.phase) && p.state.statusPtr == old(p.state.statusPtr)
    ensures Done(s, runner, start, p.hooks, event, base, p.state.phase, runs, p.state.events, r, SnapOf(p))
  {
    runs := [];
    var i := 0;
    while i < |p.hooks|
      invariant 0 <= i <= |p.hooks| && p.Valid() && s == SettingOf(p)
      invariant p.state.phase == old(p.state.phase) && p.state.statusPtr == old(p.state.statusPtr)
      invariant Progress(s, runner, start, p.hooks, event, i, base, p.state.phase, runs, p.state.events, SnapOf(p))
    {
      var res;
      res, runs := RunAt(p, event, runner, i, base, s, start, runs);
      if res.Fail? {
        return res, runs;
      }
      i := i + 1;
    }
    AllRan(s, runner, start, p.hooks, event, base, p.state.phase, runs, p.state.events, SnapOf(p));
    r := Pass;
  }

  /** One pass of run_hook_lifecycle's loop: a hook the event does not
      trigger is passed over; a triggered one is run, and the runs so far
      grow by its run if it got as far as its running event. */
  method RunAt(p: Parser.ConfigParser, event: string, runner: Runner, i: nat,
               ghost base: seq<StateStore.Event>, ghost s: Setting, ghost start: Snap, ghost runs: seq<HookRun>)
    returns (r: Outcome, ghost runs': seq<HookRun>)
    requires p.Valid() && i < |p.hooks|
    requires s == SettingOf(p)
    requires Progress(s, runner, start, p.hooks, event, i, base, p.state.phase, runs, p.state.events, SnapOf(p))
    modifies p`vars, p`hooksOut, p.state`hooksResult, p.state`phase, p.state`events, p.state`statusPtr
    ensures p.Valid()
    ensures p.state.phase == old(p.state.phase) && p.state.statusPtr == old(p.state.statusPtr)
    ensures r.Pass? ==> Progress(s, runner, start, p.hooks, event, i + 1, base, p.state.phase, runs', p.state.events, SnapOf(p))
    ensures r.Fail? ==> Done(s, runner, start, p.hooks, event, base, p.state.phase, runs', p.state.events, r, SnapOf(p))
  {
    if !Triggers(p.hooks[i].1.lifecycle, event) {
      PassOver(s, runner, start, p.hooks, event, i, base, p.state.phase, runs, p.state.events, SnapOf(p));
      return Pass, runs;
    }
    ghost var before, cur := p.state.events, SnapOf(p);
    ghost var run;
    r, run := RunNamed(p, p.hooks[i].0, runner);
    runs' := if run.Some? then runs + [run.value] else runs;
    Advance(s, runner, start, p.hooks, event, i, base, p.state.phase, runs, before, cur, run, r, p.state.events, SnapOf(p));
  }
}
