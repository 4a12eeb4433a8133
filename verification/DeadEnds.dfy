/** No definitional dead ends: what can still go wrong in reachable states comes from outside. */
module DeadEnds {
  import opened Wrappers
  import opened Core
  import opened Runbook
  import opened State
  import opened Plans
  import opened Execution
  import opened Shapes
  import opened Safety
  import opened Walks
  import opened Routes

  /** Sessions are spawned in the workspace `id` only, and no workspace is deleted. */
  ghost predicate SpawnsIn(effects: seq<Effect>, id: string) {
    forall e :: e in effects ==>
      && (e.Spawn? ==> e.workspaceId == id)
      && (e.Persist? ==> !e.operation.WorkspaceDelete?)
  }

  ghost predicate WorkspaceReady(m: Machine, effects: seq<Effect>, id: string) {
    id in m.tables.workspaces
    || effects == []
    || (effects[0].Persist? && effects[0].operation.WorkspaceCreate? && effects[0].operation.id == id)
  }

  ghost predicate StaysIn(p: Plan, id: string) {
    SpawnsIn(p.effects, id) && (p.fail.Some? ==> !p.fail.value.WorkspaceNotFound?)
  }

  ghost predicate NoSpawns(effects: seq<Effect>) { forall e :: e in effects ==> !e.Spawn? }

  lemma {:induction false} EffectsFailFromOutside(w: World, m: Machine, effects: seq<Effect>, id: string)
    requires SpawnsIn(effects, id) && WorkspaceReady(m, effects, id)
    ensures var o := ExecAll(w, m, effects).outcome; o.Err? ==> o.error.FromOutside()
    decreases |effects|
  {
    if effects != [] {
      assert effects[0] in effects;
      var first := Exec(w, m, effects[0]);
      if first.outcome.Ok? {
        EffectsFailFromOutside(w, first.machine, effects[1..], id);
      }
    }
  }

  // ------------------------------------------------------ where plans spawn

  lemma StartSpawns(rb: Runbook, w: World, p: Pipeline, phase: string, inputs: map<string, string>, workspace: string)
    ensures StaysIn(StartPlan(rb, w, p, phase, inputs, workspace), p.id)
  {
  }

  lemma AdvanceSpawns(rb: Runbook, w: World, p: Pipeline)
    ensures StaysIn(AdvancePlan(rb, w, p), p.id)
  {
    if !p.Terminal() && NextPhaseName(rb, p).Some? {
      StartSpawns(rb, w, p, NextPhaseName(rb, p).value, p.inputs, WorkspacePath(w, p));
    }
  }

  lemma FailSpawns(rb: Runbook, w: World, p: Pipeline, error: string)
    ensures StaysIn(FailPlan(rb, w, p, error), p.id)
  {
    if OnFail(rb, p).Some? {
      StartSpawns(rb, w, p, OnFail(rb, p).value, p.inputs, WorkspacePath(w, p));
    }
  }

  lemma RespawnSpawns(rb: Runbook, w: World, p: Pipeline, agent: string, before: seq<Effect>,
                      inputs: map<string, string>)
    requires before == KillEffects(p) || before == KillEffects(p) + RemoveEffects(p)
    ensures StaysIn(Before(before, SpawnPlan(rb, w, p, agent, inputs)), p.id)
  {
    assert StaysIn(SpawnPlan(rb, w, p, agent, inputs), p.id);
    assert SpawnsIn(before, p.id);
  }

  lemma ActionSpawns(rb: Runbook, w: World, p: Pipeline, agent: AgentDef, config: ActionConfig, trigger: string)
    ensures StaysIn(ActionPlan(rb, w, p, agent, config, trigger), p.id)
  {
    match config.Action()
    case Nudge =>
    case Done => AdvanceSpawns(rb, w, p);
    case Fail => FailSpawns(rb, w, p, trigger);
    case Restart => RespawnSpawns(rb, w, p, agent.name, KillEffects(p) + RemoveEffects(p), p.inputs);
    case Recover => RespawnSpawns(rb, w, p, agent.name, KillEffects(p), RecoverInputs(config, p.inputs));
    case Escalate =>
  }

  lemma CommandSpawns(rb: Runbook, w: World, command: string, args: map<string, string>, id: string)
    ensures StaysIn(InvokePlan(rb, w, command, args, id), id)
  {
    var plan := InvokePlan(rb, w, command, args, id);
    if plan.effects != [] {
      var kind := rb.commands[command].run.pipeline;
      var name := if "name" in args then args["name"] else id;
      var def := rb.pipelines[kind];
      if def.phases != [] {
        StartSpawns(rb, w, NewPipeline(id, name, kind, args, def.phases[0].name), def.phases[0].name, args,
                    Join(w.worktreeRoot, name));
      }
    }
  }

  lemma ShellSpawns(rb: Runbook, w: World, t: Tables, id: string, phase: string, code: int)
    requires t.Keyed()
    ensures StaysIn(ShellPlan(rb, w, t, id, phase, code), id)
  {
    if id in t.pipelines {
      AdvanceSpawns(rb, w, t.pipelines[id]);
      FailSpawns(rb, w, t.pipelines[id], ShellError(code));
    }
  }

  lemma AgentSpawns(rb: Runbook, w: World, t: Tables, ref: string, error: Option<string>)
    ensures StaysIn(AgentPlan(rb, w, t, ref, error), Resolved(t, ref))
  {
    if GetPipeline(t, ref).Some? {
      var p := GetPipeline(t, ref).value;
      AdvanceSpawns(rb, w, p);
      FailSpawns(rb, w, p, if error.Some? then error.value else "");
    }
  }

  lemma ExitSpawns(rb: Runbook, w: World, t: Tables, session: string, code: int)
    ensures StaysIn(SessionExitPlan(rb, w, t, session, code),
                    if OwnerOf(w, t, session).Some? then OwnerOf(w, t, session).value.id else "")
  {
    if OwnerOf(w, t, session).Some? {
      AdvanceSpawns(rb, w, AfterSessionExit(OwnerOf(w, t, session).value, code).0);
    }
  }

  lemma ClaudeExitSpawns(rb: Runbook, w: World, t: Tables, ref: string)
    ensures StaysIn(ClaudeExitedPlan(rb, w, t, ref), Resolved(t, ref))
  {
    if GetPipeline(t, ref).Some? {
      var p := GetPipeline(t, ref).value;
      if !p.Terminal() && AgentDefOf(rb, p).Ok? {
        var agent := AgentDefOf(rb, p).value;
        ActionSpawns(rb, w, p, agent, agent.onExit, "exit");
      }
    }
  }

  lemma TmuxExitSpawns(rb: Runbook, w: World, t: Tables, ref: string)
    ensures StaysIn(TmuxExitedPlan(rb, w, t, ref), Resolved(t, ref))
  {
    if GetPipeline(t, ref).Some? {
      FailSpawns(rb, w, GetPipeline(t, ref).value, "tmux session exited");
    }
  }

  lemma CallSpawns(rb: Runbook, w: World, m: Machine, call: Call)
    requires m.tables.Keyed()
    ensures StaysIn(CallPlan(rb, w, m, call), CallTarget(w, m, call))
  {
    match call
    case Deliver(event) => EventSpawns(rb, w, m, event);
    case TmuxExited(ref) => TmuxExitSpawns(rb, w, m.tables, ref);
    case ClaudeExited(ref) => ClaudeExitSpawns(rb, w, m.tables, ref);
  }

  lemma EventSpawns(rb: Runbook, w: World, m: Machine, event: Event)
    requires m.tables.Keyed()
    ensures StaysIn(EventPlan(rb, w, m.tables, m.tick, event), EventTarget(w, m.tables, m.tick, event))
  {
    var t := m.tables;
    match event
    case CommandInvoked(command, args) => CommandSpawns(rb, w, command, args, w.ids(m.tick));
    case SessionExited(session, code) => ExitSpawns(rb, w, t, session, code);
    case AgentDone(ref) => AgentSpawns(rb, w, t, ref, None);
    case AgentError(ref, error) => AgentSpawns(rb, w, t, ref, Some(error));
    case ShellCompleted(id, phase, code) => ShellSpawns(rb, w, t, id, phase, code);
    case Timer(id) =>
      MonitorSpawns(rb, w, t, TimerPipeline(id), w.answers(m.tick).session);
    case Custom(_, _) =>
    case WorkerWake(_) =>
    case SessionStarted(_) =>
    case SessionOutput(_, _) =>
  }

  lemma MonitorSpawns(rb: Runbook, w: World, t: Tables, ref: string, seen: Option<SessionState>)
    requires t.Keyed()
    ensures StaysIn(MonitorPlan(rb, w, t, ref, seen), Resolved(t, ref))
  {
    if GetPipeline(t, ref).Some? {
      var p := GetPipeline(t, ref).value;
      if !p.Terminal() && AgentDefOf(rb, p).Ok? && p.workspacePath.Some? && seen.Some? {
        var agent := AgentDefOf(rb, p).value;
        ActionSpawns(rb, w, p, agent, agent.onIdle, "idle");
        if seen.value.SessionFailure? {
          var reason := seen.value.reason;
          ActionSpawns(rb, w, p, agent, agent.onError.ActionFor(ErrorTypeOf(reason)), MessageOf(reason));
        }
      }
    }
  }

  lemma EventHasWorkspace(rb: Runbook, w: World, m: Machine, event: Event)
    requires Invariant(w, m)
    ensures var effects := EventPlan(rb, w, m.tables, m.tick, event).effects;
            var target := EventTarget(w, m.tables, m.tick, event);
            WorkspaceReady(m, effects, target) || NoSpawns(effects)
  {
    InvariantIsSound(w, m);
    match event
    case CommandInvoked(_, _) =>
    case SessionExited(_, _) =>
    case AgentDone(ref) => LookupIsStored(m.tables, ref);
    case AgentError(ref, _) => LookupIsStored(m.tables, ref);
    case ShellCompleted(_, _, _) =>
    case Timer(id) => LookupIsStored(m.tables, TimerPipeline(id));
    case Custom(_, _) =>
    case WorkerWake(_) =>
    case SessionStarted(_) =>
    case SessionOutput(_, _) =>
  }

  lemma CallHasWorkspace(rb: Runbook, w: World, m: Machine, call: Call)
    requires Invariant(w, m)
    ensures var effects := CallPlan(rb, w, m, call).effects;
            WorkspaceReady(m, effects, CallTarget(w, m, call)) || NoSpawns(effects)
  {
    InvariantIsSound(w, m);
    match call
    case Deliver(event) => EventHasWorkspace(rb, w, m, event);
    case TmuxExited(ref) => LookupIsStored(m.tables, ref);
    case ClaudeExited(ref) => LookupIsStored(m.tables, ref);
  }

  /** Main result, any runbook: in a reachable state a call ends in an error of the outside world
      or in the definitional error its plan carries; a missing workspace is never met. */
  lemma WorkspaceIsNeverMissing(rb: Runbook, w: World, m: Machine, call: Call)
    requires Invariant(w, m)
    ensures var plan := CallPlan(rb, w, m, call);
            var o := RunPlan(w, m, plan).outcome;
            o.Err? ==> !o.error.WorkspaceNotFound? && (o.error.FromOutside() || plan.fail == Some(o.error))
  {
    InvariantIsSound(w, m);
    var plan := CallPlan(rb, w, m, call);
    var target := CallTarget(w, m, call);
    CallSpawns(rb, w, m, call);
    CallHasWorkspace(rb, w, m, call);
    if WorkspaceReady(m, plan.effects, target) {
      EffectsFailFromOutside(w, m, plan.effects, target);
    } else {
      NoSpawnFailsFromOutside(w, m, plan.effects);
    }
  }

  lemma {:induction false} NoSpawnFailsFromOutside(w: World, m: Machine, effects: seq<Effect>)
    requires NoSpawns(effects)
    ensures var o := ExecAll(w, m, effects).outcome; o.Err? ==> o.error.FromOutside()
    decreases |effects|
  {
    if effects != [] {
      assert effects[0] in effects;
      if Exec(w, m, effects[0]).outcome.Ok? {
        NoSpawnFailsFromOutside(w, Exec(w, m, effects[0]).machine, effects[1..]);
      }
    }
  }

  // --------------------------------------------------- closed runbooks refuse nothing

  lemma StartIsDefined(rb: Runbook, w: World, p: Pipeline, phase: string, inputs: map<string, string>,
                       workspace: string)
    requires p.kind in rb.pipelines && ClosedDef(rb, rb.pipelines[p.kind]) && rb.pipelines[p.kind].Has(phase)
    ensures StartPlan(rb, w, p, phase, inputs, workspace).fail.None?
  {
    var def := rb.pipelines[p.kind];
    assert ClosedPhase(rb, def, def.phases[def.IndexOf(phase)]);
  }

  lemma AdvanceIsDefined(rb: Runbook, w: World, p: Pipeline)
    requires p.kind in rb.pipelines && ClosedDef(rb, rb.pipelines[p.kind])
    ensures AdvancePlan(rb, w, p).fail.None?
  {
    var def := rb.pipelines[p.kind];
    if !p.Terminal() && NextPhaseName(rb, p).Some? {
      var next := NextPhaseName(rb, p).value;
      assert ClosedPhase(rb, def, def.phases[def.IndexOf(p.phase)]);
      if def.Has(next) {
        StartIsDefined(rb, w, p, next, p.inputs, WorkspacePath(w, p));
      }
    }
  }

  lemma FailIsDefined(rb: Runbook, w: World, p: Pipeline, error: string)
    requires p.kind in rb.pipelines && ClosedDef(rb, rb.pipelines[p.kind])
    ensures FailPlan(rb, w, p, error).fail.None?
  {
    OnFailIsFailureTarget(rb, p);
    if OnFail(rb, p).Some? {
      var def := rb.pipelines[p.kind];
      assert ClosedPhase(rb, def, def.phases[def.IndexOf(p.phase)]);
      StartIsDefined(rb, w, p, OnFail(rb, p).value, p.inputs, WorkspacePath(w, p));
    }
  }

  lemma ActionIsDefined(rb: Runbook, w: World, p: Pipeline, agent: AgentDef, config: ActionConfig, trigger: string)
    requires p.kind in rb.pipelines && ClosedDef(rb, rb.pipelines[p.kind])
    requires agent.name in rb.agents && !config.Action().Nudge?
    ensures ActionPlan(rb, w, p, agent, config, trigger).fail.None?
  {
    AdvanceIsDefined(rb, w, p);
    FailIsDefined(rb, w, p, trigger);
  }

  /** The call reports about a stored pipeline: done, error, a shell's exit or the loss of its session; or
      the exit of its agent, when that is in its phase, goes by the name it is defined under, and is not to
      be nudged then. */
  ghost predicate Addresses(rb: Runbook, t: Tables, call: Call) {
    match call
    case Deliver(AgentDone(ref)) => GetPipeline(t, ref).Some?
    case Deliver(AgentError(ref, _)) => GetPipeline(t, ref).Some?
    case Deliver(ShellCompleted(id, _, _)) => id in t.pipelines
    case TmuxExited(ref) => GetPipeline(t, ref).Some?
    case ClaudeExited(ref) =>
      && GetPipeline(t, ref).Some?
      && var p := GetPipeline(t, ref).value;
         p.Terminal()
         || (&& AgentDefOf(rb, p).Ok? && AgentDefOf(rb, p).value.name in rb.agents
             && !AgentDefOf(rb, p).value.onExit.Action().Nudge?)
    case _ => false
  }

  lemma StoredIsClosed(rb: Runbook, t: Tables, p: Pipeline)
    requires Closed(rb) && Placed(rb, t) && Stored(t, p)
    ensures p.kind in rb.pipelines && ClosedDef(rb, rb.pipelines[p.kind])
  {
  }

  lemma ReportIsDefined(rb: Runbook, w: World, t: Tables, ref: string, error: Option<string>)
    requires Closed(rb) && Placed(rb, t) && t.Keyed() && GetPipeline(t, ref).Some?
    ensures AgentPlan(rb, w, t, ref, error).fail.None? && TmuxExitedPlan(rb, w, t, ref).fail.None?
  {
    var p := GetPipeline(t, ref).value;
    LookupIsStored(t, ref);
    StoredIsClosed(rb, t, p);
    AdvanceIsDefined(rb, w, p);
    FailIsDefined(rb, w, p, if error.Some? then error.value else "");
    FailIsDefined(rb, w, p, "tmux session exited");
  }

  lemma ShellReportIsDefined(rb: Runbook, w: World, t: Tables, id: string, phase: string, code: int)
    requires Closed(rb) && Placed(rb, t) && t.Keyed() && id in t.pipelines
    ensures ShellPlan(rb, w, t, id, phase, code).fail.None?
  {
    StoredIsClosed(rb, t, t.pipelines[id]);
    AdvanceIsDefined(rb, w, t.pipelines[id]);
    FailIsDefined(rb, w, t.pipelines[id], ShellError(code));
  }

  lemma ClaudeExitIsDefined(rb: Runbook, w: World, t: Tables, ref: string)
    requires Closed(rb) && Placed(rb, t) && t.Keyed() && Addresses(rb, t, ClaudeExited(ref))
    ensures ClaudeExitedPlan(rb, w, t, ref).fail.None?
  {
    var p := GetPipeline(t, ref).value;
    LookupIsStored(t, ref);
    StoredIsClosed(rb, t, p);
    if !p.Terminal() {
      var agent := AgentDefOf(rb, p).value;
      ActionIsDefined(rb, w, p, agent, agent.onExit, "exit");
    }
  }

  lemma AddressedIsDefined(rb: Runbook, w: World, m: Machine, call: Call)
    requires Closed(rb) && RouteInvariant(rb, w, m) && Addresses(rb, m.tables, call)
    ensures CallPlan(rb, w, m, call).fail.None?
  {
    InvariantIsSound(w, m);
    match call
    case Deliver(AgentDone(ref)) => ReportIsDefined(rb, w, m.tables, ref, None);
    case Deliver(AgentError(ref, error)) => ReportIsDefined(rb, w, m.tables, ref, Some(error));
    case Deliver(ShellCompleted(id, phase, code)) => ShellReportIsDefined(rb, w, m.tables, id, phase, code);
    case TmuxExited(ref) => ReportIsDefined(rb, w, m.tables, ref, None);
    case ClaudeExited(ref) => ClaudeExitIsDefined(rb, w, m.tables, ref);
  }

  /** Main result: where all that commands run is defined, in every reachable state, reports about a stored
      pipeline fail only when the outside world fails. */
  lemma NoDeadEnds(rb: Runbook, w: World, m: Machine, call: Call)
    requires Closed(rb) && RouteInvariant(rb, w, m) && Addresses(rb, m.tables, call)
    ensures var o := RunPlan(w, m, CallPlan(rb, w, m, call)).outcome; o.Err? ==> o.error.FromOutside()
  {
    AddressedIsDefined(rb, w, m, call);
    WorkspaceIsNeverMissing(rb, w, m, call);
  }
}
