/** Workspace agreement: everything a pipeline runs, it runs in the directory of its workspace record. */
module Directories {
  import opened Wrappers
  import opened Core
  import opened Runbook
  import opened State
  import opened Plans
  import opened Execution
  import opened Shapes
  import opened Safety
  import Recovery

  /** A directory that the `cwd` of an agent of the runbook names, seen from `path`. */
  ghost predicate AgentCwd(rb: Runbook, w: World, path: string, dir: string) {
    exists agent, vars :: agent in rb.agents && EffectiveCwd(w, rb.agents[agent], vars, path) == Some(dir)
  }

  /** Shell commands run in `path`, sessions are spawned for the same pipeline, with an override only
      where the agent has a `cwd`, and prompts are prepared in `path`; and no workspace record changes. */
  ghost predicate InDirectory(rb: Runbook, w: World, e: Effect, id: string, path: string) {
    && (e.Shell? ==> e.pipelineId == id && e.cwd == path)
    && (e.Spawn? ==> e.workspaceId == id && (e.cwdOverride.Some? ==> AgentCwd(rb, w, path, e.cwdOverride.value)))
    && (e.Prepare? ==> e.workspace == path)
    && (e.Persist? ==> !e.operation.WorkspaceCreate? && !e.operation.WorkspaceDelete?)
  }

  ghost predicate AllIn(rb: Runbook, w: World, effects: seq<Effect>, id: string, path: string) {
    forall e :: e in effects ==> InDirectory(rb, w, e, id, path)
  }

  lemma SpawnInDirectory(rb: Runbook, w: World, p: Pipeline, agent: string, inputs: map<string, string>)
    ensures AllIn(rb, w, SpawnPlan(rb, w, p, agent, inputs).effects, p.id, WorkspacePath(w, p))
  {
  }

  lemma StartInDirectory(rb: Runbook, w: World, p: Pipeline, phase: string, inputs: map<string, string>)
    ensures AllIn(rb, w, StartPlan(rb, w, p, phase, inputs, WorkspacePath(w, p)).effects, p.id, WorkspacePath(w, p))
  {
    if HasPhase(rb, p.kind, phase) {
      var run := rb.pipelines[p.kind].GetPhase(phase).value.run;
      if run.RunAgent? {
        SpawnInDirectory(rb, w, p, run.agent, inputs);
      }
    }
  }

  lemma AllInBoth(rb: Runbook, w: World, head: seq<Effect>, rest: Plan, id: string, path: string)
    requires AllIn(rb, w, head, id, path) && AllIn(rb, w, rest.effects, id, path)
    ensures AllIn(rb, w, Before(head, rest).effects, id, path)
  {
  }

  lemma CompleteInDirectory(rb: Runbook, w: World, p: Pipeline)
    ensures AllIn(rb, w, CompletionEffects(p), p.id, WorkspacePath(w, p))
  {
  }

  lemma AdvanceInDirectory(rb: Runbook, w: World, p: Pipeline)
    ensures AllIn(rb, w, AdvancePlan(rb, w, p).effects, p.id, WorkspacePath(w, p))
  {
    var path := WorkspacePath(w, p);
    CompleteInDirectory(rb, w, p);
    if !p.Terminal() {
      var next := if NextPhaseName(rb, p).Some? then NextPhaseName(rb, p).value else "done";
      var head := PhaseTransitionEffects(p, next);
      assert AllIn(rb, w, head, p.id, path);
      StartInDirectory(rb, w, p, next, p.inputs);
      AllInBoth(rb, w, head, CompletePlan(p), p.id, path);
      AllInBoth(rb, w, head, StartPlan(rb, w, p, next, p.inputs, path), p.id, path);
    }
  }

  lemma FailInDirectory(rb: Runbook, w: World, p: Pipeline, error: string)
    ensures AllIn(rb, w, FailPlan(rb, w, p, error).effects, p.id, WorkspacePath(w, p))
  {
    if OnFail(rb, p).Some? {
      StartInDirectory(rb, w, p, OnFail(rb, p).value, p.inputs);
    }
  }

  lemma RespawnInDirectory(rb: Runbook, w: World, p: Pipeline, agent: string, before: seq<Effect>,
                           inputs: map<string, string>)
    requires before == KillEffects(p) || before == KillEffects(p) + RemoveEffects(p)
    ensures AllIn(rb, w, Before(before, SpawnPlan(rb, w, p, agent, inputs)).effects, p.id, WorkspacePath(w, p))
  {
    SpawnInDirectory(rb, w, p, agent, inputs);
    assert AllIn(rb, w, before, p.id, WorkspacePath(w, p));
  }

  lemma ActionInDirectory(rb: Runbook, w: World, p: Pipeline, agent: AgentDef, config: ActionConfig, trigger: string)
    ensures AllIn(rb, w, ActionPlan(rb, w, p, agent, config, trigger).effects, p.id, WorkspacePath(w, p))
  {
    match config.Action()
    case Nudge =>
    case Done => AdvanceInDirectory(rb, w, p);
    case Fail => FailInDirectory(rb, w, p, trigger);
    case Restart => RespawnInDirectory(rb, w, p, agent.name, KillEffects(p) + RemoveEffects(p), p.inputs);
    case Recover => RespawnInDirectory(rb, w, p, agent.name, KillEffects(p), RecoverInputs(config, p.inputs));
    case Escalate =>
  }

  // ------------------------------------------------------------- agreement

  /** What the engine computes for a pipeline is what its workspace record says. */
  lemma ComputedIsRecorded(w: World, m: Machine, id: string)
    requires Invariant(w, m) && id in m.tables.pipelines
    ensures id in m.tables.workspaces && WorkspacePath(w, m.tables.pipelines[id]) == m.tables.workspaces[id].path
  {
    InvariantIsSound(w, m);
  }

  /** What a place agrees with: the pipeline's workspace record, unless an agent's own `cwd` decided. */
  ghost predicate Agrees(rb: Runbook, w: World, t: Tables, p: Place) {
    && p.id in t.workspaces
    && if p.overridden then AgentCwd(rb, w, t.workspaces[p.id].path, p.dir) else p.dir == t.workspaces[p.id].path
  }

  ghost predicate PlacesAgree(rb: Runbook, w: World, m: Machine) {
    forall p :: p in m.places ==> Agrees(rb, w, m.tables, p)
  }

  /** The pipeline's record says `path`, or the effects need no directory. */
  ghost predicate Located(t: Tables, effects: seq<Effect>, id: string, path: string) {
    || (id in t.workspaces && t.workspaces[id].path == path)
    || (forall e :: e in effects ==> !e.Shell? && !e.Spawn?)
  }

  lemma EffectAgrees(rb: Runbook, w: World, m: Machine, e: Effect, id: string, path: string)
    requires PlacesAgree(rb, w, m) && AllIn(rb, w, [e], id, path) && Located(m.tables, [e], id, path)
    ensures PlacesAgree(rb, w, Exec(w, m, e).machine)
    ensures Exec(w, m, e).machine.tables.workspaces == m.tables.workspaces
  {
    assert e in [e];
    var n := Exec(w, m, e).machine;
    assert n.places == m.places + PlacesOf(m.tables, e);
    forall p | p in n.places
      ensures Agrees(rb, w, n.tables, p)
    {
      assert p in m.places ==> Agrees(rb, w, m.tables, p);
    }
  }

  lemma {:induction false} EffectsAgree(rb: Runbook, w: World, m: Machine, effects: seq<Effect>, id: string,
                                        path: string)
    requires PlacesAgree(rb, w, m) && AllIn(rb, w, effects, id, path) && Located(m.tables, effects, id, path)
    ensures PlacesAgree(rb, w, ExecAll(w, m, effects).machine)
    decreases |effects|
  {
    if effects != [] {
      var first := Exec(w, m, effects[0]);
      assert effects[0] in effects;
      EffectAgrees(rb, w, m, effects[0], id, path);
      if first.outcome.Ok? {
        EffectsAgree(rb, w, first.machine, effects[1..], id, path);
      }
    }
  }

  lemma CreationAgrees(rb: Runbook, w: World, m: Machine, effects: seq<Effect>, id: string, path: string,
                       branch: string)
    requires PlacesAgree(rb, w, m) && id !in m.tables.workspaces
    requires effects != [] && effects[0] == Persist(WorkspaceCreate(id, path, branch))
    requires AllIn(rb, w, effects[1..], id, path)
    ensures PlacesAgree(rb, w, ExecAll(w, m, effects).machine)
  {
    var first := Exec(w, m, effects[0]);
    assert first.machine.places == m.places;
    forall p | p in first.machine.places
      ensures Agrees(rb, w, first.machine.tables, p)
    {
      assert Agrees(rb, w, m.tables, p);
    }
    if first.outcome.Ok? {
      EffectsAgree(rb, w, first.machine, effects[1..], id, path);
    }
  }

  // ------------------------------------------------------------- every input

  lemma StoredInDirectory(rb: Runbook, w: World, m: Machine, p: Pipeline)
    requires Invariant(w, m) && Stored(m.tables, p)
    ensures p.id in m.tables.workspaces && m.tables.workspaces[p.id].path == WorkspacePath(w, p)
  {
    InvariantIsSound(w, m);
    assert SoundPipeline(w, m.tables, p.id);
  }

  lemma CreationInDirectory(rb: Runbook, w: World, id: string, kind: string, name: string,
                            args: map<string, string>, initial: string, path: string)
    ensures AllIn(rb, w, CreateEffects(id, kind, name, args, initial, path)[1..], id, path)
  {
  }

  lemma AllInAppend(rb: Runbook, w: World, a: seq<Effect>, b: seq<Effect>, id: string, path: string)
    requires a != [] && AllIn(rb, w, a[1..], id, path) && AllIn(rb, w, b, id, path)
    ensures AllIn(rb, w, (a + b)[1..], id, path)
  {
    assert (a + b)[1..] == a[1..] + b;
  }

  lemma CommandInDirectory(rb: Runbook, w: World, kind: string, id: string, args: map<string, string>)
    requires kind in rb.pipelines
    ensures var name := if "name" in args then args["name"] else id;
            var path := Join(w.worktreeRoot, name);
            var effects := CommandPlan(rb, w, kind, rb.pipelines[kind], id, args).effects;
            && effects != [] && effects[0] == Persist(WorkspaceCreate(id, path, "feature/" + name))
            && AllIn(rb, w, effects[1..], id, path)
  {
    var name := if "name" in args then args["name"] else id;
    var path := Join(w.worktreeRoot, name);
    var def := rb.pipelines[kind];
    var initial := if def.FirstPhase().Some? then def.FirstPhase().value.name else "init";
    var p := NewPipeline(id, name, kind, args, initial);
    var head := CreateEffects(id, kind, name, args, initial, path);
    var rest := FirstPlan(rb, w, def, p, args, path);
    if def.phases != [] {
      StartInDirectory(rb, w, p, initial, args);
    }
    CreationInDirectory(rb, w, id, kind, name, args, initial, path);
    AllInAppend(rb, w, head, rest.effects, id, path);
    assert CommandPlan(rb, w, kind, def, id, args) == Before(head, rest);
  }

  /** What a handler of the pipeline that `ref` names does stays in that pipeline's directory. */
  lemma AgentInDirectory(rb: Runbook, w: World, m: Machine, ref: string, error: Option<string>)
    requires Invariant(w, m) && GetPipeline(m.tables, ref).Some?
    ensures var id := GetPipeline(m.tables, ref).value.id;
            var effects := AgentPlan(rb, w, m.tables, ref, error).effects;
            && id in m.tables.workspaces
            && AllIn(rb, w, effects, id, m.tables.workspaces[id].path)
            && Located(m.tables, effects, id, m.tables.workspaces[id].path)
  {
    InvariantIsSound(w, m);
    LookupIsStored(m.tables, ref);
    var p := GetPipeline(m.tables, ref).value;
    StoredInDirectory(rb, w, m, p);
    if error.None? {
      AdvanceInDirectory(rb, w, p);
    } else {
      FailInDirectory(rb, w, p, error.value);
    }
  }

  lemma ReportInDirectory(rb: Runbook, w: World, m: Machine, id: string, phase: string, code: int)
    requires Invariant(w, m) && id in m.tables.pipelines
    ensures var effects := ShellPlan(rb, w, m.tables, id, phase, code).effects;
            && id in m.tables.workspaces
            && AllIn(rb, w, effects, id, m.tables.workspaces[id].path)
            && Located(m.tables, effects, id, m.tables.workspaces[id].path)
  {
    InvariantIsSound(w, m);
    var p := m.tables.pipelines[id];
    StoredInDirectory(rb, w, m, p);
    AdvanceInDirectory(rb, w, p);
    FailInDirectory(rb, w, p, ShellError(code));
  }

  lemma EventInDirectory(rb: Runbook, w: World, m: Machine, event: Event) returns (id: string, path: string)
    requires Invariant(w, m) && !event.CommandInvoked?
    ensures var effects := EventPlan(rb, w, m.tables, m.tick, event).effects;
            AllIn(rb, w, effects, id, path) && Located(m.tables, effects, id, path)
  {
    var t := m.tables;
    id := EventTarget(w, t, m.tick, event);
    path := if id in t.workspaces then t.workspaces[id].path else "";
    match event {
      case SessionExited(_, _) => SilentEvent(rb, w, m, event);
      case AgentDone(ref) =>
        if GetPipeline(t, ref).Some? {
          AgentInDirectory(rb, w, m, ref, None);
        }
      case AgentError(ref, error) =>
        if GetPipeline(t, ref).Some? {
          AgentInDirectory(rb, w, m, ref, Some(error));
        }
      case ShellCompleted(id, phase, code) =>
        if id in t.pipelines {
          ReportInDirectory(rb, w, m, id, phase, code);
        }
      case Timer(_) => SilentEvent(rb, w, m, event);
      case Custom(_, _) =>
      case WorkerWake(_) =>
      case SessionStarted(_) =>
      case SessionOutput(_, _) =>
    }
  }

  lemma AllInPrefix(rb: Runbook, w: World, effects: seq<Effect>, n: nat, id: string, path: string, t: Tables)
    requires n <= |effects| && AllIn(rb, w, effects, id, path)
    ensures AllIn(rb, w, effects[..n], id, path)
    ensures Located(t, effects, id, path) ==> Located(t, effects[..n], id, path)
  {
  }

  /** Running the plan of an event, or a prefix of it. */
  lemma EventAgrees(rb: Runbook, w: World, m: Machine, event: Event, n: nat)
    requires FreshIds(w) && Invariant(w, m) && PlacesAgree(rb, w, m)
    requires n <= |EventPlan(rb, w, m.tables, m.tick, event).effects|
    ensures PlacesAgree(rb, w, ExecAll(w, m, EventPlan(rb, w, m.tables, m.tick, event).effects[..n]).machine)
  {
    var effects := EventPlan(rb, w, m.tables, m.tick, event).effects;
    if n == 0 {
      assert effects[..n] == [];
    } else if event.CommandInvoked? {
      CommandAgrees(rb, w, m, event.command, event.args, n);
    } else {
      var id, path := EventInDirectory(rb, w, m, event);
      AllInPrefix(rb, w, effects, n, id, path, m.tables);
      EffectsAgree(rb, w, m, effects[..n], id, path);
    }
  }

  lemma CommandAgrees(rb: Runbook, w: World, m: Machine, command: string, args: map<string, string>, n: nat)
    requires FreshIds(w) && Invariant(w, m) && PlacesAgree(rb, w, m)
    requires 0 < n <= |InvokePlan(rb, w, command, args, w.ids(m.tick)).effects|
    ensures PlacesAgree(rb, w, ExecAll(w, m, InvokePlan(rb, w, command, args, w.ids(m.tick)).effects[..n]).machine)
  {
    InvariantIsSound(w, m);
    var id := w.ids(m.tick);
    var effects := InvokePlan(rb, w, command, args, id).effects;
    CommandInDirectory(rb, w, rb.commands[command].run.pipeline, id, args);
    var name := if "name" in args then args["name"] else id;
    var path := Join(w.worktreeRoot, name);
    AllInPrefix(rb, w, effects[1..], n - 1, id, path, m.tables);
    assert effects[..n][1..] == effects[1..][..n - 1];
    CreationAgrees(rb, w, m, effects[..n], id, path, "feature/" + name);
  }

  lemma TmuxInDirectory(rb: Runbook, w: World, m: Machine, ref: string) returns (id: string, path: string)
    requires Invariant(w, m)
    ensures var effects := TmuxExitedPlan(rb, w, m.tables, ref).effects;
            AllIn(rb, w, effects, id, path) && Located(m.tables, effects, id, path)
  {
    InvariantIsSound(w, m);
    LookupIsStored(m.tables, ref);
    id, path := "", "";
    if GetPipeline(m.tables, ref).Some? {
      var p := GetPipeline(m.tables, ref).value;
      id, path := p.id, WorkspacePath(w, p);
      StoredInDirectory(rb, w, m, p);
      FailInDirectory(rb, w, p, "tmux session exited");
    }
  }

  lemma ClaudeInDirectory(rb: Runbook, w: World, m: Machine, ref: string) returns (id: string, path: string)
    requires Invariant(w, m)
    ensures var effects := ClaudeExitedPlan(rb, w, m.tables, ref).effects;
            AllIn(rb, w, effects, id, path) && Located(m.tables, effects, id, path)
  {
    InvariantIsSound(w, m);
    LookupIsStored(m.tables, ref);
    id, path := "", "";
    if GetPipeline(m.tables, ref).Some? {
      var p := GetPipeline(m.tables, ref).value;
      if !p.Terminal() && AgentDefOf(rb, p).Ok? {
        var agent := AgentDefOf(rb, p).value;
        id, path := p.id, WorkspacePath(w, p);
        StoredInDirectory(rb, w, m, p);
        ActionInDirectory(rb, w, p, agent, agent.onExit, "exit");
      }
    }
  }

  /** Running any call, or as much of it as comes before a crash. */
  lemma CallAgrees(rb: Runbook, w: World, m: Machine, c: Call, n: nat)
    requires FreshIds(w) && Invariant(w, m) && PlacesAgree(rb, w, m)
    requires n <= |CallPlan(rb, w, m, c).effects|
    ensures PlacesAgree(rb, w, ExecAll(w, m, CallPlan(rb, w, m, c).effects[..n]).machine)
  {
    var effects := CallPlan(rb, w, m, c).effects;
    if c.Deliver? {
      EventAgrees(rb, w, m, c.event, n);
    } else {
      var id, path;
      if c.TmuxExited? {
        id, path := TmuxInDirectory(rb, w, m, c.ref);
      } else {
        id, path := ClaudeInDirectory(rb, w, m, c.ref);
      }
      AllInPrefix(rb, w, effects, n, id, path, m.tables);
      EffectsAgree(rb, w, m, effects[..n], id, path);
    }
  }

  lemma InputAgrees(rb: Runbook, w: World, m: Machine, i: Input)
    requires FreshIds(w) && Invariant(w, m) && PlacesAgree(rb, w, m)
    ensures PlacesAgree(rb, w, ExecAll(w, m, InputPlan(rb, w, m, i).effects).machine)
  {
    if !i.Restart? {
      var effects := CallPlan(rb, w, m, if i.Complete? then i.call else i.crashed).effects;
      assert effects[..|effects|] == effects;
      CallAgrees(rb, w, m, if i.Complete? then i.call else i.crashed, |InputPlan(rb, w, m, i).effects|);
    }
  }

  lemma NextIsExec(rb: Runbook, w: World, m: Machine, i: Input)
    requires Invariant(w, m)
    ensures var after := ExecAll(w, m, InputPlan(rb, w, m, i).effects).machine;
            Next(rb, w, m, i).places == after.places && Next(rb, w, m, i).tables == after.tables
  {
    Recovery.LiveIsReplay(w, m, InputPlan(rb, w, m, i).effects);
  }

  lemma {:induction false} RunAgrees(rb: Runbook, w: World, m: Machine, inputs: seq<Input>)
    requires FreshIds(w) && Invariant(w, m) && PlacesAgree(rb, w, m)
    ensures PlacesAgree(rb, w, Run(rb, w, m, inputs))
    decreases |inputs|
  {
    if inputs != [] {
      NextKeepsInvariant(rb, w, m, inputs[0]);
      InputAgrees(rb, w, m, inputs[0]);
      NextIsExec(rb, w, m, inputs[0]);
      RunAgrees(rb, w, Next(rb, w, m, inputs[0]), inputs[1..]);
    }
  }

  /** Main result: over any run, crashes included, every shell command of a pipeline, and every one of
      its sessions whose agent has no `cwd`, was run in one and the same directory, which is the one the
      engine computes for the pipeline; and an agent's `cwd` was taken from there. */
  lemma OneDirectory(rb: Runbook, w: World, inputs: seq<Input>, a: Place, b: Place)
    requires FreshIds(w)
    requires a in Run(rb, w, INITIAL, inputs).places && b in Run(rb, w, INITIAL, inputs).places && a.id == b.id
    ensures var m := Run(rb, w, INITIAL, inputs);
            && (!a.overridden && !b.overridden ==> a.dir == b.dir)
            && (a.id in m.tables.pipelines ==>
                  var path := WorkspacePath(w, m.tables.pipelines[a.id]);
                  if a.overridden then AgentCwd(rb, w, path, a.dir) else a.dir == path)
  {
    var m := Run(rb, w, INITIAL, inputs);
    InitialInvariant(w);
    RunKeepsInvariant(rb, w, INITIAL, inputs);
    RunAgrees(rb, w, INITIAL, inputs);
    assert Agrees(rb, w, m.tables, a) && Agrees(rb, w, m.tables, b);
    if a.id in m.tables.pipelines {
      ComputedIsRecorded(w, m, a.id);
    }
  }
}
