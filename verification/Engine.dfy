/** The engine as it runs: `executor.rs` and `runtime.rs`. Every method is proved to do what its
    plan says, on the machine value the objects stand for. */
module Engine {
  import opened Wrappers
  import opened Core
  import opened Runbook
  import opened State
  import opened Plans
  import opened Execution
  import Shapes
  import Wal
  import Scheduler

  /** The result of one effect, as a list of events. */
  function Returned(r: Result<Option<Event>, Error>): Outcome {
    match r
    case Ok(None) => Ok([])
    case Ok(Some(event)) => Ok([event])
    case Err(e) => Err(e)
  }

  class Executor {
    const world: World
    const wal: Wal.Log
    const state: MaterializedState
    const scheduler: Scheduler.Scheduler
    var tick: nat
    ghost var trace: seq<Effect>
    ghost var places: seq<Place>

    ghost predicate Valid()
      reads this, wal, wal.file, state, scheduler
    {
      wal.Valid() && state.View().Keyed()
    }

    /** The machine these objects stand for. */
    ghost function View(): Machine
      reads this, wal, wal.file, state, scheduler
    {
      Machine(wal.Operations(), state.View(), scheduler.timers, tick, trace, places)
    }

    constructor (world: World, wal: Wal.Log, state: MaterializedState, scheduler: Scheduler.Scheduler, tick: nat,
                 ghost trace: seq<Effect>, ghost places: seq<Place>)
      requires state.View().Keyed()
      ensures this.world == world && this.wal == wal && this.state == state && this.scheduler == scheduler
      ensures wal.Valid() ==> Valid()
      ensures View() == Machine(wal.Operations(), state.View(), scheduler.timers, tick, trace, places)
    {
      this.world, this.wal, this.state, this.scheduler := world, wal, state, scheduler;
      this.tick, this.trace, this.places := tick, trace, places;
    }

    /** `execute`: an event to feed back into the loop, or none. */
    method Execute(effect: Effect) returns (r: Result<Option<Event>, Error>)
      requires Valid()
      modifies this, wal, wal.file, state, scheduler
      ensures Valid()
      ensures Step(View(), Returned(r)) == Exec(world, old(View()), effect)
    {
      var answer := world.answers(tick);
      tick := tick + 1;
      trace := trace + [effect];
      places := places + PlacesOf(state.View(), effect);
      assert View() == Count(old(View()), effect);
      match effect {
        case Spawn(workspace, _, cwd) =>
          if workspace !in state.workspaces { return Err(WorkspaceNotFound(workspace)); }
          var effectiveCwd := if cwd.Some? then cwd.value else state.workspaces[workspace].path;
          assert places[|places| - 1] == Place(workspace, effectiveCwd, cwd.Some?);
          if !answer.ok { return Err(SessionFailed); }
        case SetTimer(id, duration) =>
          scheduler.Set(id, duration, answer.now);
        case CancelTimer(id) =>
          scheduler.Cancel(id);
        case Persist(operation) =>
          var _ :- Record(operation, answer.ok);
        case Shell(id, phase, _, cwd) =>
          assert places[|places| - 1] == Place(id, cwd, false);
          if !answer.ok { return Err(ShellFailed); }
          return Ok(Some(ShellCompleted(id, phase, answer.code)));
        case Notify(_, _) =>
        case _ =>
          var done := CallAdapter(effect, answer);
          if done.Err? { return Err(done.error); }
      }
      r := Ok(None);
    }

    /** The arms that do no more than call an adapter. */
    method CallAdapter(effect: Effect, answer: Answer) returns (r: Result<(), Error>)
      requires effect.Emit? || effect.Prepare? || effect.Send? || effect.Kill?
            || effect.WorktreeAdd? || effect.WorktreeRemove?
      ensures r == if answer.ok then Ok(()) else Err(AdapterError(effect, answer))
    {
      if answer.ok {
        return Ok(());
      }
      match effect {
        case Emit(_) => r := Err(NotifyFailed);
        case Prepare(agent, _) => r := Err(if answer.code == 0 then PromptError(agent) else ShellFailed);
        case Send(_, _) => r := Err(SessionFailed);
        case Kill(_) => r := Err(SessionFailed);
        case WorktreeAdd(_, _) => r := Err(RepoFailed);
        case WorktreeRemove(_) => r := Err(RepoFailed);
      }
    }

    /** The `Persist` arm: the log first, then the tables. */
    method Record(operation: Operation, ok: bool) returns (r: Result<(), Error>)
      requires Valid()
      modifies wal, wal.file, state
      ensures Valid()
      ensures r == if ok then Ok(()) else Err(StorageFailed)
      ensures wal.Operations() == old(wal.Operations()) + if ok then [operation] else []
      ensures state.View() == if ok then ApplyOp(old(state.View()), operation) else old(state.View())
    {
      KeyedAfter(state.View(), operation);
      var _ :- wal.Append(operation, if ok then Wal.Whole(true) else Wal.Part(0));
      state.Apply(operation);
      r := Ok(());
    }

    /** `execute_all`: in order, stopping at the first failure. */
    method ExecuteAll(effects: seq<Effect>) returns (r: Outcome)
      requires Valid()
      modifies this, wal, wal.file, state, scheduler
      ensures Valid()
      ensures Step(View(), r) == ExecAll(world, old(View()), effects)
    {
      var events: seq<Event> := [];
      ghost var m := View();
      ghost var whole := ExecAll(world, m, effects);
      assert effects[0..] == effects;
      NothingYet(whole);
      for i := 0 to |effects|
        invariant Valid() && View() == m
        invariant whole == Prefixed(events, ExecAll(world, m, effects[i..]))
      {
        ghost var step := Exec(world, m, effects[i]);
        ExecTurn(world, m, effects, i, events, step);
        var next :- Execute(effects[i]);
        m := step.machine;
        if next.Some? {
          events := events + [next.value];
        } else {
          assert events + [] == events;
        }
      }
      assert effects[|effects|..] == [];
      assert events + [] == events;
      r := Ok(events);
    }
  }

  /** A step whose events come after some earlier ones. */
  function Prefixed(events: seq<Event>, s: Step): Step { Step(s.machine, Extend(events, s.outcome)) }

  lemma NothingYet(s: Step)
    ensures Prefixed([], s) == s
  {
    if s.outcome.Ok? {
      assert [] + s.outcome.value == s.outcome.value;
    }
  }

  lemma ExecTurn(w: World, m: Machine, effects: seq<Effect>, i: nat, events: seq<Event>, s: Step)
    requires i < |effects| && s == Exec(w, m, effects[i])
    ensures s.outcome.Err? ==> Prefixed(events, ExecAll(w, m, effects[i..])) == s
    ensures s.outcome.Ok? ==>
      Prefixed(events, ExecAll(w, m, effects[i..]))
      == Prefixed(events + s.outcome.value, ExecAll(w, s.machine, effects[i + 1..]))
  {
    assert effects[i..][0] == effects[i] && effects[i..][1..] == effects[i + 1..];
    if s.outcome.Ok? {
      var rest := ExecAll(w, s.machine, effects[i + 1..]).outcome;
      if rest.Ok? {
        assert events + (s.outcome.value + rest.value) == (events + s.outcome.value) + rest.value;
      }
    }
  }

  lemma KeyedAfter(t: Tables, op: Operation)
    requires t.Keyed()
    ensures ApplyOp(t, op).Keyed()
  {
  }

  // ------------------------------------------------------------ action effects

  /** `ActionEffects`: what to do about an idle, failed or exited agent. */
  datatype ActionEffects =
    | NudgeSession(effects: seq<Effect>)
    | AdvancePipeline
    | FailPipeline(error: string)
    | RestartAgent(kill: Option<string>, workspace: Option<string>, agent: string, inputs: map<string, string>)
    | RecoverAgent(kill: Option<string>, agent: string, inputs: map<string, string>)
    | EscalateToHuman(effects: seq<Effect>)

  /** `build_action_effects`. */
  function BuildActionEffects(p: Pipeline, agent: AgentDef, config: ActionConfig,
                              trigger: string): Result<ActionEffects, Error> {
    match config.Action()
    case Nudge =>
      if p.sessionId.None? then Err(PipelineNotFound("no session"))
      else
        var text := if config.Message().Some? then config.Message().value else "Please continue with the task.";
        Ok(NudgeSession([Send(p.sessionId.value, text + "\n")]))
    case Done => Ok(AdvancePipeline)
    case Fail => Ok(FailPipeline(trigger))
    case Restart => Ok(RestartAgent(p.sessionId, p.workspacePath, agent.name, p.inputs))
    case Recover => Ok(RecoverAgent(p.sessionId, agent.name, RecoverInputs(config, p.inputs)))
    case Escalate => Ok(EscalateToHuman(EscalateEffects(p, trigger)))
  }

  /** What carrying out some action effects on the stored record `p` does. */
  function PlanOfEffects(rb: Runbook, w: World, p: Pipeline, effects: ActionEffects): Plan {
    match effects
    case NudgeSession(sends) => Plan(sends + [StartMonitor(p.id)], None)
    case AdvancePipeline => AdvancePlan(rb, w, p)
    case FailPipeline(error) => FailPlan(rb, w, p, error)
    case RestartAgent(kill, workspace, agent, inputs) =>
      Before(OptionalKill(kill) + OptionalRemove(workspace), SpawnPlan(rb, w, p, agent, inputs))
    case RecoverAgent(kill, agent, inputs) =>
      Before(OptionalKill(kill) + OptionalRemove(None), SpawnPlan(rb, w, p, agent, inputs))
    case EscalateToHuman(escalation) => Plan(escalation, None)
  }

  lemma EffectsMeanAction(rb: Runbook, w: World, p: Pipeline, agent: AgentDef, config: ActionConfig, trigger: string,
                          effects: ActionEffects)
    requires BuildActionEffects(p, agent, config, trigger) == Ok(effects)
    ensures PlanOfEffects(rb, w, p, effects) == ActionPlan(rb, w, p, agent, config, trigger)
  {
    assert KillEffects(p) + [] == KillEffects(p);
  }

  function OptionalKill(kill: Option<string>): seq<Effect> { if kill.None? then [] else [Kill(kill.value)] }

  function OptionalRemove(path: Option<string>): seq<Effect> { if path.None? then [] else [WorktreeRemove(path.value)] }

  // ------------------------------------------------- plans and stored records

  /** What plans read of a pipeline besides its phase and session. */
  predicate SameRecord(p: Pipeline, q: Pipeline) {
    p.id == q.id && p.kind == q.kind && p.name == q.name && p.workspacePath == q.workspacePath
  }

  lemma StartOnSameRecord(rb: Runbook, w: World, p: Pipeline, q: Pipeline, phase: string, inputs: map<string, string>,
                          workspace: string)
    requires SameRecord(p, q)
    ensures StartPlan(rb, w, p, phase, inputs, workspace) == StartPlan(rb, w, q, phase, inputs, workspace)
    ensures forall agent :: SpawnPlan(rb, w, p, agent, inputs) == SpawnPlan(rb, w, q, agent, inputs)
  {
    forall agent
      ensures SpawnPlan(rb, w, p, agent, inputs) == SpawnPlan(rb, w, q, agent, inputs)
    {
      assert WorkspacePath(w, p) == WorkspacePath(w, q);
    }
  }

  lemma RunOnSameRecord(rb: Runbook, w: World, p: Pipeline, q: Pipeline, phase: string, run: RunDirective,
                        inputs: map<string, string>, workspace: string)
    requires SameRecord(p, q)
    ensures RunPlanOf(rb, w, p, phase, run, inputs, workspace) == RunPlanOf(rb, w, q, phase, run, inputs, workspace)
  {
    StartOnSameRecord(rb, w, p, q, phase, inputs, workspace);
  }

  /** Effects that write one operation, as most of a handler's first steps do. */
  lemma OneOpDone(w: World, m: Machine, effects: seq<Effect>, op: Operation)
    requires |effects| == 2 && effects[0] == Persist(op) && !effects[1].Persist?
    ensures var s := ExecAll(w, m, effects); s.outcome.Ok? ==> s.machine.tables == ApplyOp(m.tables, op)
  {
    ExecAllWrites(w, m, effects);
    assert effects == [effects[0], effects[1]];
    Shapes.Ops2(effects[0], effects[1]);
    assert ApplyAll(m.tables, [op]) == ApplyAll(ApplyOp(m.tables, op), []);
  }

  lemma CreationDone(w: World, m: Machine, id: string, kind: string, name: string, args: map<string, string>,
                     initial: string, path: string)
    ensures var s := ExecAll(w, m, CreateEffects(id, kind, name, args, initial, path));
            s.outcome.Ok? ==>
              id in s.machine.tables.pipelines
              && s.machine.tables.pipelines[id] == NewPipeline(id, name, kind, args, initial)
  {
    var effects := CreateEffects(id, kind, name, args, initial, path);
    ExecAllWrites(w, m, effects);
    Shapes.CreateWrites(id, kind, name, args, initial, path);
    assert Ops(effects)[..|Ops(effects)|] == Ops(effects);
    var a, b := WorkspaceCreate(id, path, "feature/" + name), PipelineCreate(id, kind, name, args, initial);
    assert [a, b][1..] == [b] && [b][1..] == [];
    assert ApplyAll(m.tables, [a, b]) == ApplyAll(ApplyOp(m.tables, a), [b]);
    assert ApplyAll(ApplyOp(m.tables, a), [b]) == ApplyAll(ApplyOp(ApplyOp(m.tables, a), b), []);
  }

  // ------------------------------------------------------------------ runtime

  class Runtime {
    const executor: Executor
    const runbook: Runbook

    ghost predicate Valid()
      reads this, executor, executor.wal, executor.wal.file, executor.state, executor.scheduler
    {
      executor.Valid()
    }

    ghost function View(): Machine
      reads this, executor, executor.wal, executor.wal.file, executor.state, executor.scheduler
    {
      executor.View()
    }

    constructor (executor: Executor, runbook: Runbook)
      ensures this.executor == executor && this.runbook == runbook
    {
      this.executor, this.runbook := executor, runbook;
    }

    /** `get_pipeline`: by id or unique prefix. */
    method Find(ref: string) returns (p: Option<Pipeline>)
      requires Valid()
      ensures p == GetPipeline(View().tables, ref)
      ensures p.Some? ==> p.value.id in View().tables.pipelines && View().tables.pipelines[p.value.id] == p.value
    {
      var pipelines := executor.state.pipelines;
      if ref in pipelines {
        return Some(pipelines[ref]);
      }
      var matches := set k | k in pipelines && StartsWith(k, ref);
      assert matches == Matches(View().tables, ref);
      if |matches| != 1 {
        return None;
      }
      SingletonIsUnique(matches);
      var k :| k in matches;
      p := Some(pipelines[k]);
    }

    method CompletePipeline(p: Pipeline) returns (r: Outcome)
      requires Valid()
      modifies executor, executor.wal, executor.wal.file, executor.state, executor.scheduler
      ensures Valid()
      ensures Step(View(), r) == RunPlan(executor.world, old(View()), CompletePlan(p))
    {
      var effects := [];
      if !p.Terminal() {
        effects := effects + [Persist(PipelineTransition(p.id, "done"))];
      }
      effects := effects + [Persist(PhaseStatusUpdate(p.id, Completed))];
      effects := effects
        + [Emit(Custom("pipeline:completed", map["pipeline_id" := p.id, "name" := p.name, "kind" := p.kind]))];
      if p.sessionId.Some? {
        effects := effects + [Kill(p.sessionId.value)];
        effects := effects + [Persist(SessionDelete(p.sessionId.value))];
      }
      assert effects == CompletionEffects(p);
      r := executor.ExecuteAll(effects);
    }

    method SpawnAgent(id: string, agent: string, inputs: map<string, string>) returns (r: Outcome)
      requires Valid() && id in View().tables.pipelines
      modifies executor, executor.wal, executor.wal.file, executor.state, executor.scheduler
      ensures Valid()
      ensures Step(View(), r)
           == RunPlan(executor.world, old(View()),
                      SpawnPlan(runbook, executor.world, old(View()).tables.pipelines[id], agent, inputs))
    {
      if agent !in runbook.agents {
        return Err(AgentNotFound(agent));
      }
      var found := Find(id);
      if found.None? {
        return Err(PipelineNotFound(id));
      }
      var effects := SpawnEffects(executor.world, runbook.agents[agent], agent, found.value, inputs);
      effects := effects + [StartMonitor(id)];
      r := executor.ExecuteAll(effects);
    }

    method StartPhase(id: string, phase: string, inputs: map<string, string>, workspace: string) returns (r: Outcome)
      requires Valid()
      modifies executor, executor.wal, executor.wal.file, executor.state, executor.scheduler
      ensures Valid()
      ensures id !in old(View()).tables.pipelines ==> View() == old(View()) && r == Err(PipelineNotFound(id))
      ensures id in old(View()).tables.pipelines ==>
        Step(View(), r)
        == RunPlan(executor.world, old(View()),
                   StartPlan(runbook, executor.world, old(View()).tables.pipelines[id], phase, inputs, workspace))
    {
      ghost var m := View();
      if id !in executor.state.pipelines {
        return Err(PipelineNotFound(id));
      }
      var p := executor.state.pipelines[id];
      if p.kind !in runbook.pipelines {
        return Err(PipelineDefNotFound(p.kind));
      }
      var def := runbook.pipelines[p.kind].GetPhase(phase);
      if def.None? {
        return Err(PipelineNotFound("phase " + phase + " not found"));
      }
      var head := PhaseStartEffects(id, phase);
      RunBefore(executor.world, m, head,
                RunPlanOf(runbook, executor.world, p, phase, def.value.run, inputs, workspace));
      OneOpDone(executor.world, m, head, PhaseStatusUpdate(id, Running));
      var events :- executor.ExecuteAll(head);
      RunOnSameRecord(runbook, executor.world, p, executor.state.pipelines[id], phase, def.value.run, inputs,
                      workspace);
      var more := RunDirectiveOf(id, phase, def.value.run, inputs, workspace);
      r := Extend(events, more);
    }

    /** The dispatch on a phase's directive at the end of `start_phase`. */
    method RunDirectiveOf(id: string, phase: string, run: RunDirective, inputs: map<string, string>, workspace: string)
      returns (r: Outcome)
      requires Valid() && id in View().tables.pipelines
      modifies executor, executor.wal, executor.wal.file, executor.state, executor.scheduler
      ensures Valid()
      ensures Step(View(), r)
           == RunPlan(executor.world, old(View()),
                      RunPlanOf(runbook, executor.world, old(View()).tables.pipelines[id], phase, run, inputs,
                                workspace))
    {
      match run {
        case RunShell(command) =>
          var name := executor.state.pipelines[id].name;
          var vars := inputs["pipeline_id" := id]["name" := name]["workspace" := workspace];
          var text := Template.Interpolate(executor.world.env, command, vars);
          r := executor.ExecuteAll([Shell(id, phase, text, workspace)]);
        case RunAgent(agent) =>
          r := SpawnAgent(id, agent, inputs);
        case RunPipeline(_) =>
          r := Err(InvalidRunDirective("phase " + phase));
        case RunStrategy(_) =>
          r := Err(InvalidRunDirective("phase " + phase));
      }
    }

    /** `advance_pipeline`, on a snapshot of a stored pipeline. */
    method Advance(p: Pipeline) returns (r: Outcome)
      requires Valid() && p.id in View().tables.pipelines && SameRecord(View().tables.pipelines[p.id], p)
      modifies executor, executor.wal, executor.wal.file, executor.state, executor.scheduler
      ensures Valid()
      ensures Step(View(), r) == RunPlan(executor.world, old(View()), AdvancePlan(runbook, executor.world, p))
    {
      ghost var m := View();
      if p.Terminal() {
        r := CompletePipeline(p);
        return;
      }
      var current := PhaseOf(runbook, p);
      var next: Option<string> := None;
      if current.Some? {
        if current.value.next.Some? {
          next := current.value.next;
        } else {
          var following := runbook.pipelines[p.kind].NextPhase(p.phase);
          if following.Some? {
            next := Some(following.value.name);
          }
        }
      }
      assert next == NextPhaseName(runbook, p);
      if next.Some? {
        var head := PhaseTransitionEffects(p, next.value);
        OneOpDone(executor.world, m, head, PipelineTransition(p.id, next.value));
        var workspace := WorkspacePath(executor.world, p);
        if !HasPhase(runbook, p.kind, next.value) && IsTerminal(next.value) {
          RunBefore(executor.world, m, head, CompletePlan(p));
          var events :- executor.ExecuteAll(head);
          var more := CompletePipeline(p);
          r := Extend(events, more);
        } else {
          RunBefore(executor.world, m, head, StartPlan(runbook, executor.world, p, next.value, p.inputs, workspace));
          var events :- executor.ExecuteAll(head);
          StartOnSameRecord(runbook, executor.world, p, executor.state.pipelines[p.id], next.value, p.inputs,
                            workspace);
          var more := StartPhase(p.id, next.value, p.inputs, workspace);
          r := Extend(events, more);
        }
      } else {
        var head := PhaseTransitionEffects(p, "done");
        RunBefore(executor.world, m, head, CompletePlan(p));
        var events :- executor.ExecuteAll(head);
        var more := CompletePipeline(p);
        r := Extend(events, more);
      }
    }

    /** `fail_pipeline`. */
    method FailIt(p: Pipeline, error: string) returns (r: Outcome)
      requires Valid() && p.id in View().tables.pipelines && SameRecord(View().tables.pipelines[p.id], p)
      modifies executor, executor.wal, executor.wal.file, executor.state, executor.scheduler
      ensures Valid()
      ensures Step(View(), r) == RunPlan(executor.world, old(View()), FailPlan(runbook, executor.world, p, error))
    {
      ghost var m := View();
      var onFail := OnFail(runbook, p);
      if onFail.Some? {
        var target := onFail.value;
        var head := FailureTransitionEffects(p, target, error);
        var workspace := WorkspacePath(executor.world, p);
        OneOpDone(executor.world, m, head, PipelineTransition(p.id, target));
        RunBefore(executor.world, m, head, StartPlan(runbook, executor.world, p, target, p.inputs, workspace));
        var events :- executor.ExecuteAll(head);
        StartOnSameRecord(runbook, executor.world, p, executor.state.pipelines[p.id], target, p.inputs, workspace);
        var more := StartPhase(p.id, target, p.inputs, workspace);
        r := Extend(events, more);
      } else {
        r := executor.ExecuteAll(FailureEffects(p, error));
      }
    }

    method KillAndRemove(kill: Option<string>, remove: Option<string>) returns (r: Outcome)
      requires Valid()
      modifies executor, executor.wal, executor.wal.file, executor.state, executor.scheduler
      ensures Valid()
      ensures Step(View(), r) == ExecAll(executor.world, old(View()), OptionalKill(kill) + OptionalRemove(remove))
      ensures View().tables == old(View()).tables
    {
      ghost var w := executor.world;
      ghost var m := View();
      ExecAllAppend(w, m, OptionalKill(kill), OptionalRemove(remove));
      if kill.Some? {
        ExecOne(w, m, Kill(kill.value));
        var _ :- executor.Execute(Kill(kill.value));
      }
      if remove.Some? {
        ExecOne(w, View(), WorktreeRemove(remove.value));
        var _ :- executor.Execute(WorktreeRemove(remove.value));
      }
      r := Ok([]);
    }

    method KillAndRespawn(kill: Option<string>, remove: Option<string>, id: string, agent: string,
                          inputs: map<string, string>)
      returns (r: Outcome)
      requires Valid() && id in View().tables.pipelines
      modifies executor, executor.wal, executor.wal.file, executor.state, executor.scheduler
      ensures Valid()
      ensures Step(View(), r)
           == RunPlan(executor.world, old(View()),
                      Before(OptionalKill(kill) + OptionalRemove(remove),
                             SpawnPlan(runbook, executor.world, old(View()).tables.pipelines[id], agent, inputs)))
    {
      RunBefore(executor.world, View(), OptionalKill(kill) + OptionalRemove(remove),
                SpawnPlan(runbook, executor.world, View().tables.pipelines[id], agent, inputs));
      var events :- KillAndRemove(kill, remove);
      var more := SpawnAgent(id, agent, inputs);
      r := Extend(events, more);
    }

    /** `execute_action_effects`. */
    method ExecuteActionEffects(p: Pipeline, effects: ActionEffects) returns (r: Outcome)
      requires Valid() && p.id in View().tables.pipelines && View().tables.pipelines[p.id] == p
      modifies executor, executor.wal, executor.wal.file, executor.state, executor.scheduler
      ensures Valid()
      ensures Step(View(), r)
           == RunPlan(executor.world, old(View()), PlanOfEffects(runbook, executor.world, p, effects))
    {
      match effects {
        case NudgeSession(sends) =>
          r := executor.ExecuteAll(sends + [StartMonitor(p.id)]);
        case AdvancePipeline =>
          r := Advance(p);
        case FailPipeline(error) =>
          r := FailIt(p, error);
        case RestartAgent(kill, workspace, name, inputs) =>
          r := KillAndRespawn(kill, workspace, p.id, name, inputs);
        case RecoverAgent(kill, name, inputs) =>
          r := KillAndRespawn(kill, None, p.id, name, inputs);
        case EscalateToHuman(escalation) =>
          r := executor.ExecuteAll(escalation);
      }
    }

    /** `build_action_effects`, then `execute_action_effects`. */
    method TakeAction(p: Pipeline, agent: AgentDef, config: ActionConfig, trigger: string) returns (r: Outcome)
      requires Valid() && p.id in View().tables.pipelines && View().tables.pipelines[p.id] == p
      modifies executor, executor.wal, executor.wal.file, executor.state, executor.scheduler
      ensures Valid()
      ensures Step(View(), r)
           == RunPlan(executor.world, old(View()), ActionPlan(runbook, executor.world, p, agent, config, trigger))
    {
      var effects :- BuildActionEffects(p, agent, config, trigger);
      EffectsMeanAction(runbook, executor.world, p, agent, config, trigger, effects);
      r := ExecuteActionEffects(p, effects);
    }

    method ExecuteOnly(effect: Effect) returns (r: Outcome)
      requires Valid() && !effect.Shell?
      modifies executor, executor.wal, executor.wal.file, executor.state, executor.scheduler
      ensures Valid()
      ensures Step(View(), r) == RunPlan(executor.world, old(View()), Plan([effect], None))
    {
      ExecOne(executor.world, View(), effect);
      var _ :- executor.Execute(effect);
      r := Ok([]);
    }

    /** `handle_session_monitor`. */
    method HandleSessionMonitor(ref: string) returns (r: Outcome)
      requires Valid()
      modifies executor, executor.wal, executor.wal.file, executor.state, executor.scheduler
      ensures Valid()
      ensures Step(View(), r)
           == RunPlan(executor.world, old(View()),
                      MonitorPlan(runbook, executor.world, old(View()).tables, ref,
                                  executor.world.answers(old(View()).tick).session))
    {
      var found := Find(ref);
      if found.None? {
        return Err(PipelineNotFound(ref));
      }
      var p := found.value;
      if p.Terminal() {
        return Ok([]);
      }
      var agent :- AgentDefOf(runbook, p);
      if p.workspacePath.None? {
        return Err(PipelineNotFound("no workspace"));
      }
      match executor.world.answers(executor.tick).session {
        case None =>
          r := ExecuteOnly(StartMonitor(ref));
        case Some(Working) =>
          r := ExecuteOnly(StartMonitor(ref));
        case Some(Unknown) =>
          r := ExecuteOnly(StartMonitor(ref));
        case Some(WaitingForInput) =>
          r := TakeAction(p, agent, agent.onIdle, "idle");
        case Some(SessionFailure(reason)) =>
          r := TakeAction(p, agent, agent.onError.ActionFor(ErrorTypeOf(reason)), MessageOf(reason));
      }
    }

    method HandleTimer(id: string) returns (r: Outcome)
      requires Valid()
      modifies executor, executor.wal, executor.wal.file, executor.state, executor.scheduler
      ensures Valid()
      ensures Step(View(), r)
           == RunPlan(executor.world, old(View()),
                      TimerPlan(runbook, executor.world, old(View()).tables, id,
                                executor.world.answers(old(View()).tick).session))
    {
      if StartsWith(id, "session:") && EndsWith(id, ":check") {
        r := HandleSessionMonitor(TimerPipeline(id));
      } else {
        r := Ok([]);
      }
    }

    /** `handle_claude_exited`, called outside the event loop. */
    method HandleClaudeExited(ref: string) returns (r: Outcome)
      requires Valid()
      modifies executor, executor.wal, executor.wal.file, executor.state, executor.scheduler
      ensures Valid()
      ensures Step(View(), r)
           == RunPlan(executor.world, old(View()), ClaudeExitedPlan(runbook, executor.world, old(View()).tables, ref))
    {
      var found := Find(ref);
      if found.None? {
        return Err(PipelineNotFound(ref));
      }
      var p := found.value;
      if p.Terminal() {
        return Ok([]);
      }
      var agent :- AgentDefOf(runbook, p);
      r := TakeAction(p, agent, agent.onExit, "exit");
    }

    /** `handle_tmux_exited`, called outside the event loop. */
    method HandleTmuxExited(ref: string) returns (r: Outcome)
      requires Valid()
      modifies executor, executor.wal, executor.wal.file, executor.state, executor.scheduler
      ensures Valid()
      ensures Step(View(), r)
           == RunPlan(executor.world, old(View()), TmuxExitedPlan(runbook, executor.world, old(View()).tables, ref))
    {
      var found := Find(ref);
      if found.None? {
        return Err(PipelineNotFound(ref));
      }
      r := FailIt(found.value, "tmux session exited");
    }

    /** `handle_custom_event`. */
    method HandleCustom(name: string, data: map<string, string>) returns (r: Outcome)
      requires Valid()
      modifies executor, executor.wal, executor.wal.file, executor.state, executor.scheduler
      ensures Valid()
      ensures Step(View(), r) == RunPlan(executor.world, old(View()), CustomPlan(old(View()).tables, name, data))
    {
      if name == "session:send" {
        if "session_id" !in data {
          return Err(PipelineNotFound("missing session_id"));
        }
        if "input" !in data {
          return Err(PipelineNotFound("missing input"));
        }
        r := ExecuteOnly(Send(data["session_id"], data["input"] + "\n"));
      } else if name == "pipeline:resume" {
        if "pipeline_id" !in data {
          return Err(PipelineNotFound("missing pipeline_id"));
        }
        r := Resume(data["pipeline_id"]);
      } else {
        r := Ok([]);
      }
    }

    /** "pipeline:resume": the pipeline is marked Running and watched again. */
    method Resume(ref: string) returns (r: Outcome)
      requires Valid()
      modifies executor, executor.wal, executor.wal.file, executor.state, executor.scheduler
      ensures Valid()
      ensures Step(View(), r) == RunPlan(executor.world, old(View()), ResumePlan(old(View()).tables, ref))
    {
      var found := Find(ref);
      if found.None? {
        return Err(PipelineNotFound(ref));
      }
      var p := found.value;
      var mark, arm := Persist(PhaseStatusUpdate(p.id, Running)), StartMonitor(p.id);
      ExecAllAppend(executor.world, View(), [mark], [arm]);
      assert [mark, arm] == [mark] + [arm];
      ExecOne(executor.world, View(), mark);
      var _ :- executor.Execute(mark);
      r := ExecuteOnly(arm);
      if r.Ok? {
        assert [] + r.value == r.value;
      }
    }

    method HandleCommand(command: string, args: map<string, string>) returns (r: Outcome)
      requires Valid()
      modifies executor, executor.wal, executor.wal.file, executor.state, executor.scheduler
      ensures Valid()
      ensures Step(View(), r)
           == RunPlan(executor.world, old(View()),
                      InvokePlan(runbook, executor.world, command, args, executor.world.ids(old(View()).tick)))
    {
      ghost var m := View();
      ghost var w := executor.world;
      if command !in runbook.commands {
        return Err(CommandNotFound(command));
      }
      match runbook.commands[command].run {
        case RunPipeline(kind) =>
          if kind !in runbook.pipelines {
            return Err(PipelineDefNotFound(kind));
          }
          var def := runbook.pipelines[kind];
          var id := executor.world.ids(executor.tick);
          var name := if "name" in args then args["name"] else id;
          var path := Join(executor.world.worktreeRoot, name);
          var initial := if def.FirstPhase().Some? then def.FirstPhase().value.name else "init";
          var head := CreateEffects(id, kind, name, args, initial, path);
          RunBefore(w, m, head, FirstPlan(runbook, w, def, NewPipeline(id, name, kind, args, initial), args, path));
          CreationDone(w, m, id, kind, name, args, initial, path);
          var events :- executor.ExecuteAll(head);
          if def.FirstPhase().Some? {
            StartOnSameRecord(runbook, w, NewPipeline(id, name, kind, args, initial), executor.state.pipelines[id],
                              initial, args, path);
            var more := StartPhase(id, initial, args, path);
            r := Extend(events, more);
          } else {
            assert events + [] == events;
            r := Ok(events);
          }
        case RunShell(_) =>
          r := Err(InvalidRunDirective("command"));
        case RunAgent(_) =>
          r := Err(InvalidRunDirective("command"));
        case RunStrategy(_) =>
          r := Err(InvalidRunDirective("command"));
      }
    }

    method HandleSessionExit(session: string, code: int) returns (r: Outcome)
      requires Valid()
      modifies executor, executor.wal, executor.wal.file, executor.state, executor.scheduler
      ensures Valid()
      ensures Step(View(), r)
           == RunPlan(executor.world, old(View()),
                      SessionExitPlan(runbook, executor.world, old(View()).tables, session, code))
    {
      var pipelines := executor.state.pipelines;
      var owners := set id | id in pipelines && pipelines[id].sessionId == Some(session);
      assert owners == SessionOwners(View().tables, session);
      if owners == {} {
        return Ok([]);
      }
      var first := executor.world.pick(owners);
      if first !in owners {
        return Ok([]);
      }
      var (after, effects) := AfterSessionExit(pipelines[first], code);
      RunBefore(executor.world, View(), effects, AdvancePlan(runbook, executor.world, after));
      r := executor.ExecuteAll(effects);
      if r.Ok? && after.status == Completed {
        var more := Advance(after);
        r := Extend(r.value, more);
      }
    }

    method HandleAgentEvent(ref: string, error: Option<string>) returns (r: Outcome)
      requires Valid()
      modifies executor, executor.wal, executor.wal.file, executor.state, executor.scheduler
      ensures Valid()
      ensures Step(View(), r)
           == RunPlan(executor.world, old(View()), AgentPlan(runbook, executor.world, old(View()).tables, ref, error))
    {
      var found := Find(ref);
      if found.None? {
        return Err(PipelineNotFound(ref));
      }
      if error.None? {
        r := Advance(found.value);
      } else {
        r := FailIt(found.value, error.value);
      }
    }

    method HandleShellCompleted(id: string, phase: string, code: int) returns (r: Outcome)
      requires Valid()
      modifies executor, executor.wal, executor.wal.file, executor.state, executor.scheduler
      ensures Valid()
      ensures Step(View(), r)
           == RunPlan(executor.world, old(View()),
                      ShellPlan(runbook, executor.world, old(View()).tables, id, phase, code))
    {
      if id !in executor.state.pipelines {
        return Err(PipelineNotFound(id));
      }
      var p := executor.state.pipelines[id];
      if p.phase != phase {
        return Ok([]);
      }
      if code == 0 {
        r := Advance(p);
      } else {
        r := FailIt(p, ShellError(code));
      }
    }

    /** Main result: the engine's `handle_event` does what the event's plan says. */
    method HandleEvent(event: Event) returns (r: Outcome)
      requires Valid()
      modifies executor, executor.wal, executor.wal.file, executor.state, executor.scheduler
      ensures Valid()
      ensures Step(View(), r) == Handle(runbook, executor.world, old(View()), event)
    {
      ghost var m := View();
      ghost var plan := EventPlan(runbook, executor.world, m.tables, m.tick, event);
      r := Dispatch(event, m, plan);
    }

    /** The `match` of `handle_event`. */
    method Dispatch(event: Event, ghost m: Machine, ghost plan: Plan) returns (r: Outcome)
      requires Valid() && m == View() && plan == EventPlan(runbook, executor.world, m.tables, m.tick, event)
      modifies executor, executor.wal, executor.wal.file, executor.state, executor.scheduler
      ensures Valid()
      ensures Step(View(), r) == RunPlan(executor.world, m, plan)
    {
      match event {
        case CommandInvoked(command, args) => r := HandleCommand(command, args);
        case SessionExited(session, code) => r := HandleSessionExit(session, code);
        case AgentDone(ref) => r := HandleAgentEvent(ref, None);
        case AgentError(ref, error) => r := HandleAgentEvent(ref, Some(error));
        case ShellCompleted(id, phase, code) => r := HandleShellCompleted(id, phase, code);
        case Timer(id) => r := HandleTimer(id);
        case Custom(name, data) => r := HandleCustom(name, data);
        case WorkerWake(_) => r := Ok([]);
        case SessionStarted(_) => r := Ok([]);
        case SessionOutput(_, _) => r := Ok([]);
      }
    }
  }
}
