/** What each handler can write: every plan's operations have one of seven shapes. */
module Shapes {
  import opened Wrappers
  import opened Core
  import opened Runbook
  import opened State
  import opened Plans
  import opened Execution

  function StartOps(rb: Runbook, p: Pipeline, phase: string): seq<Operation> {
    if !HasPhase(rb, p.kind, phase) then []
    else [PhaseStatusUpdate(p.id, Running)] + RunOps(rb, p, rb.pipelines[p.kind].GetPhase(phase).value.run)
  }

  function RunOps(rb: Runbook, p: Pipeline, run: RunDirective): seq<Operation> {
    if run.RunAgent? && run.agent in rb.agents then [SessionCreate(p.id, p.id)] else []
  }

  function CompleteOps(p: Pipeline): seq<Operation> {
    (if p.Terminal() then [] else [PipelineTransition(p.id, "done")])
    + [PhaseStatusUpdate(p.id, Completed)]
    + (if p.sessionId.None? then [] else [SessionDelete(p.sessionId.value)])
  }

  function AdvanceOps(rb: Runbook, p: Pipeline): seq<Operation> {
    if p.Terminal() then CompleteOps(p)
    else
      match NextPhaseName(rb, p)
      case None => [PipelineTransition(p.id, "done")] + CompleteOps(p)
      case Some(next) =>
        [PipelineTransition(p.id, next)]
        + if !HasPhase(rb, p.kind, next) && IsTerminal(next) then CompleteOps(p) else StartOps(rb, p, next)
  }

  function FailOps(rb: Runbook, p: Pipeline): seq<Operation> {
    match OnFail(rb, p)
    case None => [PipelineTransition(p.id, "failed")]
    case Some(target) => [PipelineTransition(p.id, target)] + StartOps(rb, p, target)
  }

  function CreateOps(rb: Runbook, id: string, kind: string, name: string, args: map<string, string>,
                     initial: string, path: string): seq<Operation>
  {
    [WorkspaceCreate(id, path, "feature/" + name), PipelineCreate(id, kind, name, args, initial)]
    + if kind in rb.pipelines && rb.pipelines[kind].phases != []
      then StartOps(rb, NewPipeline(id, name, kind, args, initial), initial)
      else []
  }

  datatype Shape =
    | Nothing
    | Advances(p: Pipeline)
    | Fails(p: Pipeline)
    | Spawns(p: Pipeline)
    | Marks(p: Pipeline, status: PhaseStatus)
    | Exits(p: Pipeline)
    | Creates(id: string, kind: string, name: string, args: map<string, string>, initial: string, path: string)

  function ShapeOps(rb: Runbook, s: Shape): seq<Operation> {
    match s
    case Nothing => []
    case Advances(p) => AdvanceOps(rb, p)
    case Fails(p) => FailOps(rb, p)
    case Spawns(p) => [SessionCreate(p.id, p.id)]
    case Marks(p, status) => [PhaseStatusUpdate(p.id, status)]
    case Exits(p) => [PipelineTransition(p.id, "failed")]
    case Creates(id, kind, name, args, initial, path) => CreateOps(rb, id, kind, name, args, initial, path)
  }

  /** `p` is the stored record, up to what `Pipeline::transition` changes. */
  ghost predicate Stored(t: Tables, p: Pipeline) {
    && p.id in t.pipelines
    && var q := t.pipelines[p.id];
       && p.phase == q.phase && p.kind == q.kind && p.name == q.name
       && p.inputs == q.inputs && p.workspacePath == q.workspacePath
       && (p.sessionId == q.sessionId || p.sessionId.None?)
  }

  /** Some command runs pipelines of this kind. */
  ghost predicate Invoked(rb: Runbook, kind: string) {
    exists command :: command in rb.commands && rb.commands[command].run == RunPipeline(kind)
  }

  ghost predicate Fits(rb: Runbook, w: World, t: Tables, tick: nat, s: Shape) {
    match s
    case Nothing => true
    case Advances(p) => Stored(t, p)
    case Fails(p) => Stored(t, p)
    case Spawns(p) => Stored(t, p)
    case Marks(p, status) => Stored(t, p) && (status == Running || status == Waiting)
    case Exits(p) => Stored(t, p) && p.sessionId.Some?
    case Creates(id, kind, name, args, initial, path) =>
      && id == w.ids(tick)
      && path == Join(w.worktreeRoot, name)
      && kind in rb.pipelines && Invoked(rb, kind)
      && initial == (if rb.pipelines[kind].phases == [] then "init" else rb.pipelines[kind].phases[0].name)
  }

  // ------------------------------------------------- operations of the builders

  lemma Ops1(a: Effect)
    ensures Ops([a]) == OpOf(a)
  {
    assert Ops([a]) == OpOf(a) + Ops([]);
  }

  lemma Ops2(a: Effect, b: Effect)
    ensures Ops([a, b]) == OpOf(a) + OpOf(b)
  {
    assert [a, b][1..] == [b];
    Ops1(b);
  }

  lemma Ops4(a: Effect, b: Effect, c: Effect, d: Effect)
    ensures Ops([a, b, c, d]) == OpOf(a) + OpOf(b) + OpOf(c) + OpOf(d)
  {
    assert [a, b, c, d] == [a, b] + [c, d];
    OpsAppend([a, b], [c, d]);
    Ops2(a, b);
    Ops2(c, d);
  }

  lemma OpsBefore(effects: seq<Effect>, p: Plan)
    ensures Ops(Before(effects, p).effects) == Ops(effects) + Ops(p.effects)
  {
    OpsAppend(effects, p.effects);
  }

  lemma StartWrites(rb: Runbook, w: World, p: Pipeline, phase: string, inputs: map<string, string>, workspace: string)
    ensures Ops(StartPlan(rb, w, p, phase, inputs, workspace).effects) == StartOps(rb, p, phase)
  {
    if HasPhase(rb, p.kind, phase) {
      var run := rb.pipelines[p.kind].GetPhase(phase).value.run;
      var head := PhaseStartEffects(p.id, phase);
      var body := RunPlanOf(rb, w, p, phase, run, inputs, workspace);
      OpsAppend(head, body.effects);
      Ops2(head[0], head[1]);
      if run.RunAgent? && run.agent in rb.agents {
        SpawnWrites(rb, w, p, run.agent, inputs);
      } else if run.RunShell? {
        Ops1(body.effects[0]);
      }
    }
  }

  lemma SpawnWrites(rb: Runbook, w: World, p: Pipeline, agent: string, inputs: map<string, string>)
    ensures Ops(SpawnPlan(rb, w, p, agent, inputs).effects)
         == if agent in rb.agents then [SessionCreate(p.id, p.id)] else []
  {
    if agent in rb.agents {
      var es := SpawnEffects(w, rb.agents[agent], agent, p, inputs);
      OpsAppend(es, [StartMonitor(p.id)]);
      Ops1(StartMonitor(p.id));
      Ops4(es[0], es[1], es[2], es[3]);
    }
  }

  lemma CompleteWrites(p: Pipeline)
    ensures Ops(CompletionEffects(p)) == CompleteOps(p)
  {
    var a := if p.Terminal() then [] else [Persist(PipelineTransition(p.id, "done"))];
    var b := [Persist(PhaseStatusUpdate(p.id, Completed)),
              Emit(Custom("pipeline:completed", map["pipeline_id" := p.id, "name" := p.name, "kind" := p.kind]))];
    var c := if p.sessionId.None? then [] else [Kill(p.sessionId.value), Persist(SessionDelete(p.sessionId.value))];
    OpsAppend(a + b, c);
    OpsAppend(a, b);
    Ops2(b[0], b[1]);
    if a != [] { Ops1(a[0]); }
    if c != [] { Ops2(c[0], c[1]); }
  }

  /** A move and its announcement, and then something else. */
  lemma HeadWrites(head: seq<Effect>, op: Operation, rest: Plan)
    requires |head| == 2 && head[0] == Persist(op) && !head[1].Persist?
    ensures Ops(Before(head, rest).effects) == [op] + Ops(rest.effects)
  {
    OpsAppend(head, rest.effects);
    assert head == [head[0], head[1]];
    Ops2(head[0], head[1]);
  }

  lemma AdvanceWrites(rb: Runbook, w: World, p: Pipeline)
    ensures Ops(AdvancePlan(rb, w, p).effects) == AdvanceOps(rb, p)
  {
    CompleteWrites(p);
    if !p.Terminal() {
      var next := if NextPhaseName(rb, p).Some? then NextPhaseName(rb, p).value else "done";
      var head := PhaseTransitionEffects(p, next);
      var start := StartPlan(rb, w, p, next, p.inputs, WorkspacePath(w, p));
      StartWrites(rb, w, p, next, p.inputs, WorkspacePath(w, p));
      HeadWrites(head, PipelineTransition(p.id, next), start);
      HeadWrites(head, PipelineTransition(p.id, next), CompletePlan(p));
    }
  }

  lemma FailWrites(rb: Runbook, w: World, p: Pipeline, error: string)
    ensures Ops(FailPlan(rb, w, p, error).effects) == FailOps(rb, p)
  {
    match OnFail(rb, p)
    case None =>
      var es := FailureEffects(p, error);
      Ops2(es[0], es[1]);
    case Some(target) =>
      StartWrites(rb, w, p, target, p.inputs, WorkspacePath(w, p));
      HeadWrites(FailureTransitionEffects(p, target, error), PipelineTransition(p.id, target),
                 StartPlan(rb, w, p, target, p.inputs, WorkspacePath(w, p)));
  }

  lemma CreateWrites(id: string, kind: string, name: string, args: map<string, string>, initial: string, path: string)
    ensures Ops(CreateEffects(id, kind, name, args, initial, path))
         == [WorkspaceCreate(id, path, "feature/" + name), PipelineCreate(id, kind, name, args, initial)]
  {
    var es := CreateEffects(id, kind, name, args, initial, path);
    Ops4(es[0], es[1], es[2], es[3]);
  }

  lemma CommandWrites(rb: Runbook, w: World, kind: string, id: string, args: map<string, string>) returns (s: Shape)
    requires kind in rb.pipelines
    ensures s.Creates? && s.id == id && s.kind == kind && s.path == Join(w.worktreeRoot, s.name)
    ensures s.initial == (if rb.pipelines[kind].phases == [] then "init" else rb.pipelines[kind].phases[0].name)
    ensures Ops(CommandPlan(rb, w, kind, rb.pipelines[kind], id, args).effects) == ShapeOps(rb, s)
  {
    var def := rb.pipelines[kind];
    var name := if "name" in args then args["name"] else id;
    var path := Join(w.worktreeRoot, name);
    var initial := if def.phases == [] then "init" else def.phases[0].name;
    s := Creates(id, kind, name, args, initial, path);
    CreateThenStart(rb, w, id, kind, name, args, initial, path);
  }

  lemma CreateThenStart(rb: Runbook, w: World, id: string, kind: string, name: string, args: map<string, string>,
                        initial: string, path: string)
    requires kind in rb.pipelines
    requires rb.pipelines[kind].phases != [] ==> initial == rb.pipelines[kind].phases[0].name
    ensures var p := NewPipeline(id, name, kind, args, initial);
            var head := CreateEffects(id, kind, name, args, initial, path);
            Ops(Before(head, FirstPlan(rb, w, rb.pipelines[kind], p, args, path)).effects)
            == CreateOps(rb, id, kind, name, args, initial, path)
  {
    var p := NewPipeline(id, name, kind, args, initial);
    CreateWrites(id, kind, name, args, initial, path);
    FirstWrites(rb, w, kind, p, args, path);
    OpsBefore(CreateEffects(id, kind, name, args, initial, path), FirstPlan(rb, w, rb.pipelines[kind], p, args, path));
  }

  lemma FirstWrites(rb: Runbook, w: World, kind: string, p: Pipeline, args: map<string, string>, path: string)
    requires kind in rb.pipelines && p.kind == kind
    ensures Ops(FirstPlan(rb, w, rb.pipelines[kind], p, args, path).effects)
         == if rb.pipelines[kind].phases == [] then [] else StartOps(rb, p, rb.pipelines[kind].phases[0].name)
  {
    if rb.pipelines[kind].phases != [] {
      StartWrites(rb, w, p, rb.pipelines[kind].phases[0].name, args, path);
    }
  }

  lemma ActionWrites(rb: Runbook, w: World, p: Pipeline, agent: AgentDef, config: ActionConfig, trigger: string)
    returns (s: Shape)
    ensures s in {Nothing, Advances(p), Fails(p), Spawns(p), Marks(p, Waiting)}
    ensures Ops(ActionPlan(rb, w, p, agent, config, trigger).effects) == ShapeOps(rb, s)
  {
    match config.Action()
    case Nudge =>
      s := Nothing;
      if p.sessionId.Some? {
        var es := ActionPlan(rb, w, p, agent, config, trigger).effects;
        Ops2(es[0], es[1]);
      }
    case Done =>
      s := Advances(p);
      AdvanceWrites(rb, w, p);
    case Fail =>
      s := Fails(p);
      FailWrites(rb, w, p, trigger);
    case Restart =>
      s := RespawnWrites(rb, w, p, agent.name, KillEffects(p) + RemoveEffects(p), p.inputs);
    case Recover =>
      s := RespawnWrites(rb, w, p, agent.name, KillEffects(p), RecoverInputs(config, p.inputs));
    case Escalate =>
      s := Marks(p, Waiting);
      var es := EscalateEffects(p, trigger);
      Ops4(es[0], es[1], es[2], es[3]);
  }

  lemma RespawnWrites(rb: Runbook, w: World, p: Pipeline, agent: string, before: seq<Effect>,
                      inputs: map<string, string>)
    returns (s: Shape)
    requires before == KillEffects(p) || before == KillEffects(p) + RemoveEffects(p)
    ensures s == Nothing || s == Spawns(p)
    ensures Ops(Before(before, SpawnPlan(rb, w, p, agent, inputs)).effects) == ShapeOps(rb, s)
  {
    s := if agent in rb.agents then Spawns(p) else Nothing;
    OpsBefore(before, SpawnPlan(rb, w, p, agent, inputs));
    SpawnWrites(rb, w, p, agent, inputs);
    KillsWriteNothing(p);
  }

  lemma KillsWriteNothing(p: Pipeline)
    ensures Ops(KillEffects(p)) == [] && Ops(KillEffects(p) + RemoveEffects(p)) == []
  {
    OpsAppend(KillEffects(p), RemoveEffects(p));
    if p.sessionId.Some? { Ops1(Kill(p.sessionId.value)); }
    if p.workspacePath.Some? { Ops1(WorktreeRemove(p.workspacePath.value)); }
  }

  // --------------------------------------------------------- inputs of a run

  /** The ways the engine is called. */
  datatype Call = Deliver(event: Event) | TmuxExited(ref: string) | ClaudeExited(ref: string)

  /** What can happen to a running engine. `CrashDuring` stops a call after `effects` effects and
      restarts from the log, as does `Restart` between calls. */
  datatype Input = Complete(call: Call) | Restart | CrashDuring(crashed: Call, effects: nat)

  function CallPlan(rb: Runbook, w: World, m: Machine, c: Call): Plan {
    match c
    case Deliver(event) => EventPlan(rb, w, m.tables, m.tick, event)
    case TmuxExited(ref) => TmuxExitedPlan(rb, w, m.tables, ref)
    case ClaudeExited(ref) => ClaudeExitedPlan(rb, w, m.tables, ref)
  }

  function CutShort(effects: seq<Effect>, n: nat): seq<Effect> { if n <= |effects| then effects[..n] else effects }

  function InputPlan(rb: Runbook, w: World, m: Machine, i: Input): Plan {
    match i
    case Complete(call) => CallPlan(rb, w, m, call)
    case Restart => Plan([], None)
    case CrashDuring(call, n) => Plan(CutShort(CallPlan(rb, w, m, call).effects, n), None)
  }

  /** `startup`: the log is replayed and no timer survives. */
  function Restarted(m: Machine): Machine { m.(tables := Replay(m.log), timers := map[]) }

  function Next(rb: Runbook, w: World, m: Machine, i: Input): Machine {
    var s := RunPlan(w, m, InputPlan(rb, w, m, i));
    if i.Restart? || i.CrashDuring? then Restarted(s.machine) else s.machine
  }

  function Run(rb: Runbook, w: World, m: Machine, inputs: seq<Input>): Machine
    decreases |inputs|
  {
    if inputs == [] then m else Run(rb, w, Next(rb, w, m, inputs[0]), inputs[1..])
  }

  /** The pipeline a shape is about. */
  function ShapeTarget(s: Shape): string {
    match s
    case Nothing => ""
    case Advances(p) => p.id
    case Fails(p) => p.id
    case Spawns(p) => p.id
    case Marks(p, _) => p.id
    case Exits(p) => p.id
    case Creates(id, _, _, _, _, _) => id
  }

  /** The pipeline an input addresses (for a command, the one it creates). */
  function Target(w: World, m: Machine, i: Input): string {
    match i
    case Complete(call) => CallTarget(w, m, call)
    case CrashDuring(call, _) => CallTarget(w, m, call)
    case Restart => ""
  }

  function CallTarget(w: World, m: Machine, c: Call): string {
    match c
    case Deliver(event) => EventTarget(w, m.tables, m.tick, event)
    case TmuxExited(ref) => Resolved(m.tables, ref)
    case ClaudeExited(ref) => Resolved(m.tables, ref)
  }

  function Resolved(t: Tables, ref: string): string {
    if GetPipeline(t, ref).Some? then GetPipeline(t, ref).value.id else ""
  }

  function EventTarget(w: World, t: Tables, tick: nat, event: Event): string {
    match event
    case CommandInvoked(_, _) => w.ids(tick)
    case SessionExited(session, _) =>
      if OwnerOf(w, t, session).Some? then OwnerOf(w, t, session).value.id else ""
    case AgentDone(ref) => Resolved(t, ref)
    case AgentError(ref, _) => Resolved(t, ref)
    case ShellCompleted(id, _, _) => id
    case Timer(id) => Resolved(t, TimerPipeline(id))
    case Custom(_, data) => if "pipeline_id" in data then Resolved(t, data["pipeline_id"]) else ""
    case WorkerWake(_) => ""
    case SessionStarted(_) => ""
    case SessionOutput(_, _) => ""
  }

  const INITIAL := Machine([], EMPTY, map[], 0, [], [])

  lemma LookupIsStored(t: Tables, ref: string)
    requires t.Keyed()
    ensures GetPipeline(t, ref).Some? ==> Stored(t, GetPipeline(t, ref).value)
  {
  }

  /** Every event's operations have a shape that fits the tables it found. */
  lemma EventShape(rb: Runbook, w: World, t: Tables, tick: nat, event: Event) returns (s: Shape)
    requires t.Keyed()
    ensures Fits(rb, w, t, tick, s)
    ensures Ops(EventPlan(rb, w, t, tick, event).effects) == ShapeOps(rb, s)
    ensures s.Nothing? || ShapeTarget(s) == EventTarget(w, t, tick, event)
  {
    s := Nothing;
    match event
    case CommandInvoked(command, args) => s := InvokeShape(rb, w, t, tick, command, args);
    case SessionExited(session, code) => s := SessionExitShape(rb, w, t, session, code);
    case AgentDone(ref) => s := AgentShape(rb, w, t, tick, ref, None);
    case AgentError(ref, error) => s := AgentShape(rb, w, t, tick, ref, Some(error));
    case ShellCompleted(id, phase, code) => s := ShellShape(rb, w, t, tick, id, phase, code);
    case Timer(id) => s := MonitorShape(rb, w, t, id, w.answers(tick).session);
    case Custom(name, data) => s := CustomShape(rb, w, t, name, data);
    case WorkerWake(_) =>
    case SessionStarted(_) =>
    case SessionOutput(_, _) =>
  }

  lemma InvokeShape(rb: Runbook, w: World, t: Tables, tick: nat, command: string, args: map<string, string>)
    returns (s: Shape)
    ensures Fits(rb, w, t, tick, s) && (s.Nothing? || ShapeTarget(s) == w.ids(tick))
    ensures Ops(InvokePlan(rb, w, command, args, w.ids(tick)).effects) == ShapeOps(rb, s)
  {
    s := Nothing;
    if command in rb.commands && rb.commands[command].run.RunPipeline? {
      var kind := rb.commands[command].run.pipeline;
      if kind in rb.pipelines {
        s := CommandWrites(rb, w, kind, w.ids(tick), args);
      }
    }
  }

  lemma AgentShape(rb: Runbook, w: World, t: Tables, tick: nat, ref: string, error: Option<string>) returns (s: Shape)
    requires t.Keyed()
    ensures Fits(rb, w, t, tick, s) && (s.Nothing? || ShapeTarget(s) == Resolved(t, ref))
    ensures Ops(AgentPlan(rb, w, t, ref, error).effects) == ShapeOps(rb, s)
  {
    s := Nothing;
    LookupIsStored(t, ref);
    if GetPipeline(t, ref).Some? {
      var p := GetPipeline(t, ref).value;
      if error.None? {
        s := Advances(p);
        AdvanceWrites(rb, w, p);
      } else {
        s := Fails(p);
        FailWrites(rb, w, p, error.value);
      }
    }
  }

  lemma ShellShape(rb: Runbook, w: World, t: Tables, tick: nat, id: string, phase: string, code: int)
    returns (s: Shape)
    requires t.Keyed()
    ensures Fits(rb, w, t, tick, s) && (s.Nothing? || ShapeTarget(s) == id)
    ensures Ops(ShellPlan(rb, w, t, id, phase, code).effects) == ShapeOps(rb, s)
  {
    s := Nothing;
    if id in t.pipelines && t.pipelines[id].phase == phase {
      var p := t.pipelines[id];
      if code == 0 {
        s := Advances(p);
        AdvanceWrites(rb, w, p);
      } else {
        s := Fails(p);
        FailWrites(rb, w, p, ShellError(code));
      }
    }
  }

  lemma SessionExitShape(rb: Runbook, w: World, t: Tables, session: string, code: int) returns (s: Shape)
    requires t.Keyed()
    ensures Ops(SessionExitPlan(rb, w, t, session, code).effects) == ShapeOps(rb, s)
    ensures !s.Creates? && Fits(rb, w, t, 0, s)
    ensures s.Nothing? || ShapeTarget(s) == EventTarget(w, t, 0, SessionExited(session, code))
  {
    s := Nothing;
    if OwnerOf(w, t, session).Some? {
      var p := OwnerOf(w, t, session).value;
      var (after, effects) := AfterSessionExit(p, code);
      if code == 0 {
        s := Advances(after);
        AdvanceWrites(rb, w, after);
        OpsAppend(effects, AdvancePlan(rb, w, after).effects);
      } else {
        s := Exits(p);
        Ops1(effects[0]);
      }
    }
  }

  lemma MonitorShape(rb: Runbook, w: World, t: Tables, id: string, seen: Option<SessionState>) returns (s: Shape)
    requires t.Keyed()
    ensures Ops(TimerPlan(rb, w, t, id, seen).effects) == ShapeOps(rb, s)
    ensures !s.Creates? && Fits(rb, w, t, 0, s)
    ensures s.Nothing? || ShapeTarget(s) == Resolved(t, TimerPipeline(id))
  {
    s := Nothing;
    if StartsWith(id, "session:") && EndsWith(id, ":check") {
      var ref := TimerPipeline(id);
      LookupIsStored(t, ref);
      if GetPipeline(t, ref).Some? {
        var p := GetPipeline(t, ref).value;
        Ops1(StartMonitor(ref));
        if !p.Terminal() && AgentDefOf(rb, p).Ok? && p.workspacePath.Some? && seen.Some? {
          var agent := AgentDefOf(rb, p).value;
          if seen.value.WaitingForInput? {
            s := ActionWrites(rb, w, p, agent, agent.onIdle, "idle");
          } else if seen.value.SessionFailure? {
            var reason := seen.value.reason;
            s := ActionWrites(rb, w, p, agent, agent.onError.ActionFor(ErrorTypeOf(reason)), MessageOf(reason));
          }
        }
      }
    }
  }

  lemma CustomShape(rb: Runbook, w: World, t: Tables, name: string, data: map<string, string>) returns (s: Shape)
    requires t.Keyed()
    ensures Ops(CustomPlan(t, name, data).effects) == ShapeOps(rb, s)
    ensures !s.Creates? && Fits(rb, w, t, 0, s)
    ensures s.Nothing? || ShapeTarget(s) == EventTarget(w, t, 0, Custom(name, data))
  {
    s := Nothing;
    if name == "session:send" && "session_id" in data && "input" in data {
      Ops1(Send(data["session_id"], data["input"] + "\n"));
    } else if name == "pipeline:resume" && "pipeline_id" in data {
      var ref := data["pipeline_id"];
      LookupIsStored(t, ref);
      if GetPipeline(t, ref).Some? {
        var p := GetPipeline(t, ref).value;
        s := Marks(p, Running);
        Ops2(Persist(PhaseStatusUpdate(p.id, Running)), StartMonitor(p.id));
      }
    }
  }

  lemma TmuxShape(rb: Runbook, w: World, t: Tables, tick: nat, ref: string) returns (s: Shape)
    requires t.Keyed()
    ensures Fits(rb, w, t, tick, s) && (s.Nothing? || ShapeTarget(s) == Resolved(t, ref))
    ensures Ops(TmuxExitedPlan(rb, w, t, ref).effects) == ShapeOps(rb, s)
  {
    s := Nothing;
    LookupIsStored(t, ref);
    if GetPipeline(t, ref).Some? {
      s := Fails(GetPipeline(t, ref).value);
      FailWrites(rb, w, s.p, "tmux session exited");
    }
  }

  lemma ClaudeShape(rb: Runbook, w: World, t: Tables, tick: nat, ref: string) returns (s: Shape)
    requires t.Keyed()
    ensures Fits(rb, w, t, tick, s) && (s.Nothing? || ShapeTarget(s) == Resolved(t, ref))
    ensures Ops(ClaudeExitedPlan(rb, w, t, ref).effects) == ShapeOps(rb, s)
  {
    s := Nothing;
    LookupIsStored(t, ref);
    if GetPipeline(t, ref).Some? {
      var p := GetPipeline(t, ref).value;
      if !p.Terminal() && AgentDefOf(rb, p).Ok? {
        var agent := AgentDefOf(rb, p).value;
        s := ActionWrites(rb, w, p, agent, agent.onExit, "exit");
      }
    }
  }

  lemma CallShape(rb: Runbook, w: World, m: Machine, c: Call) returns (s: Shape)
    requires m.tables.Keyed()
    ensures Fits(rb, w, m.tables, m.tick, s) && (s.Nothing? || ShapeTarget(s) == CallTarget(w, m, c))
    ensures Ops(CallPlan(rb, w, m, c).effects) == ShapeOps(rb, s)
  {
    match c
    case Deliver(event) => s := EventShape(rb, w, m.tables, m.tick, event);
    case TmuxExited(ref) => s := TmuxShape(rb, w, m.tables, m.tick, ref);
    case ClaudeExited(ref) => s := ClaudeShape(rb, w, m.tables, m.tick, ref);
  }

  lemma CutOps(effects: seq<Effect>, n: nat)
    ensures |Ops(CutShort(effects, n))| <= |Ops(effects)|
    ensures Ops(CutShort(effects, n)) == Ops(effects)[..|Ops(CutShort(effects, n))|]
  {
    var some := CutShort(effects, n);
    assert effects == some + effects[|some|..];
    OpsAppend(some, effects[|some|..]);
  }

  /** Every input of a run writes a prefix of a shape that fits. */
  lemma InputShape(rb: Runbook, w: World, m: Machine, i: Input) returns (s: Shape, n: nat)
    requires m.tables.Keyed()
    ensures Fits(rb, w, m.tables, m.tick, s)
    ensures s.Nothing? || ShapeTarget(s) == Target(w, m, i)
    ensures n <= |ShapeOps(rb, s)|
    ensures Ops(InputPlan(rb, w, m, i).effects) == ShapeOps(rb, s)[..n]
  {
    match i
    case Complete(call) =>
      s := CallShape(rb, w, m, call);
      n := |ShapeOps(rb, s)|;
    case Restart =>
      s, n := Nothing, 0;
    case CrashDuring(call, k) =>
      s := CallShape(rb, w, m, call);
      var effects := CallPlan(rb, w, m, call).effects;
      CutOps(effects, k);
      n := |Ops(CutShort(effects, k))|;
  }
}
