/** What each engine decision asks the executor to do, as values: the effect-list builders of
    `phases.rs`, `spawn.rs` and `monitor.rs`, and, for each handler of `runtime.rs`, its plan.

    A plan is the list of effects a handler runs when every effect succeeds, followed by the
    definitional error (if any) it then ends with. The handlers themselves, which run effects
    step by step and look at the shared state in between, are the methods of module `Engine`. */
module Plans {
  import opened Wrappers
  import opened Core
  import opened Runbook
  import opened State
  import Template

  datatype SessionState = Working | WaitingForInput | SessionFailure(reason: FailureReason) | Unknown

  datatype FailureReason = Denied | NoCredits | Offline | Limited | Other(message: string)

  /** What the outside world answers to one effect: success or failure, an exit code, the
      clock, and what the session log shows (None: no log file). */
  datatype Answer = Answer(ok: bool, code: int, now: int, session: Option<SessionState>)

  /** Everything the engine does not decide. `answers` is indexed by the number of effects
      attempted so far, and so is `ids`, the source of fresh ids; `pick` is the iteration
      order of hash maps. Quantifying over worlds quantifies over every behaviour outside. */
  datatype World = World(
    answers: nat -> Answer,
    ids: nat -> string,
    pick: set<string> -> string,
    env: Template.Env,
    worktreeRoot: string)

  datatype Plan = Plan(effects: seq<Effect>, fail: Option<Error>)

  function Before(effects: seq<Effect>, p: Plan): Plan { Plan(effects + p.effects, p.fail) }

  function Refuse(e: Error): Plan { Plan([], Some(e)) }

  // ---------------------------------------------------------------- phases.rs

  function PhaseStartEffects(id: string, phase: string): seq<Effect> {
    [Persist(PhaseStatusUpdate(id, Running)),
     Emit(Custom("pipeline:phase:start", map["pipeline_id" := id, "phase" := phase]))]
  }

  function PhaseTransitionEffects(p: Pipeline, next: string): seq<Effect> {
    [Persist(PipelineTransition(p.id, next)),
     Emit(Custom("pipeline:phase", map["id" := p.id, "phase" := next]))]
  }

  function FailureTransitionEffects(p: Pipeline, onFail: string, error: string): seq<Effect> {
    [Persist(PipelineTransition(p.id, onFail)),
     Emit(Custom("pipeline:phase", map["id" := p.id, "phase" := onFail, "error" := error]))]
  }

  function FailureEffects(p: Pipeline, error: string): seq<Effect> {
    [Persist(PipelineTransition(p.id, "failed")),
     Emit(Custom("pipeline:failed",
                 map["pipeline_id" := p.id, "name" := p.name, "phase" := p.phase, "error" := error]))]
  }

  function CompletionEffects(p: Pipeline): seq<Effect> {
    (if p.Terminal() then [] else [Persist(PipelineTransition(p.id, "done"))])
    + [Persist(PhaseStatusUpdate(p.id, Completed)),
       Emit(Custom("pipeline:completed", map["pipeline_id" := p.id, "name" := p.name, "kind" := p.kind]))]
    + (if p.sessionId.None? then [] else [Kill(p.sessionId.value), Persist(SessionDelete(p.sessionId.value))])
  }

  // ----------------------------------------------------------------- spawn.rs

  const MONITOR_INTERVAL: nat := 10

  function TimerKey(pipelineId: string): string { "session:" + pipelineId + ":check" }

  function StartMonitor(pipelineId: string): Effect { SetTimer(TimerKey(pipelineId), MONITOR_INTERVAL) }

  /** `id.strip_prefix("session:").and_then(strip_suffix(":check")).unwrap_or(id)` */
  function TimerPipeline(id: string): string {
    var rest := if StartsWith(id, "session:") then id[8..] else "";
    if StartsWith(id, "session:") && EndsWith(rest, ":check") then rest[..|rest| - 6] else id
  }

  function WorkspacePath(w: World, p: Pipeline): string {
    if p.workspacePath.Some? then p.workspacePath.value else Join(w.worktreeRoot, p.name)
  }

  function PhaseVars(inputs: map<string, string>, id: string, name: string, workspace: string): map<string, string> {
    inputs["pipeline_id" := id]["name" := name]["workspace" := workspace]
  }

  function EffectiveCwd(w: World, agent: AgentDef, vars: map<string, string>, workspace: string): Option<string> {
    match agent.cwd
    case None => None
    case Some(template) => Some(Join(workspace, Template.Interpolate(w.env, template, vars)))
  }

  function SpawnEffects(w: World, agent: AgentDef, agentName: string, p: Pipeline,
                        inputs: map<string, string>): seq<Effect> {
    var workspace := WorkspacePath(w, p);
    var vars := PhaseVars(inputs, p.id, p.name, workspace);
    [Prepare(agentName, workspace),
     Persist(SessionCreate(p.id, p.id)),
     Spawn(p.id, Template.Interpolate(w.env, agent.run, vars), EffectiveCwd(w, agent, vars, workspace)),
     StartMonitor(p.id)]
  }

  /** `spawn_agent`, which arms the monitor a second time. */
  function SpawnPlan(rb: Runbook, w: World, p: Pipeline, agent: string, inputs: map<string, string>): Plan {
    if agent !in rb.agents then Refuse(AgentNotFound(agent))
    else Plan(SpawnEffects(w, rb.agents[agent], agent, p, inputs) + [StartMonitor(p.id)], None)
  }

  // --------------------------------------------------------------- runtime.rs

  /** `start_phase`, on the stored record `p`. */
  function StartPlan(rb: Runbook, w: World, p: Pipeline, phase: string, inputs: map<string, string>,
                     workspace: string): Plan {
    if p.kind !in rb.pipelines then Refuse(PipelineDefNotFound(p.kind))
    else
      match rb.pipelines[p.kind].GetPhase(phase)
      case None => Refuse(PipelineNotFound("phase " + phase + " not found"))
      case Some(def) =>
        Before(PhaseStartEffects(p.id, phase), RunPlanOf(rb, w, p, phase, def.run, inputs, workspace))
  }

  function RunPlanOf(rb: Runbook, w: World, p: Pipeline, phase: string, run: RunDirective,
                     inputs: map<string, string>, workspace: string): Plan
  {
    match run
    case RunShell(command) =>
      var text := Template.Interpolate(w.env, command, PhaseVars(inputs, p.id, p.name, workspace));
      Plan([Shell(p.id, phase, text, workspace)], None)
    case RunAgent(agent) => SpawnPlan(rb, w, p, agent, inputs)
    case RunPipeline(_) => Refuse(InvalidRunDirective("phase " + phase))
    case RunStrategy(_) => Refuse(InvalidRunDirective("phase " + phase))
  }

  function PhaseOf(rb: Runbook, p: Pipeline): Option<PhaseDef> {
    if p.kind in rb.pipelines then rb.pipelines[p.kind].GetPhase(p.phase) else None
  }

  /** Explicit `next`, then list order, then none. */
  function NextPhaseName(rb: Runbook, p: Pipeline): Option<string> {
    match PhaseOf(rb, p)
    case None => None
    case Some(def) =>
      if def.next.Some? then def.next
      else
        match rb.pipelines[p.kind].NextPhase(p.phase)
        case Some(next) => Some(next.name)
        case None => None
  }

  predicate HasPhase(rb: Runbook, kind: string, phase: string) {
    kind in rb.pipelines && rb.pipelines[kind].Has(phase)
  }

  function CompletePlan(p: Pipeline): Plan { Plan(CompletionEffects(p), None) }

  function AdvancePlan(rb: Runbook, w: World, p: Pipeline): Plan {
    if p.Terminal() then CompletePlan(p)
    else
      match NextPhaseName(rb, p)
      case None => Before(PhaseTransitionEffects(p, "done"), CompletePlan(p))
      case Some(next) =>
        Before(PhaseTransitionEffects(p, next),
               if !HasPhase(rb, p.kind, next) && IsTerminal(next) then CompletePlan(p)
               else StartPlan(rb, w, p, next, p.inputs, WorkspacePath(w, p)))
  }

  function OnFail(rb: Runbook, p: Pipeline): Option<string> {
    match PhaseOf(rb, p)
    case None => None
    case Some(def) => def.onFail
  }

  function FailPlan(rb: Runbook, w: World, p: Pipeline, error: string): Plan {
    match OnFail(rb, p)
    case None => Plan(FailureEffects(p, error), None)
    case Some(target) =>
      Before(FailureTransitionEffects(p, target, error), StartPlan(rb, w, p, target, p.inputs, WorkspacePath(w, p)))
  }

  /** `handle_command`, once the pipeline definition is found; `id` is the fresh id. */
  function CommandPlan(rb: Runbook, w: World, kind: string, def: PipelineDef, id: string,
                       args: map<string, string>): Plan {
    var name := if "name" in args then args["name"] else id;
    var path := Join(w.worktreeRoot, name);
    var initial := if def.FirstPhase().Some? then def.FirstPhase().value.name else "init";
    Before(CreateEffects(id, kind, name, args, initial, path),
           FirstPlan(rb, w, def, NewPipeline(id, name, kind, args, initial), args, path))
  }

  function FirstPlan(rb: Runbook, w: World, def: PipelineDef, p: Pipeline, args: map<string, string>,
                     path: string): Plan {
    match def.FirstPhase()
    case None => Plan([], None)
    case Some(first) => StartPlan(rb, w, p, first.name, args, path)
  }

  function CreateEffects(id: string, kind: string, name: string, args: map<string, string>,
                         initial: string, path: string): seq<Effect>
  {
    [Persist(WorkspaceCreate(id, path, "feature/" + name)),
     WorktreeAdd("feature/" + name, path),
     Persist(PipelineCreate(id, kind, name, args, initial)),
     Emit(Custom("pipeline:created", map["id" := id, "name" := name, "kind" := kind]))]
  }

  function ShellError(code: int): string { "shell exited with code " + Decimal(code) }

  /** `handle_shell_completed`: a report for a phase the pipeline has left is ignored. */
  function ShellPlan(rb: Runbook, w: World, t: Tables, id: string, phase: string, code: int): Plan {
    if id !in t.pipelines then Refuse(PipelineNotFound(id))
    else
      var p := t.pipelines[id];
      if p.phase != phase then Plan([], None)
      else if code == 0 then AdvancePlan(rb, w, p)
      else FailPlan(rb, w, p, ShellError(code))
  }

  // --------------------------------------------------------------- monitor.rs

  function ErrorTypeOf(reason: FailureReason): Option<ErrorType> {
    match reason
    case Denied => Some(Unauthorized)
    case NoCredits => Some(OutOfCredits)
    case Offline => Some(NoInternet)
    case Limited => Some(RateLimited)
    case Other(_) => None
  }

  function MessageOf(reason: FailureReason): string {
    match reason
    case Denied => "API key unauthorized"
    case NoCredits => "Out of API credits"
    case Offline => "Network error"
    case Limited => "Rate limited"
    case Other(message) => message
  }

  function AgentDefOf(rb: Runbook, p: Pipeline): Result<AgentDef, Error> {
    if p.kind !in rb.pipelines then Err(PipelineDefNotFound(p.kind))
    else
      match rb.pipelines[p.kind].GetPhase(p.phase)
      case None => Err(PipelineNotFound("phase " + p.phase + " not found"))
      case Some(def) =>
        if !def.run.RunAgent? then Err(InvalidRunDirective("phase " + p.phase))
        else if def.run.agent !in rb.agents then Err(AgentNotFound(def.run.agent))
        else Ok(rb.agents[def.run.agent])
  }

  function EscalateEffects(p: Pipeline, trigger: string): seq<Effect> {
    [Emit(Custom("pipeline:escalate",
                 map["pipeline_id" := p.id, "pipeline_name" := p.name, "phase" := p.phase, "reason" := trigger])),
     Notify("Pipeline needs attention: " + p.name, trigger),
     Persist(PhaseStatusUpdate(p.id, Waiting)),
     CancelTimer(TimerKey(p.id))]
  }

  function RecoverInputs(config: ActionConfig, inputs: map<string, string>): map<string, string> {
    match config.Message()
    case None => inputs
    case Some(message) =>
      if config.Append() then
        inputs["prompt" := (if "prompt" in inputs then inputs["prompt"] else "") + "\n\n" + message]
      else inputs["prompt" := message]
  }

  function KillEffects(p: Pipeline): seq<Effect> {
    if p.sessionId.None? then [] else [Kill(p.sessionId.value)]
  }

  function RemoveEffects(p: Pipeline): seq<Effect> {
    if p.workspacePath.None? then [] else [WorktreeRemove(p.workspacePath.value)]
  }

  /** `build_action_effects` followed by `execute_action_effects`. */
  function ActionPlan(rb: Runbook, w: World, p: Pipeline, agent: AgentDef, config: ActionConfig,
                      trigger: string): Plan {
    match config.Action()
    case Nudge =>
      if p.sessionId.None? then Refuse(PipelineNotFound("no session"))
      else
        var text := if config.Message().Some? then config.Message().value else "Please continue with the task.";
        Plan([Send(p.sessionId.value, text + "\n"), StartMonitor(p.id)], None)
    case Done => AdvancePlan(rb, w, p)
    case Fail => FailPlan(rb, w, p, trigger)
    case Restart => Before(KillEffects(p) + RemoveEffects(p), SpawnPlan(rb, w, p, agent.name, p.inputs))
    case Recover => Before(KillEffects(p), SpawnPlan(rb, w, p, agent.name, RecoverInputs(config, p.inputs)))
    case Escalate => Plan(EscalateEffects(p, trigger), None)
  }

  /** `handle_session_monitor`; `seen` is what the session log shows. */
  function MonitorPlan(rb: Runbook, w: World, t: Tables, ref: string, seen: Option<SessionState>): Plan {
    match GetPipeline(t, ref)
    case None => Refuse(PipelineNotFound(ref))
    case Some(p) =>
      if p.Terminal() then Plan([], None)
      else
        match AgentDefOf(rb, p)
        case Err(e) => Refuse(e)
        case Ok(agent) =>
          if p.workspacePath.None? then Refuse(PipelineNotFound("no workspace"))
          else
            match seen
            case None => Plan([StartMonitor(ref)], None)
            case Some(Working) => Plan([StartMonitor(ref)], None)
            case Some(Unknown) => Plan([StartMonitor(ref)], None)
            case Some(WaitingForInput) => ActionPlan(rb, w, p, agent, agent.onIdle, "idle")
            case Some(SessionFailure(reason)) =>
              ActionPlan(rb, w, p, agent, agent.onError.ActionFor(ErrorTypeOf(reason)), MessageOf(reason))
  }

  function TimerPlan(rb: Runbook, w: World, t: Tables, id: string, seen: Option<SessionState>): Plan {
    if StartsWith(id, "session:") && EndsWith(id, ":check") then MonitorPlan(rb, w, t, TimerPipeline(id), seen)
    else Plan([], None)
  }

  function ClaudeExitedPlan(rb: Runbook, w: World, t: Tables, ref: string): Plan {
    match GetPipeline(t, ref)
    case None => Refuse(PipelineNotFound(ref))
    case Some(p) =>
      if p.Terminal() then Plan([], None)
      else
        match AgentDefOf(rb, p)
        case Err(e) => Refuse(e)
        case Ok(agent) => ActionPlan(rb, w, p, agent, agent.onExit, "exit")
  }

  function TmuxExitedPlan(rb: Runbook, w: World, t: Tables, ref: string): Plan {
    match GetPipeline(t, ref)
    case None => Refuse(PipelineNotFound(ref))
    case Some(p) => FailPlan(rb, w, p, "tmux session exited")
  }

  // ---------------------------------------------------------------- events.rs

  function CustomPlan(t: Tables, name: string, data: map<string, string>): Plan {
    if name == "session:send" then
      if "session_id" !in data then Refuse(PipelineNotFound("missing session_id"))
      else if "input" !in data then Refuse(PipelineNotFound("missing input"))
      else Plan([Send(data["session_id"], data["input"] + "\n")], None)
    else if name == "pipeline:resume" then
      if "pipeline_id" !in data then Refuse(PipelineNotFound("missing pipeline_id"))
      else ResumePlan(t, data["pipeline_id"])
    else Plan([], None)
  }

  function ResumePlan(t: Tables, ref: string): Plan {
    match GetPipeline(t, ref)
    case None => Refuse(PipelineNotFound(ref))
    case Some(p) => Plan([Persist(PhaseStatusUpdate(p.id, Running)), StartMonitor(p.id)], None)
  }

  // ------------------------------------------------------------- session exit

  function SessionOwners(t: Tables, session: string): set<string> {
    set id | id in t.pipelines && t.pipelines[id].sessionId == Some(session)
  }

  /** Some pipeline that runs in the session: the first one in iteration order. */
  function OwnerOf(w: World, t: Tables, session: string): Option<Pipeline> {
    var owners := SessionOwners(t, session);
    if owners == {} then None
    else
      var first := w.pick(owners);
      if first in owners then Some(t.pipelines[first]) else None
  }

  /** `Pipeline::transition` on the exit of its own session. */
  function AfterSessionExit(p: Pipeline, code: int): (Pipeline, seq<Effect>) {
    if code == 0 then (p.(status := Completed, sessionId := None), [])
    else
      (p.(phase := "failed", status := Failed, error := Some("exit code: " + Decimal(code))),
       [Persist(PipelineTransition(p.id, "failed"))])
  }

  function SessionExitPlan(rb: Runbook, w: World, t: Tables, session: string, code: int): Plan {
    match OwnerOf(w, t, session)
    case None => Plan([], None)
    case Some(p) =>
      var (after, effects) := AfterSessionExit(p, code);
      if after.status == Completed then Before(effects, AdvancePlan(rb, w, after)) else Plan(effects, None)
  }

  // ------------------------------------------------------------ handle_event

  function AgentPlan(rb: Runbook, w: World, t: Tables, ref: string, error: Option<string>): Plan {
    match GetPipeline(t, ref)
    case None => Refuse(PipelineNotFound(ref))
    case Some(p) => if error.None? then AdvancePlan(rb, w, p) else FailPlan(rb, w, p, error.value)
  }

  function InvokePlan(rb: Runbook, w: World, command: string, args: map<string, string>, id: string): Plan {
    if command !in rb.commands then Refuse(CommandNotFound(command))
    else
      match rb.commands[command].run
      case RunPipeline(kind) =>
        if kind !in rb.pipelines then Refuse(PipelineDefNotFound(kind))
        else CommandPlan(rb, w, kind, rb.pipelines[kind], id, args)
      case RunShell(_) => Refuse(InvalidRunDirective("command"))
      case RunAgent(_) => Refuse(InvalidRunDirective("command"))
      case RunStrategy(_) => Refuse(InvalidRunDirective("command"))
  }

  /** The plan for one event, seen from tables `t` after `tick` effects. */
  function EventPlan(rb: Runbook, w: World, t: Tables, tick: nat, event: Event): Plan {
    match event
    case CommandInvoked(command, args) => InvokePlan(rb, w, command, args, w.ids(tick))
    case SessionExited(session, code) => SessionExitPlan(rb, w, t, session, code)
    case AgentDone(ref) => AgentPlan(rb, w, t, ref, None)
    case AgentError(ref, error) => AgentPlan(rb, w, t, ref, Some(error))
    case ShellCompleted(id, phase, code) => ShellPlan(rb, w, t, id, phase, code)
    case Timer(id) => TimerPlan(rb, w, t, id, w.answers(tick).session)
    case Custom(name, data) => CustomPlan(t, name, data)
    case WorkerWake(_) => Plan([], None)
    case SessionStarted(_) => Plan([], None)
    case SessionOutput(_, _) => Plan([], None)
  }
}
