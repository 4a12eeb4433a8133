/** What each call sets out to do, effect by effect: in terms of the graph, of the runbook's own words and of the
    data of the call. */
module Actions {
  import opened Wrappers
  import opened Core
  import opened Runbook
  import opened State
  import opened Plans
  import opened Execution
  import opened Shapes
  import opened Safety
  import opened Walks
  import opened Deeds
  import Template

  // ------------------------------------------------------------- what may be done

  /** The pipeline stands in one of the two phases in which pipelines end. */
  predicate AtEnd(p: Pipeline) { p.phase == "done" || p.phase == "failed" }

  /** The move to the success target, told at once. */
  ghost predicate Succeeds(rb: Runbook, p: Pipeline, plan: Plan)
    requires p.kind in rb.pipelines
  {
    var target := SuccessTarget(rb.pipelines[p.kind], p.phase);
    && |plan.effects| >= 2
    && plan.effects[0] == Persist(PipelineTransition(p.id, target))
    && plan.effects[1] == Emit(Custom("pipeline:phase", map["id" := p.id, "phase" := target]))
  }

  /** The move to the failure target, told at once with the error. */
  ghost predicate FailsWith(rb: Runbook, p: Pipeline, error: string, plan: Plan)
    requires p.kind in rb.pipelines
  {
    var def := rb.pipelines[p.kind];
    var target := FailureTarget(def, p.phase);
    && |plan.effects| >= 2
    && plan.effects[0] == Persist(PipelineTransition(p.id, target))
    && plan.effects[1]
         == (if def.Has(p.phase) && def.phases[def.IndexOf(p.phase)].onFail.Some?
             then Emit(Custom("pipeline:phase", map["id" := p.id, "phase" := target, "error" := error]))
             else Emit(Custom("pipeline:failed",
                              map["pipeline_id" := p.id, "name" := p.name, "phase" := p.phase, "error" := error])))
  }

  /** Completed and told, and a linked session killed and forgotten. */
  function Completes(p: Pipeline): seq<Effect> {
    [Persist(PhaseStatusUpdate(p.id, Completed)),
     Emit(Custom("pipeline:completed", map["pipeline_id" := p.id, "name" := p.name, "kind" := p.kind]))]
    + match p.sessionId
      case None => []
      case Some(session) => [Kill(session), Persist(SessionDelete(session))]
  }

  /** Told, shown, marked Waiting, and watched no longer. */
  function Escalates(p: Pipeline, trigger: string): seq<Effect> {
    [Emit(Custom("pipeline:escalate",
                 map["pipeline_id" := p.id, "pipeline_name" := p.name, "phase" := p.phase, "reason" := trigger])),
     Notify("Pipeline needs attention: " + p.name, trigger),
     Persist(PhaseStatusUpdate(p.id, Waiting)),
     CancelTimer("session:" + p.id + ":check")]
  }

  function Watch(id: string): Effect { SetTimer("session:" + id + ":check", 10) }

  /** A session of the agent, prepared, recorded, spawned and watched, with these inputs. */
  ghost predicate Respawns(rb: Runbook, w: World, p: Pipeline, agent: string, inputs: map<string, string>,
                           effects: seq<Effect>) {
    agent in rb.agents
    && |effects| == 5
    && var path := if p.workspacePath.Some? then p.workspacePath.value else Join(w.worktreeRoot, p.name);
       && effects[0] == Prepare(agent, path)
       && effects[1] == Persist(SessionCreate(p.id, p.id))
       && effects[2].Spawn? && SpawnRuns(rb, w, effects[2], p, path, agent, inputs)
       && effects[3] == Watch(p.id) && effects[4] == Watch(p.id)
  }

  /** Its session killed, if it has one. */
  function Killed(p: Pipeline): seq<Effect> {
    match p.sessionId case None => [] case Some(session) => [Kill(session)]
  }

  /** Its worktree removed, if it has one. */
  function Removed(p: Pipeline): seq<Effect> {
    match p.workspacePath case None => [] case Some(path) => [WorktreeRemove(path)]
  }

  /** The configuration names this action. */
  predicate Names(config: ActionConfig, action: AgentAction) {
    match config
    case Simple(a) => a == action
    case WithOptions(a, _, _) => a == action
  }

  /** The text that a configuration carries. */
  function TextOf(config: ActionConfig): Option<string> {
    match config case Simple(_) => None case WithOptions(_, text, _) => text
  }

  /** What recovery gives the agent. */
  ghost predicate RecoveryInputs(config: ActionConfig, before: map<string, string>, now: map<string, string>) {
    match config
    case WithOptions(_, Some(text), appends) => Reprompted(now, before, text, appends)
    case _ => now == before
  }

  /** The plan does what the configuration says. */
  ghost predicate Does(rb: Runbook, w: World, p: Pipeline, agent: AgentDef, config: ActionConfig, trigger: string,
                       plan: Plan)
    requires p.kind in rb.pipelines
  {
    && (Names(config, Done) ==> Succeeds(rb, p, plan))
    && (Names(config, Fail) ==> FailsWith(rb, p, trigger, plan))
    && (Names(config, Escalate) ==> plan == Plan(Escalates(p, trigger), None))
    && (Names(config, Nudge) ==>
          match p.sessionId
          case None => plan == Plan([], Some(PipelineNotFound("no session")))
          case Some(session) =>
            var text := if TextOf(config).Some? then TextOf(config).value else "Please continue with the task.";
            plan == Plan([Send(session, text + "\n"), Watch(p.id)], None))
    && (Names(config, AgentAction.Restart) ==> Restarts(rb, w, p, agent.name, Killed(p) + Removed(p), p.inputs, plan))
    && (Names(config, Recover) ==>
          exists now :: RecoveryInputs(config, p.inputs, now) && Restarts(rb, w, p, agent.name, Killed(p), now, plan))
  }

  ghost predicate Restarts(rb: Runbook, w: World, p: Pipeline, agent: string, head: seq<Effect>,
                           inputs: map<string, string>, plan: Plan) {
    && head <= plan.effects
    && if agent in rb.agents
       then plan.fail.None? && Respawns(rb, w, p, agent, inputs, plan.effects[|head|..])
       else plan == Plan(head, Some(AgentNotFound(agent)))
  }

  // ----------------------------------------------------------------- they are done

  lemma SuccessBegins(rb: Runbook, w: World, p: Pipeline)
    requires p.kind in rb.pipelines && !AtEnd(p)
    ensures Succeeds(rb, p, AdvancePlan(rb, w, p))
  {
    NextIsSuccessTarget(rb, p);
  }

  /** Where nothing follows, success completes the pipeline. */
  lemma SuccessEnds(rb: Runbook, w: World, p: Pipeline)
    requires p.kind in rb.pipelines && !AtEnd(p)
    requires var def := rb.pipelines[p.kind];
             var target := SuccessTarget(def, p.phase);
             (target == "done" || target == "failed") && !def.Has(target)
    ensures AdvancePlan(rb, w, p).effects[2..] == [Persist(PipelineTransition(p.id, "done"))] + Completes(p)
    ensures AdvancePlan(rb, w, p).fail.None?
  {
    NextIsSuccessTarget(rb, p);
    var head := PhaseTransitionEffects(p, SuccessTarget(rb.pipelines[p.kind], p.phase));
    assert AdvancePlan(rb, w, p).effects == head + CompletionEffects(p);
    assert (head + CompletionEffects(p))[2..] == CompletionEffects(p);
  }

  /** A phase that does not exist cannot be begun: the move there is made and told, and then it is refused. */
  lemma SuccessAstray(rb: Runbook, w: World, p: Pipeline)
    requires p.kind in rb.pipelines && !AtEnd(p)
    requires var def := rb.pipelines[p.kind];
             var target := SuccessTarget(def, p.phase);
             target != "done" && target != "failed" && !def.Has(target)
    ensures var target := SuccessTarget(rb.pipelines[p.kind], p.phase);
            var plan := AdvancePlan(rb, w, p);
            |plan.effects| == 2 && plan.fail == Some(PipelineNotFound("phase " + target + " not found"))
  {
    NextIsSuccessTarget(rb, p);
  }

  lemma SuccessAtTheEnd(rb: Runbook, w: World, p: Pipeline)
    requires AtEnd(p)
    ensures AdvancePlan(rb, w, p) == Plan(Completes(p), None)
  {
  }

  lemma FailureBegins(rb: Runbook, w: World, p: Pipeline, error: string)
    requires p.kind in rb.pipelines
    ensures FailsWith(rb, p, error, FailPlan(rb, w, p, error))
  {
    OnFailIsFailureTarget(rb, p);
  }

  /** A phase is begun: marked Running and told. */
  predicate Begins(p: Pipeline, phase: string, effects: seq<Effect>) {
    |effects| >= 2 && effects[0] == Persist(PhaseStatusUpdate(p.id, Running)) && effects[1] == Started(p, phase)
  }

  /** A defined phase that success or failure leads to, a terminal one no less, is begun there and then. */
  lemma MovesBegin(rb: Runbook, w: World, p: Pipeline, error: string)
    requires p.kind in rb.pipelines
    ensures var def := rb.pipelines[p.kind];
            var target := SuccessTarget(def, p.phase);
            var i := def.IndexOf(p.phase);
            !AtEnd(p) && i < |def.phases| && (def.phases[i].next.Some? || i + 1 < |def.phases|) && def.Has(target) ==>
              Begins(p, target, AdvancePlan(rb, w, p).effects[2..])
    ensures var def := rb.pipelines[p.kind];
            var target := FailureTarget(def, p.phase);
            def.Has(p.phase) && def.phases[def.IndexOf(p.phase)].onFail.Some? && def.Has(target) ==>
              Begins(p, target, FailPlan(rb, w, p, error).effects[2..])
  {
    NextIsSuccessTarget(rb, p);
    OnFailIsFailureTarget(rb, p);
    BeginsBehind(rb, w, p, SuccessTarget(rb.pipelines[p.kind], p.phase), error);
    BeginsBehind(rb, w, p, FailureTarget(rb.pipelines[p.kind], p.phase), error);
  }

  lemma BeginsBehind(rb: Runbook, w: World, p: Pipeline, phase: string, error: string)
    ensures var start := StartPlan(rb, w, p, phase, p.inputs, WorkspacePath(w, p));
            && (HasPhase(rb, p.kind, phase) ==> Begins(p, phase, start.effects))
            && Before(PhaseTransitionEffects(p, phase), start).effects[2..] == start.effects
            && Before(FailureTransitionEffects(p, phase, error), start).effects[2..] == start.effects
  {
  }

  lemma SpawnDoes(rb: Runbook, w: World, p: Pipeline, agent: string, inputs: map<string, string>)
    requires agent in rb.agents
    ensures Respawns(rb, w, p, agent, inputs, SpawnPlan(rb, w, p, agent, inputs).effects)
    ensures SpawnPlan(rb, w, p, agent, inputs).fail.None?
  {
    var path := WorkspacePath(w, p);
    VarsAre(inputs, p, path);
    assert SpawnRuns(rb, w, SpawnPlan(rb, w, p, agent, inputs).effects[2], p, path, agent, inputs);
  }

  lemma RespawnDoes(rb: Runbook, w: World, p: Pipeline, agent: string, head: seq<Effect>, inputs: map<string, string>)
    ensures Restarts(rb, w, p, agent, head, inputs, Before(head, SpawnPlan(rb, w, p, agent, inputs)))
  {
    var spawn := SpawnPlan(rb, w, p, agent, inputs);
    assert (head + spawn.effects)[|head|..] == spawn.effects;
    if agent in rb.agents {
      SpawnDoes(rb, w, p, agent, inputs);
    } else {
      assert head + [] == head;
    }
  }

  lemma RecoverDoes(config: ActionConfig, inputs: map<string, string>)
    ensures RecoveryInputs(config, inputs, RecoverInputs(config, inputs))
  {
  }

  /** Each action, in its own words. */
  lemma ActionDoes(rb: Runbook, w: World, p: Pipeline, agent: AgentDef, config: ActionConfig, trigger: string)
    requires p.kind in rb.pipelines && !AtEnd(p)
    ensures Does(rb, w, p, agent, config, trigger, ActionPlan(rb, w, p, agent, config, trigger))
  {
    match config.Action()
    case Nudge =>
    case Done => SuccessBegins(rb, w, p);
    case Fail => FailureBegins(rb, w, p, trigger);
    case Restart =>
      assert KillEffects(p) + RemoveEffects(p) == Killed(p) + Removed(p);
      RespawnDoes(rb, w, p, agent.name, Killed(p) + Removed(p), p.inputs);
    case Recover =>
      RecoverDoes(config, p.inputs);
      RespawnDoes(rb, w, p, agent.name, Killed(p), RecoverInputs(config, p.inputs));
    case Escalate =>
  }

  // ---------------------------------------------------------------- agents' calls

  lemma AgentIs(rb: Runbook, p: Pipeline, a: string)
    requires PhaseRuns(rb, p.kind, p.phase, RunAgent(a)) && a in rb.agents
    ensures AgentDefOf(rb, p) == Ok(rb.agents[a])
  {
    var def := rb.pipelines[p.kind];
    assert def.Has(p.phase);
  }

  /** Main result: when the agent of a live pipeline exits, what its definition says for that is done. */
  lemma ExitDoes(rb: Runbook, w: World, m: Machine, ref: string, p: Pipeline, a: string)
    requires GetPipeline(m.tables, ref) == Some(p) && !AtEnd(p)
    requires PhaseRuns(rb, p.kind, p.phase, RunAgent(a)) && a in rb.agents
    ensures Does(rb, w, p, rb.agents[a], rb.agents[a].onExit, "exit", CallPlan(rb, w, m, ClaudeExited(ref)))
  {
    AgentIs(rb, p, a);
    ActionDoes(rb, w, p, rb.agents[a], rb.agents[a].onExit, "exit");
  }

  /** So, by the operations it writes in reachable states: done moves the pipeline to its success target, fail
      to its failure target, escalation marks it Waiting and does no more, restart and recovery record a session
      of the same agent and do no more. */
  lemma ExitWrites(rb: Runbook, w: World, m: Machine, ref: string, p: Pipeline, a: string)
    requires Invariant(w, m) && GetPipeline(m.tables, ref) == Some(p) && !AtEnd(p)
    requires PhaseRuns(rb, p.kind, p.phase, RunAgent(a)) && a in rb.agents
    ensures var ops := Ops(CallPlan(rb, w, m, ClaudeExited(ref)).effects);
            var def := rb.pipelines[p.kind];
            var config := rb.agents[a].onExit;
            && (Names(config, Done) ==> ops != [] && ops[0] == PipelineTransition(p.id, SuccessTarget(def, p.phase)))
            && (Names(config, Fail) ==> ops != [] && ops[0] == PipelineTransition(p.id, FailureTarget(def, p.phase)))
            && (Names(config, Escalate) ==> ops == [PhaseStatusUpdate(p.id, Waiting)])
            && ((Names(config, AgentAction.Restart) || Names(config, Recover)) && rb.agents[a].name in rb.agents ==>
                  ops == [SessionCreate(p.id, p.id)])
            && (Names(config, Nudge) ==> ops == [])
  {
    InvariantIsSound(w, m);
    LookupIsStored(m.tables, ref);
    ExitDoes(rb, w, m, ref, p, a);
    ActionWritesThis(rb, w, p, rb.agents[a], rb.agents[a].onExit, CallPlan(rb, w, m, ClaudeExited(ref)));
  }

  lemma ActionWritesThis(rb: Runbook, w: World, p: Pipeline, agent: AgentDef, config: ActionConfig, plan: Plan)
    requires p.kind in rb.pipelines && Bare(p) && Does(rb, w, p, agent, config, "exit", plan)
    ensures var ops := Ops(plan.effects);
            var def := rb.pipelines[p.kind];
            && (Names(config, Done) ==> ops != [] && ops[0] == PipelineTransition(p.id, SuccessTarget(def, p.phase)))
            && (Names(config, Fail) ==> ops != [] && ops[0] == PipelineTransition(p.id, FailureTarget(def, p.phase)))
            && (Names(config, Escalate) ==> ops == [PhaseStatusUpdate(p.id, Waiting)])
            && ((Names(config, AgentAction.Restart) || Names(config, Recover)) && agent.name in rb.agents ==>
                  ops == [SessionCreate(p.id, p.id)])
            && (Names(config, Nudge) ==> ops == [])
  {
    var effects := plan.effects;
    if Names(config, Done) || Names(config, Fail) {
      FirstOp(effects);
    } else if Names(config, Escalate) {
      Ops4(effects[0], effects[1], effects[2], effects[3]);
    } else if (Names(config, AgentAction.Restart) || Names(config, Recover)) && agent.name in rb.agents {
      SpawnOps(effects, p.id);
    }
  }

  lemma FirstOp(effects: seq<Effect>)
    requires |effects| >= 1 && effects[0].Persist?
    ensures Ops(effects) != [] && Ops(effects)[0] == effects[0].operation
  {
  }

  lemma SpawnOps(effects: seq<Effect>, id: string)
    requires |effects| == 5 && effects[1] == Persist(SessionCreate(id, id))
    requires !effects[0].Persist? && !effects[2].Persist? && !effects[3].Persist? && !effects[4].Persist?
    ensures Ops(effects) == [SessionCreate(id, id)]
  {
    assert effects == [effects[0], effects[1], effects[2], effects[3]] + [effects[4]];
    OpsAppend([effects[0], effects[1], effects[2], effects[3]], [effects[4]]);
    Ops4(effects[0], effects[1], effects[2], effects[3]);
    Ops1(effects[4]);
  }

  /** Why a session failed: the type of error that a definition may name, and what is said about it. */
  function Meaning(reason: FailureReason): (Option<ErrorType>, string) {
    match reason
    case Denied => (Some(Unauthorized), "API key unauthorized")
    case NoCredits => (Some(OutOfCredits), "Out of API credits")
    case Offline => (Some(NoInternet), "Network error")
    case Limited => (Some(RateLimited), "Rate limited")
    case Other(message) => (None, message)
  }

  lemma ReasonsAre(reason: FailureReason)
    ensures (ErrorTypeOf(reason), MessageOf(reason)) == Meaning(reason)
  {
  }

  /** The entry that an error type meets: the first that names it or names none. */
  ghost predicate Meets(matches: seq<ErrorMatch>, i: nat, errorType: Option<ErrorType>)
    requires i < |matches|
  {
    matches[i].errorMatch.None? || matches[i].errorMatch == errorType
  }

  ghost predicate FirstMet(matches: seq<ErrorMatch>, i: int, errorType: Option<ErrorType>) {
    && 0 <= i < |matches| && Meets(matches, i, errorType)
    && forall j :: 0 <= j < i ==> !Meets(matches, j, errorType)
  }

  /** What a definition says for an error: one action for all, or that of the first entry met, or escalation. */
  lemma {:induction false} FirstMatchIs(matches: seq<ErrorMatch>, errorType: Option<ErrorType>)
    ensures forall i :: FirstMet(matches, i, errorType) ==> FirstMatch(matches, errorType) == matches[i].config
    ensures (forall i :: 0 <= i < |matches| ==> !Meets(matches, i, errorType)) ==>
              FirstMatch(matches, errorType) == Simple(Escalate)
    decreases |matches|
  {
    if matches != [] {
      FirstMatchIs(matches[1..], errorType);
      if !Meets(matches, 0, errorType) {
        forall i | FirstMet(matches, i, errorType)
          ensures FirstMatch(matches, errorType) == matches[i].config
        {
          assert i > 0 && Meets(matches[1..], i - 1, errorType);
          forall j | 0 <= j < i - 1
            ensures !Meets(matches[1..], j, errorType)
          {
            assert !Meets(matches, j + 1, errorType);
          }
          assert FirstMet(matches[1..], i - 1, errorType);
        }
        if forall i :: 0 <= i < |matches| ==> !Meets(matches, i, errorType) {
          forall i | 0 <= i < |matches[1..]|
            ensures !Meets(matches[1..], i, errorType)
          {
            assert !Meets(matches, i + 1, errorType);
          }
        }
      }
    }
  }

  /** Main result: what a check of a live pipeline with a workspace does, by what its session log shows: an
      idle agent and a failed one are treated as its definition says, and all else is watched further. */
  lemma CheckDoes(rb: Runbook, w: World, t: Tables, ref: string, p: Pipeline, a: string, seen: Option<SessionState>)
    requires GetPipeline(t, ref) == Some(p) && !AtEnd(p) && p.workspacePath.Some?
    requires PhaseRuns(rb, p.kind, p.phase, RunAgent(a)) && a in rb.agents
    ensures var plan := TimerPlan(rb, w, t, "session:" + ref + ":check", seen);
            match seen
            case Some(WaitingForInput) => Does(rb, w, p, rb.agents[a], rb.agents[a].onIdle, "idle", plan)
            case Some(SessionFailure(reason)) =>
              (match rb.agents[a].onError
               case OneAction(config) => Does(rb, w, p, rb.agents[a], config, Meaning(reason).1, plan)
               case ByType(matches) =>
                 Does(rb, w, p, rb.agents[a], FirstMatch(matches, Meaning(reason).0), Meaning(reason).1, plan))
            case _ => plan == Plan([Watch(ref)], None)
  {
    AgentIs(rb, p, a);
    TimerIdParses(ref);
    match seen
    case Some(WaitingForInput) => ActionDoes(rb, w, p, rb.agents[a], rb.agents[a].onIdle, "idle");
    case Some(SessionFailure(reason)) =>
      ReasonsAre(reason);
      var config := rb.agents[a].onError.ActionFor(ErrorTypeOf(reason));
      ActionDoes(rb, w, p, rb.agents[a], config, MessageOf(reason));
    case _ =>
  }

  lemma TimerIdParses(ref: string)
    ensures var id := "session:" + ref + ":check";
            StartsWith(id, "session:") && EndsWith(id, ":check") && TimerPipeline(id) == ref
  {
    var id := "session:" + ref + ":check";
    assert id[..8] == "session:" && id[8..] == ref + ":check";
    assert (ref + ":check")[|ref|..] == ":check" && id[|id| - 6..] == ":check";
  }

  // ---------------------------------------------------------------- other calls

  /** Reports of agents, and the loss of a session. */
  lemma AgentReportsDo(rb: Runbook, w: World, m: Machine, ref: string, p: Pipeline, error: string)
    requires GetPipeline(m.tables, ref) == Some(p) && p.kind in rb.pipelines
    ensures !AtEnd(p) ==> Succeeds(rb, p, CallPlan(rb, w, m, Deliver(AgentDone(ref))))
    ensures AtEnd(p) ==> CallPlan(rb, w, m, Deliver(AgentDone(ref))) == Plan(Completes(p), None)
    ensures FailsWith(rb, p, error, CallPlan(rb, w, m, Deliver(AgentError(ref, error))))
    ensures FailsWith(rb, p, "tmux session exited", CallPlan(rb, w, m, TmuxExited(ref)))
  {
    AgentDoneIs(rb, w, m, ref, p);
    AgentErrorIs(rb, w, m, ref, p, error);
    TmuxExitIs(rb, w, m, ref, p);
  }

  lemma AgentErrorIs(rb: Runbook, w: World, m: Machine, ref: string, p: Pipeline, error: string)
    requires GetPipeline(m.tables, ref) == Some(p) && p.kind in rb.pipelines
    ensures FailsWith(rb, p, error, CallPlan(rb, w, m, Deliver(AgentError(ref, error))))
  {
    assert CallPlan(rb, w, m, Deliver(AgentError(ref, error))) == FailPlan(rb, w, p, error);
    FailureBegins(rb, w, p, error);
  }

  lemma TmuxExitIs(rb: Runbook, w: World, m: Machine, ref: string, p: Pipeline)
    requires GetPipeline(m.tables, ref) == Some(p) && p.kind in rb.pipelines
    ensures FailsWith(rb, p, "tmux session exited", CallPlan(rb, w, m, TmuxExited(ref)))
  {
    assert CallPlan(rb, w, m, TmuxExited(ref)) == FailPlan(rb, w, p, "tmux session exited");
    FailureBegins(rb, w, p, "tmux session exited");
  }

  lemma AgentDoneIs(rb: Runbook, w: World, m: Machine, ref: string, p: Pipeline)
    requires GetPipeline(m.tables, ref) == Some(p) && p.kind in rb.pipelines
    ensures !AtEnd(p) ==> Succeeds(rb, p, CallPlan(rb, w, m, Deliver(AgentDone(ref))))
    ensures AtEnd(p) ==> CallPlan(rb, w, m, Deliver(AgentDone(ref))) == Plan(Completes(p), None)
  {
    assert CallPlan(rb, w, m, Deliver(AgentDone(ref))) == AdvancePlan(rb, w, p);
    if AtEnd(p) {
      SuccessAtTheEnd(rb, w, p);
    } else {
      SuccessBegins(rb, w, p);
    }
  }

  /** Reports of shells. */
  lemma ShellReportsDo(rb: Runbook, w: World, m: Machine, id: string, p: Pipeline, code: int)
    requires id in m.tables.pipelines && m.tables.pipelines[id] == p && p.kind in rb.pipelines
    ensures var report := CallPlan(rb, w, m, Deliver(ShellCompleted(id, p.phase, code)));
            if code != 0 then FailsWith(rb, p, "shell exited with code " + Decimal(code), report)
            else if AtEnd(p) then report == Plan(Completes(p), None)
            else Succeeds(rb, p, report)
  {
    if code != 0 {
      assert CallPlan(rb, w, m, Deliver(ShellCompleted(id, p.phase, code))) == FailPlan(rb, w, p, ShellError(code));
      FailureBegins(rb, w, p, "shell exited with code " + Decimal(code));
    } else {
      assert CallPlan(rb, w, m, Deliver(ShellCompleted(id, p.phase, code))) == AdvancePlan(rb, w, p);
      if AtEnd(p) {
        SuccessAtTheEnd(rb, w, p);
      } else {
        SuccessBegins(rb, w, p);
      }
    }
  }

  /** Figures only, and no idle zero before them. */
  predicate Figures(digits: string) {
    (forall i :: 0 <= i < |digits| ==> '0' <= digits[i] <= '9') && (|digits| > 1 ==> digits[0] != '0')
  }

  /** The number that a decimal numeral stands for. */
  function Numeral(digits: string): nat
    requires Figures(digits)
  {
    if digits == "" then 0
    else 10 * Numeral(digits[..|digits| - 1]) + (digits[|digits| - 1] as int - '0' as int)
  }

  lemma {:induction false} DigitsRead(n: nat)
    ensures Digits(n) != "" && (n > 0 ==> Digits(n)[0] != '0')
    ensures Figures(Digits(n)) && Numeral(Digits(n)) == n
    decreases n
  {
    if n >= 10 {
      DigitsRead(n / 10);
      var digits := Digits(n);
      assert digits[..|digits| - 1] == Digits(n / 10);
    } else {
      assert Digits(n)[..0] == "";
    }
  }

  /** Exit codes are told in decimal, with a dash before the negative ones, and can be read back. */
  lemma DecimalReads(n: int)
    ensures n >= 0 ==> Figures(Decimal(n)) && Numeral(Decimal(n)) == n
    ensures n < 0 ==>
              && Decimal(n) != "" && Decimal(n)[0] == '-'
              && Figures(Decimal(n)[1..]) && Numeral(Decimal(n)[1..]) == -n
  {
    if n >= 0 {
      DigitsRead(n);
    } else {
      DigitsRead(-n);
      assert Decimal(n)[1..] == Digits(-n);
    }
  }

  /** Text for a session is sent to it, as a line; a resumed pipeline is marked Running and watched; what lacks a
      field is refused, and anything else is nothing. */
  lemma CustomDoes(t: Tables, name: string, data: map<string, string>)
    ensures name == "session:send" && "session_id" in data && "input" in data ==>
              CustomPlan(t, name, data) == Plan([Send(data["session_id"], data["input"] + "\n")], None)
    ensures name == "session:send" && "session_id" !in data ==>
              CustomPlan(t, name, data) == Plan([], Some(PipelineNotFound("missing session_id")))
    ensures name == "session:send" && "session_id" in data && "input" !in data ==>
              CustomPlan(t, name, data) == Plan([], Some(PipelineNotFound("missing input")))
    ensures name == "pipeline:resume" && "pipeline_id" !in data ==>
              CustomPlan(t, name, data) == Plan([], Some(PipelineNotFound("missing pipeline_id")))
    ensures name == "pipeline:resume" && "pipeline_id" in data ==>
              match GetPipeline(t, data["pipeline_id"])
              case None => CustomPlan(t, name, data) == Plan([], Some(PipelineNotFound(data["pipeline_id"])))
              case Some(p) =>
                CustomPlan(t, name, data) == Plan([Persist(PhaseStatusUpdate(p.id, Running)), Watch(p.id)], None)
    ensures name != "session:send" && name != "pipeline:resume" ==> CustomPlan(t, name, data) == Plan([], None)
  {
  }

  /** Text for a session goes out to it as one line, and nothing else happens. */
  lemma TextIsSent(rb: Runbook, w: World, m: Machine, data: map<string, string>)
    requires "session_id" in data && "input" in data
    ensures var s := Handle(rb, w, m, Custom("session:send", data));
            && s.machine.trace == m.trace + [Send(data["session_id"], data["input"] + "\n")]
            && s.machine.log == m.log && s.machine.tables == m.tables && s.machine.timers == m.timers
            && s.outcome == if w.answers(m.tick).ok then Ok([]) else Err(SessionFailed)
  {
    var e := Send(data["session_id"], data["input"] + "\n");
    CustomDoes(m.tables, "session:send", data);
    ExecOne(w, m, e);
    OutcomesAre(w, m, e);
    TimersAre(w, m, e);
  }

  /** A custom event that lacks a field it needs, or names no pipeline, is refused and changes nothing; one of
      another name is nothing. */
  lemma IncompleteIsRefused(rb: Runbook, w: World, m: Machine, name: string, data: map<string, string>)
    ensures var s := Handle(rb, w, m, Custom(name, data));
            && (name == "session:send" && "session_id" !in data ==>
                  s == Step(m, Err(PipelineNotFound("missing session_id"))))
            && (name == "session:send" && "session_id" in data && "input" !in data ==>
                  s == Step(m, Err(PipelineNotFound("missing input"))))
            && (name == "pipeline:resume" && "pipeline_id" !in data ==>
                  s == Step(m, Err(PipelineNotFound("missing pipeline_id"))))
            && (name == "pipeline:resume" && "pipeline_id" in data
                && GetPipeline(m.tables, data["pipeline_id"]).None? ==>
                  s == Step(m, Err(PipelineNotFound(data["pipeline_id"]))))
            && (name != "session:send" && name != "pipeline:resume" ==> s == Step(m, Ok([])))
  {
    CustomDoes(m.tables, name, data);
  }

  /** A check that finds the agent at work arms the timer again, for ten seconds from then, and does no more. */
  lemma WatchGoesOn(rb: Runbook, w: World, m: Machine, ref: string, p: Pipeline, a: string)
    requires GetPipeline(m.tables, ref) == Some(p) && !AtEnd(p) && p.workspacePath.Some?
    requires PhaseRuns(rb, p.kind, p.phase, RunAgent(a)) && a in rb.agents
    requires w.answers(m.tick).session == Some(Working)
    ensures var key := "session:" + ref + ":check";
            var s := Handle(rb, w, m, Timer(key));
            && s.outcome == Ok([]) && s.machine.log == m.log && s.machine.tables == m.tables
            && s.machine.timers == m.timers[key := w.answers(m.tick).now + 10]
  {
    CheckDoes(rb, w, m.tables, ref, p, a, Some(Working));
    ExecOne(w, m, Watch(ref));
    OutcomesAre(w, m, Watch(ref));
    TimersAre(w, m, Watch(ref));
  }

  /** The exit of a session: its owner goes on, as if it had ended well, or is moved to "failed". */
  lemma SessionExitDoes(rb: Runbook, w: World, t: Tables, tick: nat, session: string, code: int, p: Pipeline)
    requires OwnerOf(w, t, session) == Some(p) && p.kind in rb.pipelines
    ensures p.id in t.pipelines && t.Keyed() ==> t.pipelines[p.id] == p && p.sessionId == Some(session)
    ensures var plan := EventPlan(rb, w, t, tick, SessionExited(session, code));
            if code != 0 then plan == Plan([Persist(PipelineTransition(p.id, "failed"))], None)
            else if AtEnd(p) then plan == Plan(Completes(p.(sessionId := None)), None)
            else Succeeds(rb, p, plan)
  {
    if code == 0 {
      var (after, effects) := AfterSessionExit(p, code);
      NothingFirst(effects, AdvancePlan(rb, w, after));
      if AtEnd(p) {
        SuccessAtTheEnd(rb, w, after);
      } else {
        SuccessBegins(rb, w, after);
      }
    }
  }

  lemma NothingFirst(effects: seq<Effect>, plan: Plan)
    requires effects == []
    ensures Before(effects, plan) == plan
  {
  }

  /** Whatever names no stored pipeline is refused by what it named. */
  lemma UnknownRefused(rb: Runbook, w: World, m: Machine, ref: string, error: string, phase: string, code: int)
    requires GetPipeline(m.tables, ref).None?
    ensures forall call :: call in {Deliver(AgentDone(ref)), Deliver(AgentError(ref, error)), TmuxExited(ref),
                                    ClaudeExited(ref), Deliver(Timer("session:" + ref + ":check")),
                                    Deliver(ShellCompleted(ref, phase, code))} ==>
              CallPlan(rb, w, m, call) == Plan([], Some(PipelineNotFound(ref)))
  {
    TimerIdParses(ref);
  }

  /** The exit of an agent, and a check, of a pipeline that has ended are nothing; of one whose phase runs no agent
      that is defined they are refused for that reason; and a check is, too, of one without a workspace. */
  lemma AgentlessRefused(rb: Runbook, w: World, t: Tables, ref: string, p: Pipeline, seen: Option<SessionState>)
    requires GetPipeline(t, ref) == Some(p)
    ensures var exit := ClaudeExitedPlan(rb, w, t, ref);
            var check := TimerPlan(rb, w, t, "session:" + ref + ":check", seen);
            && (AtEnd(p) ==> exit == check == Plan([], None))
            && (!AtEnd(p) && p.kind !in rb.pipelines ==>
                  exit == check == Plan([], Some(PipelineDefNotFound(p.kind))))
            && (!AtEnd(p) && p.kind in rb.pipelines ==>
                  && ((forall i :: 0 <= i < |rb.pipelines[p.kind].phases| ==>
                         rb.pipelines[p.kind].phases[i].name != p.phase) ==>
                        exit == check == Plan([], Some(PipelineNotFound("phase " + p.phase + " not found"))))
                  && (forall run :: PhaseRuns(rb, p.kind, p.phase, run) ==>
                        match run
                        case RunAgent(a) =>
                          && (a !in rb.agents ==> exit == check == Plan([], Some(AgentNotFound(a))))
                          && (a in rb.agents && p.workspacePath.None? ==>
                                check == Plan([], Some(PipelineNotFound("no workspace"))))
                        case _ => exit == check == Plan([], Some(InvalidRunDirective("phase " + p.phase)))))
  {
    TimerIdParses(ref);
    if !AtEnd(p) && p.kind in rb.pipelines {
      var def := rb.pipelines[p.kind];
      forall run | PhaseRuns(rb, p.kind, p.phase, run)
        ensures def.Has(p.phase) && def.phases[def.IndexOf(p.phase)].run == run
      {
        RunIsFirst(rb, p.kind, p.phase, run);
      }
    }
  }

  lemma RunIsFirst(rb: Runbook, kind: string, phase: string, run: RunDirective)
    requires PhaseRuns(rb, kind, phase, run)
    ensures var def := rb.pipelines[kind]; def.Has(phase) && def.phases[def.IndexOf(phase)].run == run
  {
    var def := rb.pipelines[kind];
    var i :| 0 <= i < |def.phases| && def.phases[i].name == phase && def.phases[i].run == run
             && forall j :: 0 <= j < i ==> def.phases[j].name != phase;
    assert def.IndexOf(phase) == i;
  }

  ghost predicate Unowned(t: Tables, session: string) {
    forall id :: id in t.pipelines ==> t.pipelines[id].sessionId != Some(session)
  }

  /** Other timers are nothing to the engine, and so are other events; the one timer id that only seems to hold a
      pipeline's stands for itself. */
  lemma OthersAreNothing(rb: Runbook, w: World, t: Tables, tick: nat, event: Event)
    ensures event.WorkerWake? || event.SessionStarted? || event.SessionOutput? ==>
              EventPlan(rb, w, t, tick, event) == Plan([], None)
    ensures event.SessionExited? && Unowned(t, event.sessionId) ==> EventPlan(rb, w, t, tick, event) == Plan([], None)
    ensures event.Timer? && event.id != "session:check" && (forall ref :: event.id != "session:" + ref + ":check") ==>
              EventPlan(rb, w, t, tick, event) == Plan([], None)
    ensures TimerPipeline("session:check") == "session:check"
  {
    if event.SessionExited? && Unowned(t, event.sessionId) {
      assert SessionOwners(t, event.sessionId) == {};
    }
    if event.Timer? && StartsWith(event.id, "session:") && EndsWith(event.id, ":check") {
      OnlyChecks(event.id);
    }
    assert "session:check"[8..] == "check";
  }

  lemma OnlyChecks(id: string)
    requires StartsWith(id, "session:") && EndsWith(id, ":check")
    ensures id == "session:check" || id == "session:" + (if |id| >= 14 then id[8..|id| - 6] else "") + ":check"
  {
    assert id[..8] == "session:" && id[|id| - 6..] == ":check";
    if |id| >= 14 {
      assert id == id[..8] + id[8..|id| - 6] + id[|id| - 6..];
    } else {
      assert id[7] == "session:"[7] && id[7] == id[|id| - 6..][13 - |id|];
      assert ":check"[13 - |id|] == ':';
      assert |id| == 13 && id == id[..8] + id[|id| - 6..][1..];
    }
  }

  /** A command that is not defined, or runs no pipeline or one that is not defined, is refused for that reason and
      changes nothing. */
  lemma CommandsRefused(rb: Runbook, w: World, m: Machine, command: string, args: map<string, string>)
    ensures var s := Handle(rb, w, m, CommandInvoked(command, args));
            && (command !in rb.commands ==> s == Step(m, Err(CommandNotFound(command))))
            && (command in rb.commands ==>
                  match rb.commands[command].run
                  case RunPipeline(kind) => kind !in rb.pipelines ==> s == Step(m, Err(PipelineDefNotFound(kind)))
                  case _ => s == Step(m, Err(InvalidRunDirective("command"))))
  {
  }

  /** A phase that cannot be started is refused, before it is marked if it is not defined and after if only
      what it runs cannot be run. */
  lemma StartsRefused(rb: Runbook, w: World, p: Pipeline, phase: string, inputs: map<string, string>, path: string)
    requires p.kind in rb.pipelines
    ensures var plan := StartPlan(rb, w, p, phase, inputs, path);
            var marked := [Persist(PhaseStatusUpdate(p.id, Running)), Started(p, phase)];
            && ((forall i :: 0 <= i < |rb.pipelines[p.kind].phases| ==> rb.pipelines[p.kind].phases[i].name != phase)
                  ==> plan == Plan([], Some(PipelineNotFound("phase " + phase + " not found"))))
            && (forall run :: PhaseRuns(rb, p.kind, phase, run) ==>
                  match run
                  case RunShell(_) => plan.fail.None? && |plan.effects| == 3 && marked <= plan.effects
                                      && plan.effects[2].Shell?
                  case RunAgent(a) =>
                    if a in rb.agents then plan.fail.None? && marked <= plan.effects
                    else plan == Plan(marked, Some(AgentNotFound(a)))
                  case _ => plan == Plan(marked, Some(InvalidRunDirective("phase " + phase))))
  {
    var def := rb.pipelines[p.kind];
    forall run | PhaseRuns(rb, p.kind, phase, run)
      ensures def.Has(phase) && def.phases[def.IndexOf(phase)].run == run
    {
      RunIsFirst(rb, p.kind, phase, run);
    }
    assert PhaseStartEffects(p.id, phase) + [] == PhaseStartEffects(p.id, phase);
  }
}
