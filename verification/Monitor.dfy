/** No lost monitor: a session check never leaves a live pipeline unwatched by accident. */
module Monitor {
  import opened Wrappers
  import opened Core
  import opened Runbook
  import opened State
  import opened Plans
  import opened Execution
  import opened Shapes

  // --------------------------------------------------------------- timer ids

  /** A timer id built by the engine is a check timer and parses back to its pipeline. */
  lemma TimerKeyParses(id: string)
    ensures TimerPipeline(TimerKey(id)) == id
    ensures StartsWith(TimerKey(id), "session:") && EndsWith(TimerKey(id), ":check")
  {
    var key := TimerKey(id);
    assert key == "session:" + (id + ":check");
    assert key[..8] == "session:";
    assert key[8..] == id + ":check";
    assert (id + ":check")[|id|..] == ":check";
    assert key[|key| - 6..] == ":check";
  }

  // --------------------------------------------------------------- outcomes

  predicate Armed(m: Machine, ref: string) { TimerKey(ref) in m.timers }

  predicate Escalated(m: Machine, id: string) {
    id in m.tables.pipelines && m.tables.pipelines[id].status == Waiting && !Armed(m, id)
  }

  /** The first operation written moves the pipeline: it was advanced or failed. */
  predicate Moved(before: Machine, after: Machine, id: string) {
    |before.log| < |after.log| && before.log == after.log[..|before.log|]
    && after.log[|before.log|].PipelineTransition? && after.log[|before.log|].id == id
  }

  lemma LastTimerArms(w: World, m: Machine, before: seq<Effect>, ref: string)
    ensures var s := ExecAll(w, m, before + [StartMonitor(ref)]); s.outcome.Ok? ==> Armed(s.machine, ref)
  {
    ExecAllAppend(w, m, before, [StartMonitor(ref)]);
  }

  lemma SpawnArms(rb: Runbook, w: World, m: Machine, p: Pipeline, before: seq<Effect>, agent: string,
                  inputs: map<string, string>)
    ensures var s := RunPlan(w, m, Before(before, SpawnPlan(rb, w, p, agent, inputs)));
            s.outcome.Ok? ==> Armed(s.machine, p.id)
  {
    if agent in rb.agents {
      var spawn := SpawnEffects(w, rb.agents[agent], agent, p, inputs);
      assert before + (spawn + [StartMonitor(p.id)]) == (before + spawn) + [StartMonitor(p.id)];
      LastTimerArms(w, m, before + spawn, p.id);
    }
  }

  lemma FirstOpMoves(w: World, m: Machine, plan: Plan, id: string)
    requires Ops(plan.effects) != []
    requires Ops(plan.effects)[0].PipelineTransition? && Ops(plan.effects)[0].id == id
    ensures var s := RunPlan(w, m, plan); s.outcome.Ok? ==> Moved(m, s.machine, id)
  {
    PlanWrites(w, m, plan);
  }

  lemma EscalationWaits(w: World, m: Machine, p: Pipeline, trigger: string)
    requires p.id in m.tables.pipelines
    ensures var s := RunPlan(w, m, Plan(EscalateEffects(p, trigger), None));
            s.outcome.Ok? ==> Escalated(s.machine, p.id)
  {
    var es := EscalateEffects(p, trigger);
    assert es == es[..3] + [CancelTimer(TimerKey(p.id))];
    ExecAllAppend(w, m, es[..3], [CancelTimer(TimerKey(p.id))]);
    PlanWrites(w, m, Plan(es, None));
    Ops4(es[0], es[1], es[2], es[3]);
    var mark := PhaseStatusUpdate(p.id, Waiting);
    assert ApplyAll(m.tables, [mark]) == ApplyAll(ApplyOp(m.tables, mark), []);
  }

  lemma ActionKeepsWatch(rb: Runbook, w: World, m: Machine, p: Pipeline, agent: AgentDef, config: ActionConfig,
                         trigger: string)
    requires p.id in m.tables.pipelines && !p.Terminal()
    ensures var s := RunPlan(w, m, ActionPlan(rb, w, p, agent, config, trigger));
            s.outcome.Ok? ==> Armed(s.machine, p.id) || Escalated(s.machine, p.id) || Moved(m, s.machine, p.id)
  {
    match config.Action()
    case Nudge =>
      if p.sessionId.Some? {
        var plan := ActionPlan(rb, w, p, agent, config, trigger);
        assert plan.effects == plan.effects[..1] + [StartMonitor(p.id)];
        LastTimerArms(w, m, plan.effects[..1], p.id);
      }
    case Done =>
      AdvanceWrites(rb, w, p);
      FirstOpMoves(w, m, AdvancePlan(rb, w, p), p.id);
    case Fail =>
      FailWrites(rb, w, p, trigger);
      FirstOpMoves(w, m, FailPlan(rb, w, p, trigger), p.id);
    case Restart => SpawnArms(rb, w, m, p, KillEffects(p) + RemoveEffects(p), agent.name, p.inputs);
    case Recover => SpawnArms(rb, w, m, p, KillEffects(p), agent.name, RecoverInputs(config, p.inputs));
    case Escalate => EscalationWaits(w, m, p, trigger);
  }

  /** Main result, for every pipeline value, session log and action configuration: when a check
      of a live pipeline reports success, its check timer is armed again (under the id the timer
      carried or the full one), or it waits for a human with the timer cancelled, or it was
      advanced or failed. */
  lemma NoLostMonitor(rb: Runbook, w: World, m: Machine, id: string)
    requires m.tables.Keyed()
    requires StartsWith(id, "session:") && EndsWith(id, ":check")
    requires var live := GetPipeline(m.tables, TimerPipeline(id)); live.Some? && !live.value.Terminal()
    ensures var ref := TimerPipeline(id);
            var p := GetPipeline(m.tables, ref).value;
            var s := Handle(rb, w, m, Timer(id));
            s.outcome.Ok? ==>
              Armed(s.machine, ref) || Armed(s.machine, p.id) || Escalated(s.machine, p.id) || Moved(m, s.machine, p.id)
  {
    var ref := TimerPipeline(id);
    var p := GetPipeline(m.tables, ref).value;
    LookupIsStored(m.tables, ref);
    LastTimerArms(w, m, [], ref);
    assert [] + [StartMonitor(ref)] == [StartMonitor(ref)];
    CheckKeepsWatch(rb, w, m, ref, w.answers(m.tick).session);
  }

  lemma CheckKeepsWatch(rb: Runbook, w: World, m: Machine, ref: string, seen: Option<SessionState>)
    requires m.tables.Keyed()
    requires GetPipeline(m.tables, ref).Some? && !GetPipeline(m.tables, ref).value.Terminal()
    ensures var p := GetPipeline(m.tables, ref).value;
            var s := RunPlan(w, m, MonitorPlan(rb, w, m.tables, ref, seen));
            s.outcome.Ok? ==>
              Armed(s.machine, ref) || Armed(s.machine, p.id) || Escalated(s.machine, p.id) || Moved(m, s.machine, p.id)
  {
    var p := GetPipeline(m.tables, ref).value;
    LookupIsStored(m.tables, ref);
    LastTimerArms(w, m, [], ref);
    assert [] + [StartMonitor(ref)] == [StartMonitor(ref)];
    if AgentDefOf(rb, p).Ok? && p.workspacePath.Some? && seen.Some? {
      var agent := AgentDefOf(rb, p).value;
      ActionKeepsWatch(rb, w, m, p, agent, agent.onIdle, "idle");
      if seen.value.SessionFailure? {
        var reason := seen.value.reason;
        ActionKeepsWatch(rb, w, m, p, agent, agent.onError.ActionFor(ErrorTypeOf(reason)), MessageOf(reason));
      }
    }
  }
}
