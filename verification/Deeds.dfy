/** What was done: every effect that a run ever attempted, in terms of the runbook, of the pipeline it was
    done for, and of what was done before it. */
module Deeds {
  import opened Wrappers
  import opened Core
  import opened Runbook
  import opened State
  import opened Plans
  import opened Execution
  import opened Shapes
  import opened Safety
  import Recovery
  import Template

  // ------------------------------------------------------ what each effect has to be

  /** The variables of a command: some inputs, and under three names what the pipeline is. */
  ghost predicate AreVars(vars: map<string, string>, inputs: map<string, string>, p: Pipeline, path: string) {
    && "pipeline_id" in vars && vars["pipeline_id"] == p.id
    && "name" in vars && vars["name"] == p.name
    && "workspace" in vars && vars["workspace"] == path
    && forall k :: k != "pipeline_id" && k != "name" && k != "workspace" ==>
         (k in vars <==> k in inputs) && (k in vars ==> vars[k] == inputs[k])
  }

  /** The first phase of this name does this. */
  ghost predicate PhaseRuns(rb: Runbook, kind: string, phase: string, run: RunDirective) {
    && kind in rb.pipelines
    && var phases := rb.pipelines[kind].phases;
       exists i :: 0 <= i < |phases| && phases[i].name == phase && phases[i].run == run
                   && forall j :: 0 <= j < i ==> phases[j].name != phase
  }

  /** A shell command is that of its phase, with the pipeline's own data put in. */
  ghost predicate ShellIs(rb: Runbook, w: World, e: Effect, p: Pipeline, path: string)
    requires e.Shell?
  {
    && e.pipelineId == p.id && e.cwd == path
    && exists template, vars ::
         && PhaseRuns(rb, p.kind, e.phase, RunShell(template)) && AreVars(vars, p.inputs, p, path)
         && e.command == Template.Interpolate(w.env, template, vars)
  }

  /** The agent is that of a phase of this kind, or goes by the name which that agent's definition bears. */
  ghost predicate Employs(rb: Runbook, kind: string, agent: string) {
    && agent in rb.agents
    && exists phase, a ::
         && PhaseRuns(rb, kind, phase, RunAgent(a))
         && (a == agent || (a in rb.agents && rb.agents[a].name == agent))
  }

  /** The same inputs but for the prompt, which is the text or has it appended after an empty line. */
  ghost predicate Reprompted(now: map<string, string>, inputs: map<string, string>, text: string, appends: bool) {
    && "prompt" in now
    && now["prompt"]
         == (if appends then (if "prompt" in inputs then inputs["prompt"] else "") + "\n\n" + text else text)
    && forall k :: k != "prompt" ==> (k in now <==> k in inputs) && (k in now ==> now[k] == inputs[k])
  }

  /** What a session may be given: the pipeline's inputs, or what recovery after an agent's exit makes of them. */
  ghost predicate GivenInputs(rb: Runbook, p: Pipeline, now: map<string, string>) {
    || now == p.inputs
    || exists phase, a, text, appends ::
         && PhaseRuns(rb, p.kind, phase, RunAgent(a)) && a in rb.agents
         && rb.agents[a].onExit == WithOptions(Recover, Some(text), appends)
         && Reprompted(now, p.inputs, text, appends)
  }

  /** A session runs its agent's command with these inputs and the pipeline's own data put in, in the
      directory that the agent's `cwd` names or else in none of its own. */
  ghost predicate SpawnRuns(rb: Runbook, w: World, e: Effect, p: Pipeline, path: string, agent: string,
                            inputs: map<string, string>)
    requires e.Spawn? && agent in rb.agents
  {
    && e.workspaceId == p.id
    && exists vars ::
         && AreVars(vars, inputs, p, path)
         && e.command == Template.Interpolate(w.env, rb.agents[agent].run, vars)
         && (match rb.agents[agent].cwd
             case None => e.cwdOverride.None?
             case Some(cwd) => e.cwdOverride == Some(Join(path, Template.Interpolate(w.env, cwd, vars))))
  }

  ghost predicate SpawnIs(rb: Runbook, w: World, e: Effect, p: Pipeline, path: string, agent: string)
    requires e.Spawn?
  {
    && Employs(rb, p.kind, agent)
    && exists inputs :: GivenInputs(rb, p, inputs) && SpawnRuns(rb, w, e, p, path, agent, inputs)
  }

  /** The n-th effect from the end. */
  function Back(before: seq<Effect>, n: nat): Effect
    requires 0 < n <= |before|
  {
    before[|before| - n]
  }

  /** The effect that brings the pipeline into the phase. */
  ghost predicate PutsIn(e: Effect, p: Pipeline, phase: string) {
    || e == Persist(PipelineTransition(p.id, phase))
    || (e.Persist? && e.operation.PipelineCreate? && e.operation.id == p.id && e.operation.initialPhase == phase)
  }

  function Started(p: Pipeline, phase: string): Effect {
    Emit(Custom("pipeline:phase:start", map["pipeline_id" := p.id, "phase" := phase]))
  }

  /** An event tells what was just written. */
  ghost predicate Tells(before: seq<Effect>, event: Event, p: Pipeline) {
    || (exists phase, reason ::
          event == Custom("pipeline:escalate",
                          map["pipeline_id" := p.id, "pipeline_name" := p.name, "phase" := phase, "reason" := reason]))
    || (|before| > 0 && Back(before, 1).Persist? && TellsOf(before, Back(before, 1).operation, event, p))
  }

  ghost predicate TellsOf(before: seq<Effect>, op: Operation, event: Event, p: Pipeline) {
    match op
    case PipelineTransition(id, phase) =>
      && id == p.id
      && (|| event == Custom("pipeline:phase", map["id" := id, "phase" := phase])
          || (exists error :: event == Custom("pipeline:phase", map["id" := id, "phase" := phase, "error" := error]))
          || (phase == "failed" && exists from, error ::
                event == Custom("pipeline:failed",
                                map["pipeline_id" := id, "name" := p.name, "phase" := from, "error" := error])))
    case PhaseStatusUpdate(id, Running) =>
      id == p.id && |before| >= 3
      && exists phase :: PutsIn(Back(before, 3), p, phase) && Emit(event) == Started(p, phase)
    case PhaseStatusUpdate(id, Completed) =>
      id == p.id
      && event == Custom("pipeline:completed", map["pipeline_id" := id, "name" := p.name, "kind" := p.kind])
    case PipelineCreate(id, kind, name, inputs, _) =>
      id == p.id && kind == p.kind && name == p.name && inputs == p.inputs
      && event == Custom("pipeline:created", map["id" := id, "name" := name, "kind" := kind])
    case _ => false
  }

  /** An effect for this pipeline, after these. */
  ghost predicate Fit(rb: Runbook, w: World, before: seq<Effect>, e: Effect, p: Pipeline, path: string) {
    match e
    case Shell(_, phase, _, _) =>
      && ShellIs(rb, w, e, p, path)
      && |before| >= 2 && Back(before, 1) == Started(p, phase)
      && Back(before, 2) == Persist(PhaseStatusUpdate(p.id, Running))
    case Prepare(agent, workspace) => workspace == path && Employs(rb, p.kind, agent)
    case Spawn(_, _, _) =>
      && |before| >= 2 && Back(before, 1) == Persist(SessionCreate(p.id, p.id))
      && Back(before, 2).Prepare? && Back(before, 2).workspace == path
      && SpawnIs(rb, w, e, p, path, Back(before, 2).agent)
    case SetTimer(id, duration) => id == "session:" + p.id + ":check" && duration == 10
    case CancelTimer(id) =>
      id == "session:" + p.id + ":check" && |before| >= 1
      && Back(before, 1) == Persist(PhaseStatusUpdate(p.id, Waiting))
    case Emit(event) => Tells(before, event, p)
    case Notify(title, message) =>
      && title == "Pipeline needs attention: " + p.name && |before| >= 1
      && exists phase ::
           Back(before, 1) == Emit(Custom("pipeline:escalate",
             map["pipeline_id" := p.id, "pipeline_name" := p.name, "phase" := phase, "reason" := message]))
    case Persist(op) =>
      !op.PipelineCreate? && !op.PipelineDelete? && !op.WorkspaceCreate? && !op.WorkspaceDelete?
    case Send(_, _) => false
    case Kill(_) => false
    case WorktreeAdd(_, _) => false
    case WorktreeRemove(_) => false
  }

  predicate NeedsDirectory(e: Effect) { e.Shell? || e.Spawn? || e.Prepare? }

  /** An effect of some stored pipeline, whose worktree was added before it if it needs one; or the adding of
      a worktree that was recorded just before; or an operation, or text sent to a session. */
  ghost predicate Meant(rb: Runbook, w: World, t: Tables, before: seq<Effect>, e: Effect) {
    || e.Persist? || e.Send?
    || (&& e.WorktreeAdd? && |before| > 0
        && exists id ::
             && id in t.workspaces && t.workspaces[id] == Workspace(id, e.path, e.branch)
             && Back(before, 1) == Persist(WorkspaceCreate(id, e.path, e.branch)))
    || (exists id ::
          && id in t.pipelines && id in t.workspaces
          && Fit(rb, w, before, e, t.pipelines[id], t.workspaces[id].path)
          && (NeedsDirectory(e) ==> WorktreeAdd(t.workspaces[id].branch, t.workspaces[id].path) in before))
  }

  ghost predicate AllMeant(rb: Runbook, w: World, t: Tables, trace: seq<Effect>) {
    forall i :: 0 <= i < |trace| ==> Meant(rb, w, t, trace[..i], trace[i])
  }

  /** Every stored pipeline has a worktree: added, recorded, and named after it. */
  ghost predicate Housed(w: World, t: Tables, trace: seq<Effect>) {
    forall id :: id in t.pipelines ==>
      && id in t.workspaces
      && var name := t.pipelines[id].name;
         && t.workspaces[id] == Workspace(id, Join(w.worktreeRoot, name), "feature/" + name)
         && WorktreeAdd("feature/" + name, Join(w.worktreeRoot, name)) in trace
  }

  ghost predicate Told(rb: Runbook, w: World, m: Machine) {
    AllMeant(rb, w, m.tables, m.trace) && Housed(w, m.tables, m.trace)
  }

  // ------------------------------------------------------------- lists of effects

  /** Every effect of a list fits, after `before` and the effects that precede it. */
  ghost predicate AllFit(rb: Runbook, w: World, before: seq<Effect>, effects: seq<Effect>, p: Pipeline, path: string) {
    forall i :: 0 <= i < |effects| ==> Fit(rb, w, before + effects[..i], effects[i], p, path)
  }

  lemma FitLater(rb: Runbook, w: World, earlier: seq<Effect>, before: seq<Effect>, e: Effect, p: Pipeline, path: string)
    requires Fit(rb, w, before, e, p, path)
    ensures Fit(rb, w, earlier + before, e, p, path)
  {
    BackLater(earlier, before);
    if e.Emit? {
      TellsLater(earlier, before, e.event, p);
    }
  }

  lemma BackLater(earlier: seq<Effect>, before: seq<Effect>)
    ensures forall n: nat :: 0 < n <= |before| ==> Back(earlier + before, n) == Back(before, n)
  {
  }

  lemma TellsLater(earlier: seq<Effect>, before: seq<Effect>, event: Event, p: Pipeline)
    requires Tells(before, event, p)
    ensures Tells(earlier + before, event, p)
  {
    BackLater(earlier, before);
    if |before| > 0 && Back(before, 1).Persist? && TellsOf(before, Back(before, 1).operation, event, p) {
      assert Back(earlier + before, 1) == Back(before, 1);
      if |before| >= 3 {
        assert Back(earlier + before, 3) == Back(before, 3);
      }
    }
  }

  lemma AllFitLater(rb: Runbook, w: World, earlier: seq<Effect>, before: seq<Effect>, effects: seq<Effect>, p: Pipeline,
                    path: string)
    requires AllFit(rb, w, before, effects, p, path)
    ensures AllFit(rb, w, earlier + before, effects, p, path)
  {
    forall i | 0 <= i < |effects|
      ensures Fit(rb, w, earlier + before + effects[..i], effects[i], p, path)
    {
      FitLater(rb, w, earlier, before + effects[..i], effects[i], p, path);
      assert earlier + (before + effects[..i]) == earlier + before + effects[..i];
    }
  }

  lemma AllFitBoth(rb: Runbook, w: World, before: seq<Effect>, a: seq<Effect>, b: seq<Effect>, p: Pipeline,
                   path: string)
    requires AllFit(rb, w, before, a, p, path) && AllFit(rb, w, before + a, b, p, path)
    ensures AllFit(rb, w, before, a + b, p, path)
  {
    forall i | 0 <= i < |a + b|
      ensures Fit(rb, w, before + (a + b)[..i], (a + b)[i], p, path)
    {
      InBoth(before, a, b, i);
      if i < |a| {
        FitAt(rb, w, before, a, i, p, path);
      } else {
        FitAt(rb, w, before + a, b, i - |a|, p, path);
      }
    }
  }

  lemma InBoth(before: seq<Effect>, a: seq<Effect>, b: seq<Effect>, i: nat)
    requires i < |a + b|
    ensures i < |a| ==> before + (a + b)[..i] == before + a[..i] && (a + b)[i] == a[i]
    ensures i >= |a| ==> before + (a + b)[..i] == before + a + b[..i - |a|] && (a + b)[i] == b[i - |a|]
  {
  }

  // ----------------------------------------------------------- the handlers' lists

  /** A record as reachable states hold it. */
  predicate Bare(p: Pipeline) { p.sessionId.None? && p.workspacePath.None? }

  lemma VarsAre(inputs: map<string, string>, p: Pipeline, path: string)
    ensures AreVars(PhaseVars(inputs, p.id, p.name, path), inputs, p, path)
  {
  }

  lemma RunIs(rb: Runbook, kind: string, phase: string)
    requires HasPhase(rb, kind, phase)
    ensures PhaseRuns(rb, kind, phase, rb.pipelines[kind].GetPhase(phase).value.run)
  {
    var def := rb.pipelines[kind];
    assert def.phases[def.IndexOf(phase)].name == phase;
  }

  lemma ShellFits(rb: Runbook, w: World, before: seq<Effect>, p: Pipeline, phase: string, path: string)
    requires |before| >= 2 && Back(before, 1) == Started(p, phase)
    requires Back(before, 2) == Persist(PhaseStatusUpdate(p.id, Running))
    requires HasPhase(rb, p.kind, phase) && rb.pipelines[p.kind].GetPhase(phase).value.run.RunShell?
    ensures var run := rb.pipelines[p.kind].GetPhase(phase).value.run;
            AllFit(rb, w, before, RunPlanOf(rb, w, p, phase, run, p.inputs, path).effects, p, path)
  {
    RunIs(rb, p.kind, phase);
    VarsAre(p.inputs, p, path);
    var run := rb.pipelines[p.kind].GetPhase(phase).value.run;
    var effects := RunPlanOf(rb, w, p, phase, run, p.inputs, path).effects;
    assert PhaseRuns(rb, p.kind, phase, RunShell(run.command));
    assert ShellIs(rb, w, effects[0], p, path);
    assert before + effects[..0] == before;
  }

  lemma SpawnFits(rb: Runbook, w: World, before: seq<Effect>, p: Pipeline, agent: string, inputs: map<string, string>)
    requires agent in rb.agents ==> Employs(rb, p.kind, agent)
    requires GivenInputs(rb, p, inputs)
    ensures AllFit(rb, w, before, SpawnPlan(rb, w, p, agent, inputs).effects, p, WorkspacePath(w, p))
  {
    if agent in rb.agents {
      var path := WorkspacePath(w, p);
      var effects := SpawnPlan(rb, w, p, agent, inputs).effects;
      VarsAre(inputs, p, path);
      assert SpawnRuns(rb, w, effects[2], p, path, agent, inputs);
      forall i | 0 <= i < |effects|
        ensures Fit(rb, w, before + effects[..i], effects[i], p, path)
      {
        if i == 2 {
          assert Back(before + effects[..2], 1) == effects[1] && Back(before + effects[..2], 2) == effects[0];
        }
      }
    }
  }

  lemma StartFits(rb: Runbook, w: World, before: seq<Effect>, p: Pipeline, phase: string)
    requires Bare(p) && |before| >= 2 && PutsIn(Back(before, 2), p, phase)
    ensures AllFit(rb, w, before, StartPlan(rb, w, p, phase, p.inputs, WorkspacePath(w, p)).effects, p,
                   WorkspacePath(w, p))
  {
    if HasPhase(rb, p.kind, phase) {
      var run := rb.pipelines[p.kind].GetPhase(phase).value.run;
      var path := WorkspacePath(w, p);
      var head := PhaseStartEffects(p.id, phase);
      MarkFits(rb, w, before, p, phase, path);
      assert Back(before + head, 1) == head[1] && Back(before + head, 2) == head[0];
      RunFits(rb, w, before + head, p, phase);
      AllFitBoth(rb, w, before, head, RunPlanOf(rb, w, p, phase, run, p.inputs, path).effects, p, path);
    }
  }

  lemma MarkFits(rb: Runbook, w: World, before: seq<Effect>, p: Pipeline, phase: string, path: string)
    requires |before| >= 2 && PutsIn(Back(before, 2), p, phase)
    ensures AllFit(rb, w, before, PhaseStartEffects(p.id, phase), p, path)
  {
    var head := PhaseStartEffects(p.id, phase);
    var ready := before + head[..1];
    assert Back(ready, 1) == head[0] && Back(ready, 3) == Back(before, 2);
    assert head[1] == Started(p, phase);
    assert Tells(ready, head[1].event, p);
  }

  lemma RunFits(rb: Runbook, w: World, before: seq<Effect>, p: Pipeline, phase: string)
    requires |before| >= 2 && Back(before, 1) == Started(p, phase)
    requires Back(before, 2) == Persist(PhaseStatusUpdate(p.id, Running))
    requires HasPhase(rb, p.kind, phase)
    ensures var run := rb.pipelines[p.kind].GetPhase(phase).value.run;
            var path := WorkspacePath(w, p);
            AllFit(rb, w, before, RunPlanOf(rb, w, p, phase, run, p.inputs, path).effects, p, path)
  {
    var run := rb.pipelines[p.kind].GetPhase(phase).value.run;
    if run.RunShell? {
      ShellFits(rb, w, before, p, phase, WorkspacePath(w, p));
    } else if run.RunAgent? {
      RunIs(rb, p.kind, phase);
      SpawnFits(rb, w, before, p, run.agent, p.inputs);
    }
  }

  /** A move and its announcement. */
  lemma HeadFits(rb: Runbook, w: World, before: seq<Effect>, p: Pipeline, phase: string, error: string, path: string)
    ensures AllFit(rb, w, before, PhaseTransitionEffects(p, phase), p, path)
    ensures AllFit(rb, w, before, FailureTransitionEffects(p, phase, error), p, path)
    ensures AllFit(rb, w, before, FailureEffects(p, error), p, path)
  {
    var a, b := PhaseTransitionEffects(p, phase), FailureTransitionEffects(p, phase, error);
    var c := FailureEffects(p, error);
    assert Back(before + a[..1], 1) == a[0] && Back(before + b[..1], 1) == b[0] && Back(before + c[..1], 1) == c[0];
    assert TellsOf(before + b[..1], b[0].operation, b[1].event, p);
    assert TellsOf(before + c[..1], c[0].operation, c[1].event, p);
  }

  lemma CompleteFits(rb: Runbook, w: World, before: seq<Effect>, p: Pipeline, path: string)
    requires Bare(p)
    ensures AllFit(rb, w, before, CompletionEffects(p), p, path)
  {
    var effects := CompletionEffects(p);
    forall i | 0 <= i < |effects|
      ensures Fit(rb, w, before + effects[..i], effects[i], p, path)
    {
      if i > 0 {
        assert Back(before + effects[..i], 1) == effects[i - 1];
      }
    }
  }

  lemma MoveFits(rb: Runbook, w: World, p: Pipeline, head: seq<Effect>, next: string)
    requires Bare(p) && |head| == 2 && PutsIn(head[0], p, next)
    requires AllFit(rb, w, [], head, p, WorkspacePath(w, p))
    ensures AllFit(rb, w, [], Before(head, StartPlan(rb, w, p, next, p.inputs, WorkspacePath(w, p))).effects, p,
                   WorkspacePath(w, p))
  {
    assert [] + head == head;
    StartFits(rb, w, head, p, next);
    AllFitBoth(rb, w, [], head, StartPlan(rb, w, p, next, p.inputs, WorkspacePath(w, p)).effects, p,
               WorkspacePath(w, p));
  }

  lemma AdvanceFits(rb: Runbook, w: World, p: Pipeline)
    requires Bare(p)
    ensures AllFit(rb, w, [], AdvancePlan(rb, w, p).effects, p, WorkspacePath(w, p))
  {
    var path := WorkspacePath(w, p);
    CompleteFits(rb, w, [], p, path);
    if !p.Terminal() {
      var next := if NextPhaseName(rb, p).Some? then NextPhaseName(rb, p).value else "done";
      var head := PhaseTransitionEffects(p, next);
      HeadFits(rb, w, [], p, next, "", path);
      MoveFits(rb, w, p, head, next);
      CompleteFits(rb, w, [] + head, p, path);
      AllFitBoth(rb, w, [], head, CompletionEffects(p), p, path);
    }
  }

  lemma FailFits(rb: Runbook, w: World, p: Pipeline, error: string)
    requires Bare(p)
    ensures AllFit(rb, w, [], FailPlan(rb, w, p, error).effects, p, WorkspacePath(w, p))
  {
    var next := if OnFail(rb, p).Some? then OnFail(rb, p).value else "failed";
    HeadFits(rb, w, [], p, next, error, WorkspacePath(w, p));
    if OnFail(rb, p).Some? {
      MoveFits(rb, w, p, FailureTransitionEffects(p, next, error), next);
    }
  }

  lemma RecoveredAre(rb: Runbook, p: Pipeline, phase: string, a: string)
    requires PhaseRuns(rb, p.kind, phase, RunAgent(a)) && a in rb.agents && rb.agents[a].onExit.Action().Recover?
    ensures GivenInputs(rb, p, RecoverInputs(rb.agents[a].onExit, p.inputs))
  {
    var config := rb.agents[a].onExit;
    if config.Message().Some? {
      assert config == WithOptions(Recover, Some(config.Message().value), config.Append());
      assert Reprompted(RecoverInputs(config, p.inputs), p.inputs, config.Message().value, config.Append());
    }
  }

  lemma ExitFits(rb: Runbook, w: World, p: Pipeline, phase: string, a: string)
    requires Bare(p) && PhaseRuns(rb, p.kind, phase, RunAgent(a)) && a in rb.agents
    ensures AllFit(rb, w, [], ActionPlan(rb, w, p, rb.agents[a], rb.agents[a].onExit, "exit").effects, p,
                   WorkspacePath(w, p))
  {
    var agent := rb.agents[a];
    var path := WorkspacePath(w, p);
    match agent.onExit.Action()
    case Nudge =>
    case Done => AdvanceFits(rb, w, p);
    case Fail => FailFits(rb, w, p, "exit");
    case Restart =>
      SpawnFits(rb, w, [], p, agent.name, p.inputs);
      var effects := SpawnPlan(rb, w, p, agent.name, p.inputs).effects;
      assert [] + effects == effects;
    case Recover =>
      RecoveredAre(rb, p, phase, a);
      var inputs := RecoverInputs(agent.onExit, p.inputs);
      SpawnFits(rb, w, [], p, agent.name, inputs);
      assert [] + SpawnPlan(rb, w, p, agent.name, inputs).effects == SpawnPlan(rb, w, p, agent.name, inputs).effects;
    case Escalate => EscalateFits(rb, w, p, "exit", path);
  }

  lemma EscalateFits(rb: Runbook, w: World, p: Pipeline, trigger: string, path: string)
    ensures AllFit(rb, w, [], EscalateEffects(p, trigger), p, path)
  {
    var effects := EscalateEffects(p, trigger);
    forall i | 0 <= i < |effects|
      ensures Fit(rb, w, [] + effects[..i], effects[i], p, path)
    {
      if i > 0 {
        assert Back([] + effects[..i], 1) == effects[i - 1];
      }
    }
  }

  // ------------------------------------------------------------- carrying them out

  ghost predicate SamePipeline(p: Pipeline, q: Pipeline) {
    p.id == q.id && p.kind == q.kind && p.name == q.name && p.inputs == q.inputs
  }

  /** What was in the tables is there still, but for where pipelines stand. */
  ghost predicate Kept(t: Tables, u: Tables) {
    && (forall id :: id in t.workspaces ==> id in u.workspaces && u.workspaces[id] == t.workspaces[id])
    && (forall id :: id in t.pipelines ==> id in u.pipelines && SamePipeline(t.pipelines[id], u.pipelines[id]))
  }

  lemma FitSame(rb: Runbook, w: World, before: seq<Effect>, e: Effect, p: Pipeline, q: Pipeline, path: string)
    requires Fit(rb, w, before, e, p, path) && SamePipeline(p, q)
    ensures Fit(rb, w, before, e, q, path)
  {
    if e.Emit? {
      TellsSame(before, e.event, p, q);
    } else if e.Shell? {
      var template, vars :| PhaseRuns(rb, p.kind, e.phase, RunShell(template)) && AreVars(vars, p.inputs, p, path)
                            && e.command == Template.Interpolate(w.env, template, vars);
      assert AreVars(vars, q.inputs, q, path);
    } else if e.Spawn? {
      SpawnSame(rb, w, e, p, q, path, Back(before, 2).agent);
    }
  }

  lemma TellsSame(before: seq<Effect>, event: Event, p: Pipeline, q: Pipeline)
    requires Tells(before, event, p) && SamePipeline(p, q)
    ensures Tells(before, event, q)
  {
    if |before| >= 3 {
      forall phase | PutsIn(Back(before, 3), p, phase)
        ensures PutsIn(Back(before, 3), q, phase) && Started(p, phase) == Started(q, phase)
      {
      }
    }
  }

  lemma SpawnSame(rb: Runbook, w: World, e: Effect, p: Pipeline, q: Pipeline, path: string, agent: string)
    requires e.Spawn? && SpawnIs(rb, w, e, p, path, agent) && SamePipeline(p, q)
    ensures SpawnIs(rb, w, e, q, path, agent)
  {
    var inputs :| GivenInputs(rb, p, inputs) && SpawnRuns(rb, w, e, p, path, agent, inputs);
    var vars :|
      && AreVars(vars, inputs, p, path)
      && e.command == Template.Interpolate(w.env, rb.agents[agent].run, vars)
      && (match rb.agents[agent].cwd
          case None => e.cwdOverride.None?
          case Some(cwd) => e.cwdOverride == Some(Join(path, Template.Interpolate(w.env, cwd, vars))));
    assert AreVars(vars, inputs, q, path);
    assert GivenInputs(rb, q, inputs) && SpawnRuns(rb, w, e, q, path, agent, inputs);
  }

  lemma MeantStays(rb: Runbook, w: World, t: Tables, u: Tables, before: seq<Effect>, e: Effect)
    requires Meant(rb, w, t, before, e) && Kept(t, u)
    ensures Meant(rb, w, u, before, e)
  {
    if id :| id in t.pipelines && id in t.workspaces && Fit(rb, w, before, e, t.pipelines[id], t.workspaces[id].path)
             && (NeedsDirectory(e) ==> WorktreeAdd(t.workspaces[id].branch, t.workspaces[id].path) in before)
    {
      FitSame(rb, w, before, e, t.pipelines[id], u.pipelines[id], t.workspaces[id].path);
    }
  }

  /** One more effect, and perhaps other tables. */
  lemma TraceGrows(rb: Runbook, w: World, t: Tables, u: Tables, trace: seq<Effect>, e: Effect)
    requires AllMeant(rb, w, t, trace) && Kept(t, u) && Meant(rb, w, u, trace, e)
    ensures AllMeant(rb, w, u, trace + [e])
  {
    forall i | 0 <= i < |trace + [e]|
      ensures Meant(rb, w, u, (trace + [e])[..i], (trace + [e])[i])
    {
      InGrown(trace, e, i);
      if i < |trace| {
        MeantStays(rb, w, t, u, trace[..i], trace[i]);
      }
    }
  }

  lemma InGrown(trace: seq<Effect>, e: Effect, i: nat)
    requires i <= |trace|
    ensures i < |trace| ==> (trace + [e])[..i] == trace[..i] && (trace + [e])[i] == trace[i]
    ensures i == |trace| ==> (trace + [e])[..i] == trace && (trace + [e])[i] == e
  {
  }

  /** The pipeline is stored as this one, and has this directory. */
  ghost predicate Known(t: Tables, p: Pipeline, path: string) {
    && p.id in t.pipelines && SamePipeline(t.pipelines[p.id], p)
    && p.id in t.workspaces && t.workspaces[p.id].path == path
  }

  lemma ExecKeeps(w: World, m: Machine, e: Effect)
    requires e.Persist? ==>
      !e.operation.PipelineCreate? && !e.operation.PipelineDelete?
      && !e.operation.WorkspaceCreate? && !e.operation.WorkspaceDelete?
    ensures var n := Exec(w, m, e).machine;
            && n.trace == m.trace + [e] && Kept(m.tables, n.tables)
            && n.tables.workspaces == m.tables.workspaces && n.tables.pipelines.Keys == m.tables.pipelines.Keys
  {
    ExecIs(w, m, e);
    if e.Persist? {
      OpKeeps(m.tables, e.operation);
    }
  }

  lemma ExecIs(w: World, m: Machine, e: Effect)
    ensures var n := Exec(w, m, e).machine;
            && n.trace == m.trace + [e]
            && (n.tables == m.tables || (e.Persist? && n.tables == ApplyOp(m.tables, e.operation)))
  {
  }

  lemma OpKeeps(t: Tables, op: Operation)
    requires !op.PipelineCreate? && !op.PipelineDelete? && !op.WorkspaceCreate? && !op.WorkspaceDelete?
    ensures var u := ApplyOp(t, op);
            Kept(t, u) && u.workspaces == t.workspaces && u.pipelines.Keys == t.pipelines.Keys
  {
  }

  lemma HousedStays(w: World, t: Tables, u: Tables, trace: seq<Effect>, e: Effect)
    requires Housed(w, t, trace) && Kept(t, u) && u.pipelines.Keys == t.pipelines.Keys
    ensures Housed(w, u, trace + [e])
  {
    forall id | id in u.pipelines
      ensures id in u.workspaces
      ensures var name := u.pipelines[id].name;
              && u.workspaces[id] == Workspace(id, Join(w.worktreeRoot, name), "feature/" + name)
              && WorktreeAdd("feature/" + name, Join(w.worktreeRoot, name)) in trace + [e]
    {
      assert id in t.pipelines;
    }
  }

  lemma EffectTold(rb: Runbook, w: World, m: Machine, e: Effect, p: Pipeline, path: string)
    requires Told(rb, w, m) && Known(m.tables, p, path) && Fit(rb, w, m.trace, e, p, path)
    ensures Told(rb, w, Exec(w, m, e).machine) && Known(Exec(w, m, e).machine.tables, p, path)
  {
    var n := Exec(w, m, e).machine;
    ExecKeeps(w, m, e);
    KnownStays(m.tables, n.tables, p, path);
    FitIsMeant(rb, w, n.tables, m.trace, e, p, path);
    OneMoreTold(rb, w, m, n, e);
  }

  lemma KnownStays(t: Tables, u: Tables, p: Pipeline, path: string)
    requires Known(t, p, path) && Kept(t, u)
    ensures Known(u, p, path)
  {
  }

  lemma FitIsMeant(rb: Runbook, w: World, t: Tables, before: seq<Effect>, e: Effect, p: Pipeline, path: string)
    requires Known(t, p, path) && Fit(rb, w, before, e, p, path)
    requires WorktreeAdd(t.workspaces[p.id].branch, path) in before
    ensures Meant(rb, w, t, before, e)
  {
    FitSame(rb, w, before, e, p, t.pipelines[p.id], path);
  }

  lemma AllFitTail(rb: Runbook, w: World, before: seq<Effect>, effects: seq<Effect>, p: Pipeline, path: string)
    requires effects != [] && AllFit(rb, w, before, effects, p, path)
    ensures Fit(rb, w, before, effects[0], p, path)
    ensures AllFit(rb, w, before + [effects[0]], effects[1..], p, path)
  {
    FitAt(rb, w, before, effects, 0, p, path);
    assert before + effects[..0] == before;
    forall i | 0 <= i < |effects[1..]|
      ensures Fit(rb, w, before + [effects[0]] + effects[1..][..i], effects[1..][i], p, path)
    {
      FitAt(rb, w, before, effects, i + 1, p, path);
      OneLater(before, effects, i);
    }
  }

  lemma FitAt(rb: Runbook, w: World, before: seq<Effect>, effects: seq<Effect>, i: nat, p: Pipeline, path: string)
    requires i < |effects| && AllFit(rb, w, before, effects, p, path)
    ensures Fit(rb, w, before + effects[..i], effects[i], p, path)
  {
  }

  lemma OneLater(before: seq<Effect>, effects: seq<Effect>, i: nat)
    requires i + 1 < |effects|
    ensures before + [effects[0]] + effects[1..][..i] == before + effects[..i + 1]
    ensures effects[1..][i] == effects[i + 1]
  {
  }

  lemma {:induction false} EffectsTold(rb: Runbook, w: World, m: Machine, effects: seq<Effect>, p: Pipeline,
                                       path: string)
    requires Told(rb, w, m) && Known(m.tables, p, path) && AllFit(rb, w, m.trace, effects, p, path)
    ensures Told(rb, w, ExecAll(w, m, effects).machine)
    decreases |effects|
  {
    if effects != [] {
      var first := Exec(w, m, effects[0]);
      AllFitTail(rb, w, m.trace, effects, p, path);
      EffectTold(rb, w, m, effects[0], p, path);
      if first.outcome.Ok? {
        assert first.machine.trace == m.trace + [effects[0]];
        EffectsTold(rb, w, first.machine, effects[1..], p, path);
      }
    }
  }

  /** As much of a list that fits on its own as comes before a crash. */
  lemma FirstTold(rb: Runbook, w: World, m: Machine, effects: seq<Effect>, n: nat, p: Pipeline, path: string)
    requires Told(rb, w, m) && Known(m.tables, p, path) && AllFit(rb, w, [], effects, p, path) && n <= |effects|
    ensures Told(rb, w, ExecAll(w, m, effects[..n]).machine)
  {
    AllFitLater(rb, w, m.trace, [], effects, p, path);
    assert m.trace + [] == m.trace;
    forall i | 0 <= i < n
      ensures Fit(rb, w, m.trace + effects[..n][..i], effects[..n][i], p, path)
    {
      assert effects[..n][..i] == effects[..i];
    }
    EffectsTold(rb, w, m, effects[..n], p, path);
  }

  // ---------------------------------------------------------------- every input

  lemma StoredIsKnown(w: World, m: Machine, p: Pipeline)
    requires Invariant(w, m) && Stored(m.tables, p)
    ensures Bare(p) && Known(m.tables, p, WorkspacePath(w, p))
  {
    InvariantIsSound(w, m);
    assert SoundPipeline(w, m.tables, p.id);
  }

  lemma AgentTold(rb: Runbook, w: World, m: Machine, ref: string, error: Option<string>, n: nat)
    requires Invariant(w, m) && Told(rb, w, m) && n <= |AgentPlan(rb, w, m.tables, ref, error).effects|
    ensures Told(rb, w, ExecAll(w, m, AgentPlan(rb, w, m.tables, ref, error).effects[..n]).machine)
  {
    InvariantIsSound(w, m);
    LookupIsStored(m.tables, ref);
    if GetPipeline(m.tables, ref).Some? {
      var p := GetPipeline(m.tables, ref).value;
      StoredIsKnown(w, m, p);
      AdvanceFits(rb, w, p);
      FailFits(rb, w, p, if error.Some? then error.value else "");
      FirstTold(rb, w, m, AgentPlan(rb, w, m.tables, ref, error).effects, n, p, WorkspacePath(w, p));
    }
  }

  lemma ShellTold(rb: Runbook, w: World, m: Machine, id: string, phase: string, code: int, n: nat)
    requires Invariant(w, m) && Told(rb, w, m) && n <= |ShellPlan(rb, w, m.tables, id, phase, code).effects|
    ensures Told(rb, w, ExecAll(w, m, ShellPlan(rb, w, m.tables, id, phase, code).effects[..n]).machine)
  {
    InvariantIsSound(w, m);
    if id in m.tables.pipelines {
      var p := m.tables.pipelines[id];
      StoredIsKnown(w, m, p);
      AdvanceFits(rb, w, p);
      FailFits(rb, w, p, ShellError(code));
      FirstTold(rb, w, m, ShellPlan(rb, w, m.tables, id, phase, code).effects, n, p, WorkspacePath(w, p));
    }
  }

  lemma TmuxTold(rb: Runbook, w: World, m: Machine, ref: string, n: nat)
    requires Invariant(w, m) && Told(rb, w, m) && n <= |TmuxExitedPlan(rb, w, m.tables, ref).effects|
    ensures Told(rb, w, ExecAll(w, m, TmuxExitedPlan(rb, w, m.tables, ref).effects[..n]).machine)
  {
    InvariantIsSound(w, m);
    LookupIsStored(m.tables, ref);
    if GetPipeline(m.tables, ref).Some? {
      var p := GetPipeline(m.tables, ref).value;
      StoredIsKnown(w, m, p);
      FailFits(rb, w, p, "tmux session exited");
      FirstTold(rb, w, m, TmuxExitedPlan(rb, w, m.tables, ref).effects, n, p, WorkspacePath(w, p));
    }
  }

  lemma ClaudeTold(rb: Runbook, w: World, m: Machine, ref: string, n: nat)
    requires Invariant(w, m) && Told(rb, w, m) && n <= |ClaudeExitedPlan(rb, w, m.tables, ref).effects|
    ensures Told(rb, w, ExecAll(w, m, ClaudeExitedPlan(rb, w, m.tables, ref).effects[..n]).machine)
  {
    InvariantIsSound(w, m);
    LookupIsStored(m.tables, ref);
    if GetPipeline(m.tables, ref).Some? {
      var p := GetPipeline(m.tables, ref).value;
      if !p.Terminal() && AgentDefOf(rb, p).Ok? {
        StoredIsKnown(w, m, p);
        RunIs(rb, p.kind, p.phase);
        ExitFits(rb, w, p, p.phase, rb.pipelines[p.kind].GetPhase(p.phase).value.run.agent);
        FirstTold(rb, w, m, ClaudeExitedPlan(rb, w, m.tables, ref).effects, n, p, WorkspacePath(w, p));
      }
    }
  }

  lemma CustomTold(rb: Runbook, w: World, m: Machine, name: string, data: map<string, string>, n: nat)
    requires Invariant(w, m) && Told(rb, w, m) && n <= |CustomPlan(m.tables, name, data).effects|
    ensures Told(rb, w, ExecAll(w, m, CustomPlan(m.tables, name, data).effects[..n]).machine)
  {
    var effects := CustomPlan(m.tables, name, data).effects;
    if name == "session:send" && effects != [] {
      SendTold(rb, w, m, effects[0], n);
    } else if name == "pipeline:resume" && "pipeline_id" in data {
      ResumeTold(rb, w, m, data["pipeline_id"], n);
    }
  }

  lemma ResumeTold(rb: Runbook, w: World, m: Machine, ref: string, n: nat)
    requires Invariant(w, m) && Told(rb, w, m) && n <= |ResumePlan(m.tables, ref).effects|
    ensures Told(rb, w, ExecAll(w, m, ResumePlan(m.tables, ref).effects[..n]).machine)
  {
    InvariantIsSound(w, m);
    LookupIsStored(m.tables, ref);
    if GetPipeline(m.tables, ref).Some? {
      var p := GetPipeline(m.tables, ref).value;
      StoredIsKnown(w, m, p);
      ResumeFits(rb, w, p, WorkspacePath(w, p));
      FirstTold(rb, w, m, ResumePlan(m.tables, ref).effects, n, p, WorkspacePath(w, p));
    }
  }

  lemma ResumeFits(rb: Runbook, w: World, p: Pipeline, path: string)
    ensures AllFit(rb, w, [], [Persist(PhaseStatusUpdate(p.id, Running)), StartMonitor(p.id)], p, path)
  {
  }

  lemma SendTold(rb: Runbook, w: World, m: Machine, e: Effect, n: nat)
    requires Told(rb, w, m) && e.Send? && n <= 1
    ensures Told(rb, w, ExecAll(w, m, [e][..n]).machine)
  {
    if n == 1 {
      ExecKeeps(w, m, e);
      TraceGrows(rb, w, m.tables, m.tables, m.trace, e);
      HousedStays(w, m.tables, m.tables, m.trace, e);
      assert [e][..1] == [e] && [e][1..] == [];
    } else {
      assert [e][..0] == [];
    }
  }

  // ------------------------------------------------------------------- commands

  /** The creation, up to the record of the pipeline, and then what is done for it. */
  ghost predicate Creation(w: World, effects: seq<Effect>, p: Pipeline, path: string) {
    && |effects| >= 3
    && effects[0] == Persist(WorkspaceCreate(p.id, path, "feature/" + p.name))
    && effects[1] == WorktreeAdd("feature/" + p.name, path)
    && effects[2] == Persist(PipelineCreate(p.id, p.kind, p.name, p.inputs, p.phase))
    && path == Join(w.worktreeRoot, p.name)
    && p == NewPipeline(p.id, p.name, p.kind, p.inputs, p.phase)
  }

  lemma CommandFits(rb: Runbook, w: World, kind: string, id: string, args: map<string, string>) returns (p: Pipeline)
    requires kind in rb.pipelines
    ensures p.id == id && p.kind == kind && p.inputs == args
    ensures p.name == if "name" in args then args["name"] else id
    ensures var effects := CommandPlan(rb, w, kind, rb.pipelines[kind], id, args).effects;
            var path := Join(w.worktreeRoot, p.name);
            Creation(w, effects, p, path) && AllFit(rb, w, effects[..3], effects[3..], p, path)
  {
    var def := rb.pipelines[kind];
    var name := if "name" in args then args["name"] else id;
    var path := Join(w.worktreeRoot, name);
    var initial := if def.phases == [] then "init" else def.phases[0].name;
    p := NewPipeline(id, name, kind, args, initial);
    var head := CreateEffects(id, kind, name, args, initial, path);
    var rest := if def.phases == [] then [] else StartPlan(rb, w, p, initial, args, path).effects;
    FirstFits(rb, w, p, head, rest, path);
    CommandInParts(rb, w, p, head, rest, path);
    assert CommandPlan(rb, w, kind, def, id, args).effects == head + rest;
    HeadAndRest(head, rest);
  }

  lemma HeadAndRest(head: seq<Effect>, rest: seq<Effect>)
    requires |head| == 4
    ensures (head + rest)[..3] == head[..3] && (head + rest)[3..] == [head[3]] + rest
  {
  }

  lemma FirstFits(rb: Runbook, w: World, p: Pipeline, head: seq<Effect>, rest: seq<Effect>, path: string)
    requires Bare(p) && path == WorkspacePath(w, p)
    requires head == CreateEffects(p.id, p.kind, p.name, p.inputs, p.phase, path)
    requires rest == [] || rest == StartPlan(rb, w, p, p.phase, p.inputs, path).effects
    ensures AllFit(rb, w, head, rest, p, path)
  {
    if rest != [] {
      CreatedFits(rb, w, p, head, path);
      StartFits(rb, w, head, p, p.phase);
    }
  }

  lemma CommandInParts(rb: Runbook, w: World, p: Pipeline, head: seq<Effect>, rest: seq<Effect>, path: string)
    requires head == CreateEffects(p.id, p.kind, p.name, p.inputs, p.phase, path)
    requires AllFit(rb, w, head, rest, p, path)
    ensures AllFit(rb, w, head[..3], [head[3]] + rest, p, path)
  {
    CreatedFits(rb, w, p, head, path);
    assert head[..3] + [head[3]] == head;
    AllFitBoth(rb, w, head[..3], [head[3]], rest, p, path);
  }

  lemma CreatedFits(rb: Runbook, w: World, p: Pipeline, head: seq<Effect>, path: string)
    requires head == CreateEffects(p.id, p.kind, p.name, p.inputs, p.phase, path)
    ensures AllFit(rb, w, head[..3], [head[3]], p, path)
    ensures PutsIn(Back(head, 2), p, p.phase)
  {
    assert head[..3] + [head[3]][..0] == head[..3];
    assert Back(head[..3], 1) == head[2];
  }

  /** A machine that did one thing more, which is to be expected of it. */
  lemma OneMoreTold(rb: Runbook, w: World, m: Machine, n: Machine, e: Effect)
    requires Told(rb, w, m) && n.trace == m.trace + [e] && Kept(m.tables, n.tables)
    requires n.tables.pipelines.Keys == m.tables.pipelines.Keys && Meant(rb, w, n.tables, m.trace, e)
    ensures Told(rb, w, n)
  {
    TraceGrows(rb, w, m.tables, n.tables, m.trace, e);
    HousedStays(w, m.tables, n.tables, m.trace, e);
  }

  lemma WorkspaceStored(w: World, m: Machine, id: string, path: string, branch: string)
    requires id !in m.tables.workspaces && id !in m.tables.pipelines
    ensures var s := Exec(w, m, Persist(WorkspaceCreate(id, path, branch)));
            var n := s.machine;
            && n.trace == m.trace + [Persist(WorkspaceCreate(id, path, branch))]
            && Kept(m.tables, n.tables) && n.tables.pipelines == m.tables.pipelines
            && (s.outcome.Ok? ==> id in n.tables.workspaces && n.tables.workspaces[id] == Workspace(id, path, branch))
  {
  }

  /** The first effects of a creation, however far they get. */
  lemma WorkspaceTold(rb: Runbook, w: World, m: Machine, p: Pipeline, path: string)
    requires Told(rb, w, m) && p.id !in m.tables.workspaces && p.id !in m.tables.pipelines
    ensures var s := Exec(w, m, Persist(WorkspaceCreate(p.id, path, "feature/" + p.name)));
            && Told(rb, w, s.machine) && s.machine.trace != []
            && Back(s.machine.trace, 1) == Persist(WorkspaceCreate(p.id, path, "feature/" + p.name))
            && p.id !in s.machine.tables.pipelines
            && (s.outcome.Ok? ==>
                  && p.id in s.machine.tables.workspaces
                  && s.machine.tables.workspaces[p.id] == Workspace(p.id, path, "feature/" + p.name))
  {
    var e := Persist(WorkspaceCreate(p.id, path, "feature/" + p.name));
    WorkspaceStored(w, m, p.id, path, "feature/" + p.name);
    OneMoreTold(rb, w, m, Exec(w, m, e).machine, e);
  }

  lemma WorktreeTold(rb: Runbook, w: World, m: Machine, p: Pipeline, path: string)
    requires Told(rb, w, m) && p.id in m.tables.workspaces && p.id !in m.tables.pipelines
    requires m.tables.workspaces[p.id] == Workspace(p.id, path, "feature/" + p.name) && m.trace != []
    requires Back(m.trace, 1) == Persist(WorkspaceCreate(p.id, path, "feature/" + p.name))
    ensures var s := Exec(w, m, WorktreeAdd("feature/" + p.name, path));
            && Told(rb, w, s.machine) && s.machine.tables == m.tables
            && s.machine.trace == m.trace + [WorktreeAdd("feature/" + p.name, path)]
  {
    var e := WorktreeAdd("feature/" + p.name, path);
    TraceGrows(rb, w, m.tables, m.tables, m.trace, e);
    HousedStays(w, m.tables, m.tables, m.trace, e);
  }

  lemma PipelineStored(w: World, m: Machine, p: Pipeline)
    requires p.id !in m.tables.pipelines && p == NewPipeline(p.id, p.name, p.kind, p.inputs, p.phase)
    ensures var s := Exec(w, m, Persist(PipelineCreate(p.id, p.kind, p.name, p.inputs, p.phase)));
            var n := s.machine;
            && n.trace == m.trace + [Persist(PipelineCreate(p.id, p.kind, p.name, p.inputs, p.phase))]
            && Kept(m.tables, n.tables) && n.tables.workspaces == m.tables.workspaces
            && n.tables.pipelines == if s.outcome.Ok? then m.tables.pipelines[p.id := p] else m.tables.pipelines
  {
  }

  lemma PipelineTold(rb: Runbook, w: World, m: Machine, p: Pipeline, path: string)
    requires Told(rb, w, m) && p.id in m.tables.workspaces && p.id !in m.tables.pipelines
    requires m.tables.workspaces[p.id] == Workspace(p.id, path, "feature/" + p.name)
    requires path == Join(w.worktreeRoot, p.name) && WorktreeAdd("feature/" + p.name, path) in m.trace
    requires p == NewPipeline(p.id, p.name, p.kind, p.inputs, p.phase)
    ensures var s := Exec(w, m, Persist(PipelineCreate(p.id, p.kind, p.name, p.inputs, p.phase)));
            && Told(rb, w, s.machine)
            && (s.outcome.Ok? ==> Known(s.machine.tables, p, path))
  {
    var e := Persist(PipelineCreate(p.id, p.kind, p.name, p.inputs, p.phase));
    var n := Exec(w, m, e).machine;
    PipelineStored(w, m, p);
    TraceGrows(rb, w, m.tables, n.tables, m.trace, e);
    HousedMore(w, m.tables, n.tables, m.trace, e, p);
  }

  lemma HousedMore(w: World, t: Tables, u: Tables, trace: seq<Effect>, e: Effect, p: Pipeline)
    requires Housed(w, t, trace) && u.workspaces == t.workspaces
    requires u.pipelines == t.pipelines || u.pipelines == t.pipelines[p.id := p]
    requires p.id in t.workspaces && WorktreeAdd("feature/" + p.name, Join(w.worktreeRoot, p.name)) in trace
    requires t.workspaces[p.id] == Workspace(p.id, Join(w.worktreeRoot, p.name), "feature/" + p.name)
    ensures Housed(w, u, trace + [e])
  {
  }

  /** A creation, or as much of it as comes before a failure or a crash. */
  lemma CreationTold(rb: Runbook, w: World, m: Machine, effects: seq<Effect>, n: nat, p: Pipeline, path: string)
    requires Told(rb, w, m) && p.id !in m.tables.workspaces && p.id !in m.tables.pipelines
    requires Creation(w, effects, p, path) && AllFit(rb, w, effects[..3], effects[3..], p, path) && n <= |effects|
    ensures Told(rb, w, ExecAll(w, m, effects[..n]).machine)
  {
    if n > 0 {
      var one := Exec(w, m, effects[0]);
      assert effects[..n][1..] == effects[1..n];
      WorkspaceTold(rb, w, m, p, path);
      if one.outcome.Ok? && n > 1 {
        WorktreeOn(rb, w, one.machine, effects, n, p, path);
      } else if n == 1 {
        assert effects[1..1] == [];
      }
    }
  }

  lemma WorktreeOn(rb: Runbook, w: World, m: Machine, effects: seq<Effect>, n: nat, p: Pipeline, path: string)
    requires Told(rb, w, m) && p.id in m.tables.workspaces && p.id !in m.tables.pipelines
    requires m.tables.workspaces[p.id] == Workspace(p.id, path, "feature/" + p.name) && m.trace != []
    requires 1 < n <= |effects| && Creation(w, effects, p, path) && Back(m.trace, 1) == effects[0]
    requires AllFit(rb, w, effects[..3], effects[3..], p, path)
    ensures Told(rb, w, ExecAll(w, m, effects[1..n]).machine)
  {
    var two := Exec(w, m, effects[1]);
    assert effects[1..n][1..] == effects[2..n];
    WorktreeTold(rb, w, m, p, path);
    if two.outcome.Ok? && n > 2 {
      PipelineOn(rb, w, m.trace[..|m.trace| - 1], two.machine, effects, n, p, path);
    } else if n == 2 {
      assert effects[2..2] == [];
    }
  }

  lemma PipelineOn(rb: Runbook, w: World, earlier: seq<Effect>, m: Machine, effects: seq<Effect>, n: nat, p: Pipeline,
                   path: string)
    requires Told(rb, w, m) && p.id in m.tables.workspaces && p.id !in m.tables.pipelines
    requires m.tables.workspaces[p.id] == Workspace(p.id, path, "feature/" + p.name)
    requires 2 < n <= |effects| && Creation(w, effects, p, path) && m.trace == earlier + [effects[0]] + [effects[1]]
    requires AllFit(rb, w, effects[..3], effects[3..], p, path)
    ensures Told(rb, w, ExecAll(w, m, effects[2..n]).machine)
  {
    assert effects[2..n][1..] == effects[3..][..n - 3];
    assert effects[1] in m.trace;
    PipelineTold(rb, w, m, p, path);
    ThreeDone(w, earlier, m, effects);
    PipelineThen(rb, w, earlier, m, effects[2], effects[..3], effects[3..], effects[2..n], p, path);
  }

  lemma PipelineThen(rb: Runbook, w: World, earlier: seq<Effect>, m: Machine, e: Effect, head: seq<Effect>,
                     rest: seq<Effect>, some: seq<Effect>, p: Pipeline, path: string)
    requires var s := Exec(w, m, e);
             && Told(rb, w, s.machine) && s.machine.trace == earlier + head
             && (s.outcome.Ok? ==> Known(s.machine.tables, p, path))
    requires some != [] && some[0] == e && |some| <= |rest| + 1 && some[1..] == rest[..|some| - 1]
    requires AllFit(rb, w, head, rest, p, path)
    ensures Told(rb, w, ExecAll(w, m, some).machine)
  {
    var s := Exec(w, m, e);
    if s.outcome.Ok? {
      RestTold(rb, w, earlier, s.machine, head, rest, |some| - 1, p, path);
    }
  }

  lemma ThreeDone(w: World, earlier: seq<Effect>, m: Machine, effects: seq<Effect>)
    requires |effects| >= 3 && m.trace == earlier + [effects[0]] + [effects[1]]
    ensures Exec(w, m, effects[2]).machine.trace == earlier + effects[..3]
  {
    assert effects[..3] == [effects[0]] + [effects[1]] + [effects[2]];
    assert Exec(w, m, effects[2]).machine.trace == m.trace + [effects[2]];
  }

  lemma RestTold(rb: Runbook, w: World, earlier: seq<Effect>, m: Machine, head: seq<Effect>, rest: seq<Effect>, n: nat,
                 p: Pipeline, path: string)
    requires Told(rb, w, m) && Known(m.tables, p, path) && n <= |rest|
    requires m.trace == earlier + head && AllFit(rb, w, head, rest, p, path)
    ensures Told(rb, w, ExecAll(w, m, rest[..n]).machine)
  {
    AllFitLater(rb, w, earlier, head, rest, p, path);
    AllFitCut(rb, w, m.trace, rest, n, p, path);
    EffectsTold(rb, w, m, rest[..n], p, path);
  }

  lemma AllFitCut(rb: Runbook, w: World, before: seq<Effect>, effects: seq<Effect>, n: nat, p: Pipeline, path: string)
    requires AllFit(rb, w, before, effects, p, path) && n <= |effects|
    ensures AllFit(rb, w, before, effects[..n], p, path)
  {
    forall i | 0 <= i < n
      ensures Fit(rb, w, before + effects[..n][..i], effects[..n][i], p, path)
    {
      FitAt(rb, w, before, effects, i, p, path);
      assert effects[..n][..i] == effects[..i];
    }
  }

  lemma NewIdIsNew(w: World, m: Machine)
    requires FreshIds(w) && Invariant(w, m)
    ensures w.ids(m.tick) !in m.tables.workspaces && w.ids(m.tick) !in m.tables.pipelines
  {
    InvariantIsSound(w, m);
  }

  lemma CommandTold(rb: Runbook, w: World, m: Machine, command: string, args: map<string, string>, n: nat)
    requires FreshIds(w) && Invariant(w, m) && Told(rb, w, m)
    requires n <= |InvokePlan(rb, w, command, args, w.ids(m.tick)).effects|
    ensures Told(rb, w, ExecAll(w, m, InvokePlan(rb, w, command, args, w.ids(m.tick)).effects[..n]).machine)
  {
    var effects := InvokePlan(rb, w, command, args, w.ids(m.tick)).effects;
    if effects != [] {
      var p := CommandFits(rb, w, rb.commands[command].run.pipeline, w.ids(m.tick), args);
      NewIdIsNew(w, m);
      CreationTold(rb, w, m, effects, n, p, Join(w.worktreeRoot, p.name));
    }
  }

  // --------------------------------------------------------------- main result

  lemma EventTold(rb: Runbook, w: World, m: Machine, event: Event, n: nat)
    requires FreshIds(w) && Invariant(w, m) && Told(rb, w, m)
    requires n <= |EventPlan(rb, w, m.tables, m.tick, event).effects|
    ensures Told(rb, w, ExecAll(w, m, EventPlan(rb, w, m.tables, m.tick, event).effects[..n]).machine)
  {
    match event
    case CommandInvoked(command, args) => CommandTold(rb, w, m, command, args, n);
    case SessionExited(_, _) => SilentEvent(rb, w, m, event);
    case AgentDone(ref) => AgentTold(rb, w, m, ref, None, n);
    case AgentError(ref, error) => AgentTold(rb, w, m, ref, Some(error), n);
    case ShellCompleted(id, phase, code) => ShellTold(rb, w, m, id, phase, code, n);
    case Timer(_) => SilentEvent(rb, w, m, event);
    case Custom(name, data) => CustomTold(rb, w, m, name, data, n);
    case WorkerWake(_) =>
    case SessionStarted(_) =>
    case SessionOutput(_, _) =>
  }

  lemma CallTold(rb: Runbook, w: World, m: Machine, c: Call, n: nat)
    requires FreshIds(w) && Invariant(w, m) && Told(rb, w, m) && n <= |CallPlan(rb, w, m, c).effects|
    ensures Told(rb, w, ExecAll(w, m, CallPlan(rb, w, m, c).effects[..n]).machine)
  {
    match c
    case Deliver(event) => EventTold(rb, w, m, event, n);
    case TmuxExited(ref) => TmuxTold(rb, w, m, ref, n);
    case ClaudeExited(ref) => ClaudeTold(rb, w, m, ref, n);
  }

  lemma InputTold(rb: Runbook, w: World, m: Machine, i: Input)
    requires FreshIds(w) && Invariant(w, m) && Told(rb, w, m)
    ensures Told(rb, w, ExecAll(w, m, InputPlan(rb, w, m, i).effects).machine)
  {
    if !i.Restart? {
      var call := if i.Complete? then i.call else i.crashed;
      var effects := CallPlan(rb, w, m, call).effects;
      assert effects[..|effects|] == effects;
      CallTold(rb, w, m, call, |InputPlan(rb, w, m, i).effects|);
    }
  }

  lemma NextTold(rb: Runbook, w: World, m: Machine, i: Input)
    requires FreshIds(w) && Invariant(w, m) && Told(rb, w, m)
    ensures Told(rb, w, Next(rb, w, m, i))
  {
    InputTold(rb, w, m, i);
    Recovery.LiveIsReplay(w, m, InputPlan(rb, w, m, i).effects);
  }

  lemma {:induction false} RunTold(rb: Runbook, w: World, m: Machine, inputs: seq<Input>)
    requires FreshIds(w) && Invariant(w, m) && Told(rb, w, m)
    ensures Told(rb, w, Run(rb, w, m, inputs))
    decreases |inputs|
  {
    if inputs != [] {
      NextKeepsInvariant(rb, w, m, inputs[0]);
      NextTold(rb, w, m, inputs[0]);
      RunTold(rb, w, Next(rb, w, m, inputs[0]), inputs[1..]);
    }
  }

  /** Main result: over any run of any runbook, crashes included, every effect ever attempted was meant: it was
      one for a stored pipeline, with the content that the runbook gives it and behind the effects that give
      rise to it; and every stored pipeline has a worktree that was added and recorded under its name. */
  lemma EverythingIsMeant(rb: Runbook, w: World, inputs: seq<Input>)
    requires FreshIds(w)
    ensures var m := Run(rb, w, INITIAL, inputs);
            AllMeant(rb, w, m.tables, m.trace) && Housed(w, m.tables, m.trace)
  {
    InitialInvariant(w);
    RunTold(rb, w, INITIAL, inputs);
  }

  /** The pipeline that something was run or prepared for. */
  lemma WhoseIs(rb: Runbook, w: World, m: Machine, i: nat) returns (id: string)
    requires Told(rb, w, m) && i < |m.trace| && NeedsDirectory(m.trace[i])
    ensures id in m.tables.pipelines && id in m.tables.workspaces
    ensures Fit(rb, w, m.trace[..i], m.trace[i], m.tables.pipelines[id], m.tables.workspaces[id].path)
    ensures WorktreeAdd(m.tables.workspaces[id].branch, m.tables.workspaces[id].path) in m.trace[..i]
  {
    assert Meant(rb, w, m.tables, m.trace[..i], m.trace[i]);
    id :| id in m.tables.pipelines && id in m.tables.workspaces
          && Fit(rb, w, m.trace[..i], m.trace[i], m.tables.pipelines[id], m.tables.workspaces[id].path)
          && (NeedsDirectory(m.trace[i]) ==>
                WorktreeAdd(m.tables.workspaces[id].branch, m.tables.workspaces[id].path) in m.trace[..i]);
  }

  /** In particular every shell command is its phase's template, interpolated with the pipeline's inputs and
      with its id, its name and the directory it was run in; ... */
  lemma ShellsRunTemplates(rb: Runbook, w: World, inputs: seq<Input>, m: Machine, i: nat)
    requires FreshIds(w) && m == Run(rb, w, INITIAL, inputs)
    requires i < |m.trace| && m.trace[i].Shell?
    ensures m.trace[i].pipelineId in m.tables.pipelines
    ensures ShellIs(rb, w, m.trace[i], m.tables.pipelines[m.trace[i].pipelineId], m.trace[i].cwd)
    ensures m.trace[i].cwd == Join(w.worktreeRoot, m.tables.pipelines[m.trace[i].pipelineId].name)
  {
    EverythingIsMeant(rb, w, inputs);
    var id := WhoseIs(rb, w, m, i);
    StoredUnder(rb, w, inputs, m, id);
  }

  lemma StoredUnder(rb: Runbook, w: World, inputs: seq<Input>, m: Machine, id: string)
    requires FreshIds(w) && m == Run(rb, w, INITIAL, inputs) && id in m.tables.pipelines
    ensures m.tables.pipelines[id].id == id && id in m.tables.workspaces
    ensures var name := m.tables.pipelines[id].name;
            m.tables.workspaces[id] == Workspace(id, Join(w.worktreeRoot, name), "feature/" + name)
  {
    EverythingIsMeant(rb, w, inputs);
    InitialInvariant(w);
    RunKeepsInvariant(rb, w, INITIAL, inputs);
    InvariantIsSound(w, m);
  }

  /** ... every session runs the command of the agent it was prepared for, interpolated likewise; ... */
  lemma SessionsRunTemplates(rb: Runbook, w: World, inputs: seq<Input>, m: Machine, i: nat)
    requires FreshIds(w) && m == Run(rb, w, INITIAL, inputs)
    requires i < |m.trace| && m.trace[i].Spawn?
    ensures m.trace[i].workspaceId in m.tables.pipelines
    ensures i >= 2 && m.trace[i - 2].Prepare?
    ensures var p := m.tables.pipelines[m.trace[i].workspaceId];
            var path := Join(w.worktreeRoot, p.name);
            m.trace[i - 2].workspace == path && SpawnIs(rb, w, m.trace[i], p, path, m.trace[i - 2].agent)
  {
    EverythingIsMeant(rb, w, inputs);
    var id := WhoseIs(rb, w, m, i);
    StoredUnder(rb, w, inputs, m, id);
    assert Back(m.trace[..i], 2) == m.trace[i - 2];
  }

  /** ... and whatever is run for a pipeline, or prepared, comes after its worktree was added, under the branch
      and at the path of its workspace record. */
  lemma WorktreeComesFirst(rb: Runbook, w: World, inputs: seq<Input>, m: Machine, i: nat) returns (id: string, j: nat)
    requires FreshIds(w) && m == Run(rb, w, INITIAL, inputs)
    requires i < |m.trace| && NeedsDirectory(m.trace[i])
    ensures id in m.tables.pipelines && id in m.tables.workspaces
    ensures m.trace[i].Shell? ==> id == m.trace[i].pipelineId
    ensures m.trace[i].Spawn? ==> id == m.trace[i].workspaceId
    ensures m.trace[i].Prepare? ==> m.trace[i].workspace == m.tables.workspaces[id].path
    ensures j < i && m.trace[j] == WorktreeAdd(m.tables.workspaces[id].branch, m.tables.workspaces[id].path)
    ensures m.tables.workspaces[id].branch == "feature/" + m.tables.pipelines[id].name
    ensures m.tables.workspaces[id].path == Join(w.worktreeRoot, m.tables.pipelines[id].name)
  {
    EverythingIsMeant(rb, w, inputs);
    id := WhoseIs(rb, w, m, i);
    StoredUnder(rb, w, inputs, m, id);
    j := PlaceOf(m.trace[..i], WorktreeAdd(m.tables.workspaces[id].branch, m.tables.workspaces[id].path));
  }

  lemma PlaceOf(effects: seq<Effect>, e: Effect) returns (j: nat)
    requires e in effects
    ensures j < |effects| && effects[j] == e
  {
    j :| 0 <= j < |effects| && effects[j] == e;
  }

  // ---------------------------------------------------- what a command does

  /** How many worktrees are added. */
  function Adds(effects: seq<Effect>): nat {
    if effects == [] then 0 else (if effects[0].WorktreeAdd? then 1 else 0) + Adds(effects[1..])
  }

  lemma {:induction false} AddsAppend(a: seq<Effect>, b: seq<Effect>)
    ensures Adds(a + b) == Adds(a) + Adds(b)
    decreases |a|
  {
    if a == [] {
      assert a + b == b;
    } else {
      assert (a + b)[1..] == a[1..] + b;
      AddsAppend(a[1..], b);
    }
  }

  lemma {:induction false} FitAddsNone(rb: Runbook, w: World, before: seq<Effect>, effects: seq<Effect>, p: Pipeline,
                                       path: string)
    requires AllFit(rb, w, before, effects, p, path)
    ensures Adds(effects) == 0
    decreases |effects|
  {
    if effects != [] {
      AllFitTail(rb, w, before, effects, p, path);
      FitAddsNone(rb, w, before + [effects[0]], effects[1..], p, path);
    }
  }

  /** A command that is handled without an error makes a pipeline under a fresh id: it records the workspace,
      adds one worktree, as recorded, then records the pipeline, named by the argument "name" or else by its
      id, with the arguments as its inputs. */
  lemma CommandMakesOneWorktree(rb: Runbook, w: World, m: Machine, command: string, args: map<string, string>)
    requires FreshIds(w) && Invariant(w, m)
    requires Handle(rb, w, m, CommandInvoked(command, args)).outcome.Ok?
    ensures var n := Handle(rb, w, m, CommandInvoked(command, args)).machine;
            var id := w.ids(m.tick);
            var name := if "name" in args then args["name"] else id;
            var path := Join(w.worktreeRoot, name);
            && command in rb.commands && rb.commands[command].run.RunPipeline?
            && |n.trace| >= |m.trace| + 3 && n.trace[..|m.trace|] == m.trace
            && Adds(n.trace[|m.trace|..]) == 1
            && n.trace[|m.trace|] == Persist(WorkspaceCreate(id, path, "feature/" + name))
            && n.trace[|m.trace| + 1] == WorktreeAdd("feature/" + name, path)
            && n.trace[|m.trace| + 2].Persist?
            && var op := n.trace[|m.trace| + 2].operation;
               op.PipelineCreate? && op.id == id && op.kind == rb.commands[command].run.pipeline
               && op.name == name && op.inputs == args
  {
    var kind := rb.commands[command].run.pipeline;
    var id := w.ids(m.tick);
    var effects := CommandPlan(rb, w, kind, rb.pipelines[kind], id, args).effects;
    var p := CommandFits(rb, w, kind, id, args);
    FitAddsNone(rb, w, effects[..3], effects[3..], p, Join(w.worktreeRoot, p.name));
    OneAdd(effects);
    TraceIs(w, m, effects);
    assert Handle(rb, w, m, CommandInvoked(command, args)).machine.trace == m.trace + effects;
    TraceParts(m.trace, effects);
  }

  lemma TraceParts(trace: seq<Effect>, effects: seq<Effect>)
    ensures (trace + effects)[..|trace|] == trace && (trace + effects)[|trace|..] == effects
  {
  }

  lemma OneAdd(effects: seq<Effect>)
    requires |effects| >= 3 && !effects[0].WorktreeAdd? && effects[1].WorktreeAdd? && !effects[2].WorktreeAdd?
    requires Adds(effects[3..]) == 0
    ensures Adds(effects) == 1
  {
    assert effects == [effects[0]] + ([effects[1]] + ([effects[2]] + effects[3..]));
    AddsAppend([effects[0]], [effects[1]] + ([effects[2]] + effects[3..]));
    AddsAppend([effects[1]], [effects[2]] + effects[3..]);
    AddsAppend([effects[2]], effects[3..]);
  }

  /** The trace of effects that all succeed. */
  lemma {:induction false} TraceIs(w: World, m: Machine, effects: seq<Effect>)
    ensures var s := ExecAll(w, m, effects); s.outcome.Ok? ==> s.machine.trace == m.trace + effects
    decreases |effects|
  {
    if effects != [] {
      var first := Exec(w, m, effects[0]);
      if first.outcome.Ok? {
        TraceIs(w, first.machine, effects[1..]);
        assert m.trace + effects == m.trace + [effects[0]] + effects[1..];
      }
    }
  }
}
