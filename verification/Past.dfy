/** What a plan owes to the past: worlds that agree so far make the engine do the same so far. */
module Past {
  import opened Wrappers
  import opened Core
  import opened Runbook
  import opened State
  import opened Plans
  import opened Execution

  /** Worlds that differ only in what they answer from `tick` on. */
  ghost predicate AlikeUntil(u: World, v: World, tick: nat) {
    && v == u.(answers := v.answers)
    && forall t: nat :: t < tick ==> v.answers(t) == u.answers(t)
  }

  lemma ExecAlike(u: World, v: World, m: Machine, e: Effect)
    requires v.answers(m.tick) == u.answers(m.tick)
    ensures Exec(v, m, e) == Exec(u, m, e)
  {
  }

  lemma {:induction false} ExecAllAlike(u: World, v: World, m: Machine, effects: seq<Effect>)
    requires AlikeUntil(u, v, ExecAll(u, m, effects).machine.tick)
    ensures ExecAll(v, m, effects) == ExecAll(u, m, effects)
    decreases |effects|
  {
    if effects != [] {
      var first := Exec(u, m, effects[0]);
      ExecAllWrites(u, m, effects);
      ExecAlike(u, v, m, effects[0]);
      if first.outcome.Ok? {
        ExecAllAlike(u, v, first.machine, effects[1..]);
      }
    }
  }

  /** Plans depend on the world's answers nowhere but in a session check. */
  lemma StartAlike(rb: Runbook, u: World, v: World, p: Pipeline, phase: string, inputs: map<string, string>,
                   workspace: string)
    requires v == u.(answers := v.answers)
    ensures StartPlan(rb, v, p, phase, inputs, workspace) == StartPlan(rb, u, p, phase, inputs, workspace)
  {
  }

  lemma AdvanceAlike(rb: Runbook, u: World, v: World, p: Pipeline)
    requires v == u.(answers := v.answers)
    ensures AdvancePlan(rb, v, p) == AdvancePlan(rb, u, p)
  {
    assert WorkspacePath(v, p) == WorkspacePath(u, p);
    if NextPhaseName(rb, p).Some? {
      StartAlike(rb, u, v, p, NextPhaseName(rb, p).value, p.inputs, WorkspacePath(u, p));
    }
  }

  lemma FailAlike(rb: Runbook, u: World, v: World, p: Pipeline, error: string)
    requires v == u.(answers := v.answers)
    ensures FailPlan(rb, v, p, error) == FailPlan(rb, u, p, error)
  {
    assert WorkspacePath(v, p) == WorkspacePath(u, p);
    if OnFail(rb, p).Some? {
      StartAlike(rb, u, v, p, OnFail(rb, p).value, p.inputs, WorkspacePath(u, p));
    }
  }

  lemma AgentAlike(rb: Runbook, u: World, v: World, t: Tables, ref: string, error: Option<string>)
    requires v == u.(answers := v.answers)
    ensures AgentPlan(rb, v, t, ref, error) == AgentPlan(rb, u, t, ref, error)
  {
    if GetPipeline(t, ref).Some? {
      if error.None? {
        AdvanceAlike(rb, u, v, GetPipeline(t, ref).value);
      } else {
        FailAlike(rb, u, v, GetPipeline(t, ref).value, error.value);
      }
    }
  }

  lemma ShellAlike(rb: Runbook, u: World, v: World, t: Tables, id: string, phase: string, code: int)
    requires v == u.(answers := v.answers)
    ensures ShellPlan(rb, v, t, id, phase, code) == ShellPlan(rb, u, t, id, phase, code)
  {
    if id in t.pipelines {
      AdvanceAlike(rb, u, v, t.pipelines[id]);
      FailAlike(rb, u, v, t.pipelines[id], ShellError(code));
    }
  }
}
