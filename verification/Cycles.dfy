/** Going round: a cycle of shell phases and a world whose exit codes follow it keep the daemon's event
    loop running for ever. */
module Cycles {
  import opened Wrappers
  import opened Core
  import opened Runbook
  import opened Plans
  import opened Execution
  import opened EventLoop
  import opened Quiescence

  lemma {:induction false} AllSucceed(w: World, m: Machine, effects: seq<Effect>)
    requires forall t: nat :: w.answers(t).ok
    requires forall e :: e in effects ==> !e.Spawn?
    ensures ExecAll(w, m, effects).outcome.Ok?
    decreases |effects|
  {
    if effects != [] {
      assert effects[0] in effects;
      AllSucceed(w, Exec(w, m, effects[0]).machine, effects[1..]);
    }
  }

  /** The exit code that takes edge `k` of a path. */
  function EdgeCode(def: PipelineDef, path: seq<string>, k: nat): int
    requires k + 1 < |path|
  {
    if SuccessStarts(def, path[k]) == Some(path[k + 1]) then 0 else 1
  }

  function Onward(k: nat, n: nat): nat { if k + 1 == n then 0 else k + 1 }

  /** Where step `j` round a cycle of `n` edges is. */
  function Position(j: nat, n: nat): (k: nat)
    requires n > 0
    ensures k < n
  {
    if j == 0 then 0
    else Onward(Position(j - 1, n), n)
  }

  /** Everything succeeds, and from tick `start` on the exit codes follow the cycle: the report that
      step `j` finds carries the code of the effect before tick `start + 5 * j`. */
  ghost predicate Follows(w: World, def: PipelineDef, path: seq<string>, start: nat)
    requires |path| >= 2
  {
    && (forall t: nat :: w.answers(t).ok)
    && (forall j: nat :: j > 0 ==>
          w.answers(start + 5 * j - 1).code == EdgeCode(def, path, Position(j, |path| - 1)))
  }

  /** Answers that follow the cycle from tick `start` on, and are as they were before. */
  function LoopAnswers(before: nat -> Answer, def: PipelineDef, path: seq<string>, start: nat): nat -> Answer
    requires |path| >= 2
  {
    (t: nat) =>
      if t < start then before(t)
      else Answer(true, EdgeCode(def, path, Position((t - start) / 5 + 1, |path| - 1)), 0, None)
  }

  lemma LoopAnswersFollow(before: nat -> Answer, w: World, def: PipelineDef, path: seq<string>, start: nat)
    requires |path| >= 2 && w.answers == LoopAnswers(before, def, path, start)
    requires forall t: nat :: before(t).ok
    ensures Follows(w, def, path, start)
  {
    forall j: nat | j > 0
      ensures w.answers(start + 5 * j - 1).code == EdgeCode(def, path, Position(j, |path| - 1))
    {
      var t := start + 5 * j - 1;
      assert (t - start) / 5 + 1 == j;
      assert w.answers(t).code == EdgeCode(def, path, Position((t - start) / 5 + 1, |path| - 1));
    }
  }

  /** One edge of the cycle: five effects later the next edge's report is the only event. */
  lemma CycleStep(rb: Runbook, w: World, m: Machine, id: string, path: seq<string>, k: nat) returns (s: Step)
    requires Standing(rb, m.tables, id)
    requires Cycle(rb.pipelines[m.tables.pipelines[id].kind], path) && k + 1 < |path|
    requires m.tables.pipelines[id].phase == path[k]
    requires forall t: nat :: w.answers(t).ok
    ensures var def := rb.pipelines[m.tables.pipelines[id].kind];
            s == Handle(rb, w, m, ShellCompleted(id, path[k], EdgeCode(def, path, k)))
    ensures Standing(rb, s.machine.tables, id)
    ensures s.machine.tables.pipelines[id].kind == m.tables.pipelines[id].kind
    ensures s.machine.tick == m.tick + 5
    ensures s.machine.tables.pipelines[id].phase == path[Onward(k, |path| - 1)]
    ensures s.outcome == Ok([ShellCompleted(id, path[Onward(k, |path| - 1)], w.answers(m.tick + 4).code)])
  {
    var p := m.tables.pipelines[id];
    var def := rb.pipelines[p.kind];
    var next := path[k + 1];
    assert ShellEdge(def, path[k], path[k + 1]);
    assert next == path[Onward(k, |path| - 1)];
    var code := EdgeCode(def, path, k);
    HeadIsMove(p, next, code);
    EdgeIsMove(rb, w, m, id, next, code);
    s := EdgeStep(rb, w, m, id, EdgeHead(p, next, code), next);
  }

  function EdgeHead(p: Pipeline, next: string, code: int): seq<Effect> {
    if code == 0 then PhaseTransitionEffects(p, next) else FailureTransitionEffects(p, next, ShellError(code))
  }

  /** A report whose exit code takes the edge is handled by the move along it. */
  lemma EdgeIsMove(rb: Runbook, w: World, m: Machine, id: string, next: string, code: int)
    requires Standing(rb, m.tables, id)
    requires TakesEdge(rb.pipelines[m.tables.pipelines[id].kind], m.tables.pipelines[id].phase, next, code)
    ensures var p := m.tables.pipelines[id];
            Handle(rb, w, m, ShellCompleted(id, p.phase, code))
            == RunPlan(w, m, MovePlan(rb, w, p, EdgeHead(p, next, code), next))
  {
    EdgePlan(rb, w, m.tables.pipelines[id], next, code);
  }

  lemma HeadIsMove(p: Pipeline, next: string, code: int)
    ensures var head := EdgeHead(p, next, code);
            && |head| == 2 && Ops(head) == [PipelineTransition(p.id, next)]
            && !head[0].Shell? && !head[1].Shell? && !head[0].Spawn? && !head[1].Spawn?
  {
    TransitionOps(p, next, ShellError(code));
  }

  /** Taking one shell edge when everything succeeds: the outcome and the clockwork, ... */
  lemma EdgeReturns(rb: Runbook, w: World, m: Machine, p: Pipeline, head: seq<Effect>, next: string)
    requires p.kind in rb.pipelines && IsShell(rb.pipelines[p.kind], next)
    requires forall t: nat :: w.answers(t).ok
    requires |head| == 2 && !head[0].Shell? && !head[1].Shell? && !head[0].Spawn? && !head[1].Spawn?
    ensures var s := RunPlan(w, m, MovePlan(rb, w, p, head, next));
            s.machine.tick == m.tick + 5 && s.outcome == Ok([ShellCompleted(p.id, next, w.answers(m.tick + 4).code)])
  {
    MoveIsShell(rb, w, p, head, next);
    MoveEvents(rb, w, p, head, next, m.tick);
    PlanSucceeds(w, m, MovePlan(rb, w, p, head, next), [ShellCompleted(p.id, next, w.answers(m.tick + 4).code)]);
  }

  lemma PlanSucceeds(w: World, m: Machine, plan: Plan, events: seq<Event>)
    requires forall t: nat :: w.answers(t).ok
    requires plan.fail.None? && forall e :: e in plan.effects ==> !e.Spawn?
    requires EventsOf(w, m.tick, plan.effects) == events
    ensures var s := RunPlan(w, m, plan); s.outcome == Ok(events) && s.machine.tick == m.tick + |plan.effects|
  {
    var s := MoveSucceeds(w, m, plan);
  }

  /** ... and where the pipeline then stands. */
  lemma EdgeStep(rb: Runbook, w: World, m: Machine, id: string, head: seq<Effect>, next: string) returns (s: Step)
    requires Standing(rb, m.tables, id) && IsShell(rb.pipelines[m.tables.pipelines[id].kind], next)
    requires forall t: nat :: w.answers(t).ok
    requires |head| == 2 && Ops(head) == [PipelineTransition(id, next)]
    requires !head[0].Shell? && !head[1].Shell? && !head[0].Spawn? && !head[1].Spawn?
    ensures s == RunPlan(w, m, MovePlan(rb, w, m.tables.pipelines[id], head, next))
    ensures Standing(rb, s.machine.tables, id)
    ensures s.machine.tables.pipelines[id].kind == m.tables.pipelines[id].kind
    ensures s.machine.tables.pipelines[id].phase == next
    ensures s.machine.tick == m.tick + 5
    ensures s.outcome == Ok([ShellCompleted(id, next, w.answers(m.tick + 4).code)])
  {
    s := RunPlan(w, m, MovePlan(rb, w, m.tables.pipelines[id], head, next));
    EdgeReturns(rb, w, m, m.tables.pipelines[id], head, next);
    MoveSettles(rb, w, m, id, head, next);
    MoveTables(rb, w, m, id, head, next);
  }

  lemma MoveSucceeds(w: World, m: Machine, plan: Plan) returns (s: Step)
    requires forall t: nat :: w.answers(t).ok
    requires plan.fail.None? && forall e :: e in plan.effects ==> !e.Spawn?
    ensures s == RunPlan(w, m, plan)
    ensures s.outcome == Ok(EventsOf(w, m.tick, plan.effects)) && s.machine.tick == m.tick + |plan.effects|
  {
    s := RunPlan(w, m, plan);
    AllSucceed(w, m, plan.effects);
    PlanReturns(w, m, plan);
  }

  predicate TakesEdge(def: PipelineDef, phase: string, next: string, code: int) {
    && IsShell(def, next)
    && (if code == 0 then SuccessStarts(def, phase) == Some(next) else FailureStarts(def, phase) == Some(next))
  }

  lemma EdgePlan(rb: Runbook, w: World, p: Pipeline, next: string, code: int)
    requires p.kind in rb.pipelines && TakesEdge(rb.pipelines[p.kind], p.phase, next, code)
    ensures code == 0 ==> AdvancePlan(rb, w, p) == MovePlan(rb, w, p, PhaseTransitionEffects(p, next), next)
    ensures code != 0 ==>
      FailPlan(rb, w, p, ShellError(code))
      == MovePlan(rb, w, p, FailureTransitionEffects(p, next, ShellError(code)), next)
  {
  }

  lemma MoveIsShell(rb: Runbook, w: World, p: Pipeline, head: seq<Effect>, next: string)
    requires p.kind in rb.pipelines && IsShell(rb.pipelines[p.kind], next)
    requires |head| == 2 && !head[0].Spawn? && !head[1].Spawn?
    ensures var plan := MovePlan(rb, w, p, head, next);
            plan.fail.None? && |plan.effects| == 5 && forall e :: e in plan.effects ==> !e.Spawn?
  {
  }

  /** What step `j` of the loop finds pending. */
  function Report(def: PipelineDef, id: string, path: seq<string>, j: nat): Event
    requires |path| >= 2
  {
    var k := Position(j, |path| - 1);
    ShellCompleted(id, path[k], EdgeCode(def, path, k))
  }

  ghost predicate OnCycle(rb: Runbook, w: World, m: Machine, id: string, kind: string, path: seq<string>, j: nat,
                          start: nat) {
    && Standing(rb, m.tables, id) && m.tables.pipelines[id].kind == kind
    && Cycle(rb.pipelines[kind], path)
    && Follows(w, rb.pipelines[kind], path, start)
    && m.tick == start + 5 * j
    && m.tables.pipelines[id].phase == path[Position(j, |path| - 1)]
  }

  /** Some number of edges round the cycle, with that edge's report pending. */
  ghost predicate GoingRound(rb: Runbook, w: World, m: Machine, event: Event, id: string, kind: string,
                             path: seq<string>, start: nat) {
    exists j: nat :: OnCycle(rb, w, m, id, kind, path, j, start) && event == Report(rb.pipelines[kind], id, path, j)
  }

  /** One edge on: where the pipeline then stands is the next position on the cycle. */
  lemma OneEdgeOn(rb: Runbook, w: World, m: Machine, n: Machine, id: string, kind: string, path: seq<string>, j: nat,
                  start: nat)
    requires OnCycle(rb, w, m, id, kind, path, j, start)
    requires Standing(rb, n.tables, id) && n.tables.pipelines[id].kind == kind && n.tick == m.tick + 5
    requires n.tables.pipelines[id].phase == path[Onward(Position(j, |path| - 1), |path| - 1)]
    ensures OnCycle(rb, w, n, id, kind, path, j + 1, start)
  {
    assert Position(j + 1, |path| - 1) == Onward(Position(j, |path| - 1), |path| - 1);
  }

  lemma NextCode(w: World, def: PipelineDef, path: seq<string>, start: nat, j: nat)
    requires |path| >= 2 && Follows(w, def, path, start)
    ensures w.answers(start + 5 * j + 4).code == EdgeCode(def, path, Onward(Position(j, |path| - 1), |path| - 1))
  {
    assert Position(j + 1, |path| - 1) == Onward(Position(j, |path| - 1), |path| - 1);
    assert w.answers(start + 5 * (j + 1) - 1).code == EdgeCode(def, path, Position(j + 1, |path| - 1));
  }

  /** Step `j` of the loop handles the report of position `j` and leaves that of position `j + 1`. */
  lemma CycleTurn(rb: Runbook, w: World, m: Machine, id: string, kind: string, path: seq<string>, j: nat, start: nat)
    returns (s: Step)
    requires OnCycle(rb, w, m, id, kind, path, j, start)
    ensures s == Handle(rb, w, m, Report(rb.pipelines[kind], id, path, j))
    ensures s.outcome == Ok([Report(rb.pipelines[kind], id, path, j + 1)])
    ensures OnCycle(rb, w, s.machine, id, kind, path, j + 1, start)
  {
    NextCode(w, rb.pipelines[kind], path, start, j);
    s := CycleStep(rb, w, m, id, path, Position(j, |path| - 1));
    OneEdgeOn(rb, w, m, s.machine, id, kind, path, j, start);
  }

  lemma CycleRound(rb: Runbook, w: World, m: Machine, event: Event, id: string, kind: string, path: seq<string>,
                   start: nat)
    returns (s: Step, next: Event)
    requires GoingRound(rb, w, m, event, id, kind, path, start)
    ensures s == Handle(rb, w, m, event) && s.outcome == Ok([next])
    ensures GoingRound(rb, w, s.machine, next, id, kind, path, start)
  {
    var j: nat :| OnCycle(rb, w, m, id, kind, path, j, start) && event == Report(rb.pipelines[kind], id, path, j);
    s := CycleTurn(rb, w, m, id, kind, path, j, start);
    next := Report(rb.pipelines[kind], id, path, j + 1);
  }

  lemma CycleNeverEnds(rb: Runbook, w: World, m: Machine, event: Event, id: string, kind: string, path: seq<string>,
                       start: nat, fuel: nat)
    requires GoingRound(rb, w, m, event, id, kind, path, start)
    ensures Process(rb, w, m, [event], fuel).Interrupted?
  {
    var handle := EngineHandler(rb, w);
    var stuck := (n: Machine, e: Event) => GoingRound(rb, w, n, e, id, kind, path, start);
    forall n: Machine, e: Event | stuck(n, e)
      ensures GoesOn(handle, stuck, n, e)
    {
      var s, next := CycleRound(rb, w, n, e, id, kind, path, start);
    }
    NeverEnds(handle, stuck, m, event, fuel);
  }
}
