/** The daemon's event loop (`process_event`) over the engine: what a call leaves behind, and why a chain of
    shell phases comes to an end where none leads back to itself. */
module Quiescence {
  import opened Wrappers
  import opened Core
  import opened Runbook
  import opened State
  import opened Plans
  import opened Execution
  import opened Shapes
  import opened Walks
  import opened Routes
  import opened EventLoop

  /** The engine's own handler. */
  function EngineHandler(rb: Runbook, w: World): Handler { (m: Machine, event: Event) => Handle(rb, w, m, event) }

  function Process(rb: Runbook, w: World, m: Machine, pending: seq<Event>, fuel: nat): Processed {
    Loop(EngineHandler(rb, w), m, pending, fuel)
  }

  ghost predicate NeverQueues(rb: Runbook, w: World, m: Machine, pending: seq<Event>, fuel: nat) {
    OneAtATime(EngineHandler(rb, w), m, pending, fuel)
  }

  ghost predicate Answers(handler: Handler, rb: Runbook, w: World, m: Machine, event: Event) {
    handler(m, event) == Handle(rb, w, m, event)
  }

  /** The handler is the engine. */
  ghost predicate IsEngine(handler: Handler, rb: Runbook, w: World) {
    forall m: Machine, event: Event :: Answers(handler, rb, w, m, event)
  }

  lemma EngineHandlerIsEngine(rb: Runbook, w: World)
    ensures IsEngine(EngineHandler(rb, w), rb, w)
  {
    var handler := EngineHandler(rb, w);
    forall m: Machine, event: Event
      ensures Answers(handler, rb, w, m, event)
    {
    }
  }

  // ---------------------------------------------------- events a plan produces

  lemma TraceOn(trace: seq<Effect>, effects: seq<Effect>)
    requires effects != []
    ensures trace + effects == (trace + [effects[0]]) + effects[1..]
  {
  }

  /** What one effect returns when it succeeds. */
  function EventOf(w: World, tick: nat, e: Effect): seq<Event> {
    if e.Shell? then [ShellCompleted(e.pipelineId, e.phase, w.answers(tick).code)] else []
  }

  /** What the effects return when all succeed, starting at a given tick. */
  function EventsOf(w: World, tick: nat, effects: seq<Effect>): seq<Event>
    decreases |effects|
  {
    if effects == [] then [] else EventOf(w, tick, effects[0]) + EventsOf(w, tick + 1, effects[1..])
  }

  lemma {:induction false} EventsAppend(w: World, tick: nat, a: seq<Effect>, b: seq<Effect>)
    ensures EventsOf(w, tick, a + b) == EventsOf(w, tick, a) + EventsOf(w, tick + |a|, b)
    decreases |a|
  {
    if a == [] {
      assert a + b == b;
    } else {
      assert (a + b)[1..] == a[1..] + b;
      EventsAppend(w, tick + 1, a[1..], b);
    }
  }

  lemma {:induction false} QuietEffects(w: World, tick: nat, effects: seq<Effect>)
    requires forall e :: e in effects ==> !e.Shell?
    ensures EventsOf(w, tick, effects) == []
    decreases |effects|
  {
    if effects != [] {
      assert effects[0] in effects;
      QuietEffects(w, tick + 1, effects[1..]);
    }
  }

  /** When every effect succeeds: the events, the clockwork and the trace. */
  lemma {:induction false} ExecAllReturns(w: World, m: Machine, effects: seq<Effect>)
    ensures var s := ExecAll(w, m, effects);
            s.outcome.Ok? ==>
              && s.outcome.value == EventsOf(w, m.tick, effects)
              && s.machine.tick == m.tick + |effects|
              && s.machine.trace == m.trace + effects
    decreases |effects|
  {
    if effects != [] {
      var first := Exec(w, m, effects[0]);
      ExecReturns(w, m, effects[0]);
      if first.outcome.Ok? {
        ExecAllReturns(w, first.machine, effects[1..]);
        TraceOn(m.trace, effects);
      }
    }
  }

  lemma ExecReturns(w: World, m: Machine, e: Effect)
    ensures var s := Exec(w, m, e);
            && s.machine.tick == m.tick + 1 && s.machine.trace == m.trace + [e]
            && (s.outcome.Ok? ==> s.outcome.value == EventOf(w, m.tick, e))
  {
  }

  // ------------------------------------------------------------- shell phases

  predicate IsShell(def: PipelineDef, phase: string) {
    def.Has(phase) && def.phases[def.IndexOf(phase)].run.RunShell?
  }

  predicate IsAgent(def: PipelineDef, phase: string) {
    def.Has(phase) && def.phases[def.IndexOf(phase)].run.RunAgent?
  }

  /** The phase that success starts, if it starts one. */
  function SuccessStarts(def: PipelineDef, phase: string): Option<string> {
    if IsTerminal(phase) || !def.Has(phase) then None
    else
      var i := def.IndexOf(phase);
      if def.phases[i].next.Some? then
        if def.Has(def.phases[i].next.value) then def.phases[i].next else None
      else if i + 1 < |def.phases| then Some(def.phases[i + 1].name)
      else None
  }

  /** The phase that failure starts, if it starts one. */
  function FailureStarts(def: PipelineDef, phase: string): Option<string> {
    if def.Has(phase) then def.phases[def.IndexOf(phase)].onFail else None
  }

  predicate ShellEdge(def: PipelineDef, a: string, b: string) {
    IsShell(def, a) && IsShell(def, b) && (SuccessStarts(def, a) == Some(b) || FailureStarts(def, a) == Some(b))
  }

  ghost predicate ShellPath(def: PipelineDef, path: seq<string>) {
    && path != []
    && (forall i :: 0 <= i < |path| ==> IsShell(def, path[i]))
    && (forall i, j :: 0 <= i < j < |path| && j == i + 1 ==> ShellEdge(def, path[i], path[j]))
  }

  ghost predicate Cycle(def: PipelineDef, path: seq<string>) {
    ShellPath(def, path) && |path| >= 2 && path[0] == path[|path| - 1]
  }

  /** No shell phase that can be reached at all leads back to itself through shell phases only. */
  ghost predicate Acyclic(def: PipelineDef) {
    forall path: seq<string> :: Cycle(def, path) ==> !Reachable(def, path[0])
  }

  // ------------------------------------------------------- a path that is too long

  lemma {:induction false} DistinctNamesFit(def: PipelineDef, path: seq<string>, names: set<string>)
    requires forall i, j :: 0 <= i < j < |path| ==> path[i] != path[j]
    requires forall i :: 0 <= i < |path| ==> path[i] in names
    ensures |path| <= |names|
    decreases |path|
  {
    if path != [] {
      var last := |path| - 1;
      DistinctNamesFit(def, path[..last], names - {path[last]});
    }
  }

  lemma {:induction false} FewNames(phases: seq<PhaseDef>)
    ensures |(set i | 0 <= i < |phases| :: phases[i].name)| <= |phases|
    decreases |phases|
  {
    var all := set i | 0 <= i < |phases| :: phases[i].name;
    if phases == [] {
      assert all == {};
    } else {
      var last := |phases| - 1;
      FewNames(phases[..last]);
      var fewer := set i | 0 <= i < last :: phases[..last][i].name;
      assert all == fewer + {phases[last].name};
    }
  }

  lemma PartOfPath(def: PipelineDef, path: seq<string>, i: nat, j: nat)
    requires ShellPath(def, path) && i <= j < |path|
    ensures ShellPath(def, path[i..j + 1])
  {
    var part := path[i..j + 1];
    forall a, b | 0 <= a < b < |part| && b == a + 1
      ensures ShellEdge(def, part[a], part[b])
    {
      assert part[a] == path[i + a] && part[b] == path[i + b];
    }
  }

  /** A shell path from a phase that can be reached stays among those. */
  lemma {:induction false} PathIsReachable(def: PipelineDef, path: seq<string>, i: nat)
    requires ShellPath(def, path) && Reachable(def, path[0]) && i < |path|
    ensures Reachable(def, path[i])
    decreases i
  {
    if i > 0 {
      PathIsReachable(def, path, i - 1);
      assert ShellEdge(def, path[i - 1], path[i]);
      LeadsOn(def, path[i - 1], path[i]);
    }
  }

  lemma NoRepeat(def: PipelineDef, path: seq<string>, i: nat, j: nat)
    requires Acyclic(def) && ShellPath(def, path) && Reachable(def, path[0]) && i < j < |path|
    ensures path[i] != path[j]
  {
    var part := path[i..j + 1];
    PartOfPath(def, path, i, j);
    PathIsReachable(def, path, i);
    assert part[0] == path[i] && part[|part| - 1] == path[j];
    NoCycleThere(def, part);
  }

  lemma NoCycleThere(def: PipelineDef, path: seq<string>)
    requires Acyclic(def) && ShellPath(def, path) && |path| >= 2 && Reachable(def, path[0])
    ensures path[0] != path[|path| - 1]
  {
  }

  /** A shell path with more nodes than phases goes round a cycle. */
  lemma LongPathsRepeat(def: PipelineDef, path: seq<string>)
    requires Acyclic(def) && ShellPath(def, path) && Reachable(def, path[0])
    ensures |path| <= |def.phases|
  {
    var names := set i | 0 <= i < |def.phases| :: def.phases[i].name;
    forall i, j | 0 <= i < j < |path|
      ensures path[i] != path[j]
    {
      NoRepeat(def, path, i, j);
    }
    forall i | 0 <= i < |path|
      ensures path[i] in names
    {
      assert IsShell(def, path[i]);
      assert def.phases[def.IndexOf(path[i])].name == path[i];
    }
    DistinctNamesFit(def, path, names);
    FewNames(def.phases);
  }

  // ---------------------------------------------------------- one step of a chain

  ghost predicate Standing(rb: Runbook, t: Tables, id: string) {
    id in t.pipelines && t.pipelines[id].id == id && AtHome(rb, t, t.pipelines[id])
  }

  /** Nothing more happens to the pipeline by itself: it is in a terminal phase or in an agent phase, or its
      kind has no phases at all. */
  ghost predicate Quiescent(rb: Runbook, t: Tables, id: string) {
    && id in t.pipelines && t.pipelines[id].kind in rb.pipelines
    && var def := rb.pipelines[t.pipelines[id].kind];
       t.pipelines[id].Terminal() || IsAgent(def, t.pipelines[id].phase) || def.phases == []
  }

  /** The pipeline settled, or one shell phase was started and its report is the only event. */
  ghost predicate Settled(rb: Runbook, s: Step, id: string, kind: string, starts: Option<string>) {
    && s.outcome.Ok?
    && Standing(rb, s.machine.tables, id)
    && s.machine.tables.pipelines[id].kind == kind
    && var phase := s.machine.tables.pipelines[id].phase;
       var events := s.outcome.value;
       if IsShell(rb.pipelines[kind], phase) && starts == Some(phase)
       then |events| == 1 && events[0].ShellCompleted? && events[0].pipelineId == id && events[0].phase == phase
       else events == [] && Quiescent(rb, s.machine.tables, id)
  }

  lemma RunEffects(rb: Runbook, w: World, p: Pipeline, phase: string, run: RunDirective, inputs: map<string, string>,
                   workspace: string, tick: nat)
    ensures var plan := RunPlanOf(rb, w, p, phase, run, inputs, workspace);
            && (plan.fail.None? ==> run.RunShell? || run.RunAgent?)
            && (run.RunShell? ==>
                  && plan.fail.None? && |plan.effects| == 1 && plan.effects[0].Shell?
                  && plan.effects[0].cwd == workspace
                  && plan.effects[0].pipelineId == p.id && plan.effects[0].phase == phase)
            && EventsOf(w, tick, plan.effects)
                 == if run.RunShell? then [ShellCompleted(p.id, phase, w.answers(tick).code)] else []
  {
    var plan := RunPlanOf(rb, w, p, phase, run, inputs, workspace);
    if run.RunShell? {
      assert plan.effects[1..] == [];
    } else {
      QuietEffects(w, tick, plan.effects);
    }
  }

  /** The effects of starting a phase, if it is not refused: two to mark it, then one shell command or an
      agent. */
  lemma StartEffects(rb: Runbook, w: World, p: Pipeline, phase: string, inputs: map<string, string>,
                     workspace: string, tick: nat)
    requires p.kind in rb.pipelines
    ensures var def := rb.pipelines[p.kind];
            var plan := StartPlan(rb, w, p, phase, inputs, workspace);
            && (plan.fail.None? ==> IsShell(def, phase) || IsAgent(def, phase))
            && (IsShell(def, phase) ==>
                  && plan.fail.None? && |plan.effects| == 3 && plan.effects[2].Shell?
                  && plan.effects[2].cwd == workspace
                  && plan.effects[2].pipelineId == p.id && plan.effects[2].phase == phase)
            && EventsOf(w, tick, plan.effects)
                 == if IsShell(def, phase) then [ShellCompleted(p.id, phase, w.answers(tick + 2).code)] else []
  {
    var def := rb.pipelines[p.kind];
    if def.Has(phase) {
      var run := def.phases[def.IndexOf(phase)].run;
      var body := RunPlanOf(rb, w, p, phase, run, inputs, workspace);
      var head := PhaseStartEffects(p.id, phase);
      assert StartPlan(rb, w, p, phase, inputs, workspace) == Before(head, body);
      RunEffects(rb, w, p, phase, run, inputs, workspace, tick + 2);
      EventsAppend(w, tick, head, body.effects);
      QuietEffects(w, tick, head);
    }
  }

  lemma CompletionIsQuiet(w: World, p: Pipeline, tick: nat)
    ensures EventsOf(w, tick, CompletionEffects(p)) == []
  {
    QuietEffects(w, tick, CompletionEffects(p));
  }

  lemma {:induction false} SamePhaseOps(t: Tables, ops: seq<Operation>, id: string)
    requires id in t.pipelines
    requires forall op :: op in ops ==> op.SessionCreate? || op.SessionDelete? || op.PhaseStatusUpdate?
    ensures id in ApplyAll(t, ops).pipelines
    ensures ApplyAll(t, ops).pipelines[id] == t.pipelines[id].(status := ApplyAll(t, ops).pipelines[id].status)
    decreases |ops|
  {
    if ops != [] {
      assert ops[0] in ops;
      SamePhaseOps(ApplyOp(t, ops[0]), ops[1..], id);
    }
  }

  lemma MoveThen(t: Tables, id: string, phase: string, rest: seq<Operation>)
    requires id in t.pipelines
    requires forall op :: op in rest ==> op.SessionCreate? || op.SessionDelete? || op.PhaseStatusUpdate?
    ensures var u := ApplyAll(t, [PipelineTransition(id, phase)] + rest);
            id in u.pipelines && u.pipelines[id] == t.pipelines[id].(phase := phase, status := u.pipelines[id].status)
  {
    var move := PipelineTransition(id, phase);
    assert ([move] + rest)[1..] == rest;
    SamePhaseOps(ApplyOp(t, move), rest, id);
  }

  function MovePlan(rb: Runbook, w: World, p: Pipeline, head: seq<Effect>, next: string): Plan {
    Before(head, StartPlan(rb, w, p, next, p.inputs, WorkspacePath(w, p)))
  }

  lemma MoveTables(rb: Runbook, w: World, m: Machine, id: string, head: seq<Effect>, next: string)
    requires Standing(rb, m.tables, id)
    requires Ops(head) == [PipelineTransition(id, next)]
    ensures var p := m.tables.pipelines[id];
            var s := RunPlan(w, m, MovePlan(rb, w, p, head, next));
            s.outcome.Ok? ==>
              && id in s.machine.tables.pipelines
              && var q := s.machine.tables.pipelines[id];
                 q == p.(phase := next, status := q.status)
  {
    var p := m.tables.pipelines[id];
    var start := StartPlan(rb, w, p, next, p.inputs, WorkspacePath(w, p));
    PlanWrites(w, m, Before(head, start));
    OpsBefore(head, start);
    StartWrites(rb, w, p, next, p.inputs, WorkspacePath(w, p));
    MoveThen(m.tables, id, next, StartOps(rb, p, next));
  }

  /** When a plan succeeds, its events, tick and trace are those of its effects. */
  lemma PlanReturns(w: World, m: Machine, plan: Plan)
    ensures var s := RunPlan(w, m, plan);
            s.outcome.Ok? ==>
              && plan.fail.None?
              && s.outcome.value == EventsOf(w, m.tick, plan.effects)
              && s.machine.tick == m.tick + |plan.effects|
              && s.machine.trace == m.trace + plan.effects
  {
    ExecAllReturns(w, m, plan.effects);
  }

  lemma MoveEvents(rb: Runbook, w: World, p: Pipeline, head: seq<Effect>, next: string, tick: nat)
    requires p.kind in rb.pipelines
    requires |head| == 2 && !head[0].Shell? && !head[1].Shell?
    ensures var def := rb.pipelines[p.kind];
            var plan := MovePlan(rb, w, p, head, next);
            && EventsOf(w, tick, plan.effects)
                 == (if IsShell(def, next) then [ShellCompleted(p.id, next, w.answers(tick + 4).code)] else [])
            && (plan.fail.None? ==> IsShell(def, next) || IsAgent(def, next))
  {
    var start := StartPlan(rb, w, p, next, p.inputs, WorkspacePath(w, p));
    QuietEffects(w, tick, head);
    StartEffects(rb, w, p, next, p.inputs, WorkspacePath(w, p), tick + 2);
    EventsAppend(w, tick, head, start.effects);
  }

  /** Two effects that move the pipeline, then the start of the phase moved to. */
  lemma MoveSettles(rb: Runbook, w: World, m: Machine, id: string, head: seq<Effect>, next: string)
    requires Standing(rb, m.tables, id)
    requires |head| == 2 && !head[0].Shell? && !head[1].Shell? && Ops(head) == [PipelineTransition(id, next)]
    ensures var p := m.tables.pipelines[id];
            var s := RunPlan(w, m, MovePlan(rb, w, p, head, next));
            s.outcome.Ok? ==> Settled(rb, s, id, p.kind, Some(next)) && rb.pipelines[p.kind].Has(next)
  {
    var p := m.tables.pipelines[id];
    MoveTables(rb, w, m, id, head, next);
    MoveEvents(rb, w, p, head, next, m.tick);
    PlanReturns(w, m, MovePlan(rb, w, p, head, next));
  }

  lemma TransitionOps(p: Pipeline, next: string, error: string)
    ensures Ops(PhaseTransitionEffects(p, next)) == [PipelineTransition(p.id, next)]
    ensures Ops(FailureTransitionEffects(p, next, error)) == [PipelineTransition(p.id, next)]
    ensures Ops(FailureEffects(p, error)) == [PipelineTransition(p.id, "failed")]
  {
    var a := PhaseTransitionEffects(p, next);
    Ops2(a[0], a[1]);
    var b := FailureTransitionEffects(p, next, error);
    Ops2(b[0], b[1]);
    var c := FailureEffects(p, error);
    Ops2(c[0], c[1]);
  }

  /** Whatever the runbook, a phase whose `next` names a terminal phase that is not defined, "failed" no
      less than "done", ends its pipeline in phase "done", Completed: completion looks at the record as it
      was before the transition. */
  lemma UndefinedTerminalCompletes(rb: Runbook, w: World, m: Machine, id: string, next: string)
    requires m.tables.Keyed() && id in m.tables.pipelines
    requires var p := m.tables.pipelines[id]; !p.Terminal() && p.sessionId.None? && NextPhaseName(rb, p) == Some(next)
    requires IsTerminal(next) && !HasPhase(rb, m.tables.pipelines[id].kind, next)
    ensures var p := m.tables.pipelines[id];
            var s := RunPlan(w, m, AdvancePlan(rb, w, p));
            s.outcome.Ok? ==>
              && id in s.machine.tables.pipelines
              && s.machine.tables.pipelines[id] == p.(phase := "done", status := Completed)
  {
    var p := m.tables.pipelines[id];
    PlanWrites(w, m, AdvancePlan(rb, w, p));
    AdvanceWrites(rb, w, p);
    TerminalThenDone(m.tables, p, next);
  }

  lemma TerminalThenDone(t: Tables, p: Pipeline, next: string)
    requires p.id in t.pipelines && p.sessionId.None? && !p.Terminal()
    ensures var u := ApplyAll(t, [PipelineTransition(p.id, next)] + CompleteOps(p));
            p.id in u.pipelines && u.pipelines[p.id] == t.pipelines[p.id].(phase := "done", status := Completed)
  {
    var move, done := PipelineTransition(p.id, next), PipelineTransition(p.id, "done");
    var mark := PhaseStatusUpdate(p.id, Completed);
    var u := ApplyOp(t, move);
    assert CompleteOps(p) == [done] + [mark];
    assert ([move] + CompleteOps(p))[1..] == CompleteOps(p);
    assert ([done] + [mark])[1..] == [mark];
    assert ApplyAll(u, [done] + [mark]) == ApplyAll(ApplyOp(u, done), [mark]);
    assert ApplyAll(ApplyOp(u, done), [mark]) == ApplyAll(ApplyOp(ApplyOp(u, done), mark), []);
  }

  lemma DoneSettles(rb: Runbook, w: World, m: Machine, id: string, next: string)
    requires Standing(rb, m.tables, id) && !m.tables.pipelines[id].Terminal()
    ensures var p := m.tables.pipelines[id];
            var s := RunPlan(w, m, Before(PhaseTransitionEffects(p, next), CompletePlan(p)));
            s.outcome.Ok? ==> Settled(rb, s, id, p.kind, None)
  {
    var p := m.tables.pipelines[id];
    var head := PhaseTransitionEffects(p, next);
    var plan := Before(head, CompletePlan(p));
    PlanWrites(w, m, plan);
    ExecAllReturns(w, m, plan.effects);
    OpsBefore(head, CompletePlan(p));
    CompleteWrites(p);
    TransitionOps(p, next, "");
    QuietEffects(w, m.tick, plan.effects);
    TerminalThenDone(m.tables, p, next);
  }

  lemma CompleteSettles(rb: Runbook, w: World, m: Machine, id: string)
    requires Standing(rb, m.tables, id) && m.tables.pipelines[id].Terminal()
    ensures var p := m.tables.pipelines[id];
            var s := RunPlan(w, m, CompletePlan(p));
            s.outcome.Ok? ==> Settled(rb, s, id, p.kind, None)
  {
    var p := m.tables.pipelines[id];
    PlanWrites(w, m, CompletePlan(p));
    ExecAllReturns(w, m, CompletionEffects(p));
    CompleteWrites(p);
    CompletionIsQuiet(w, p, m.tick);
    SamePhaseOps(m.tables, CompleteOps(p), id);
  }

  /** Success completes the pipeline, or is a move to the phase it starts. */
  lemma AdvanceIsMove(rb: Runbook, w: World, p: Pipeline)
    requires p.kind in rb.pipelines && !p.Terminal()
    ensures var def := rb.pipelines[p.kind];
            var next := SuccessTarget(def, p.phase);
            if EndsHere(rb, p) then
              && SuccessStarts(def, p.phase).None?
              && AdvancePlan(rb, w, p) == Before(PhaseTransitionEffects(p, next), CompletePlan(p))
            else
              && SuccessStarts(def, p.phase) == (if def.Has(next) then Some(next) else None)
              && AdvancePlan(rb, w, p) == MovePlan(rb, w, p, PhaseTransitionEffects(p, next), next)
  {
    var def := rb.pipelines[p.kind];
    NextIsSuccessTarget(rb, p);
    if def.Has(p.phase) && def.IndexOf(p.phase) + 1 < |def.phases| {
      assert def.Has(def.phases[def.IndexOf(p.phase) + 1].name);
    }
  }

  lemma AdvanceSettles(rb: Runbook, w: World, m: Machine, id: string)
    requires Standing(rb, m.tables, id)
    ensures var p := m.tables.pipelines[id];
            var s := RunPlan(w, m, AdvancePlan(rb, w, p));
            s.outcome.Ok? ==> Settled(rb, s, id, p.kind, SuccessStarts(rb.pipelines[p.kind], p.phase))
  {
    var p := m.tables.pipelines[id];
    var next := SuccessTarget(rb.pipelines[p.kind], p.phase);
    if p.Terminal() {
      CompleteSettles(rb, w, m, id);
    } else {
      AdvanceIsMove(rb, w, p);
      if EndsHere(rb, p) {
        DoneSettles(rb, w, m, id, next);
      } else {
        TransitionOps(p, next, "");
        MoveSettles(rb, w, m, id, PhaseTransitionEffects(p, next), next);
      }
    }
  }

  lemma FailSettles(rb: Runbook, w: World, m: Machine, id: string, error: string)
    requires Standing(rb, m.tables, id)
    ensures var p := m.tables.pipelines[id];
            var s := RunPlan(w, m, FailPlan(rb, w, p, error));
            s.outcome.Ok? ==> Settled(rb, s, id, p.kind, FailureStarts(rb.pipelines[p.kind], p.phase))
  {
    var p := m.tables.pipelines[id];
    OnFailIsFailureTarget(rb, p);
    if OnFail(rb, p).Some? {
      var target := OnFail(rb, p).value;
      TransitionOps(p, target, error);
      MoveSettles(rb, w, m, id, FailureTransitionEffects(p, target, error), target);
    } else {
      GiveUpSettles(rb, w, m, id, error);
    }
  }

  lemma GiveUpSettles(rb: Runbook, w: World, m: Machine, id: string, error: string)
    requires Standing(rb, m.tables, id)
    ensures var p := m.tables.pipelines[id];
            var s := RunPlan(w, m, Plan(FailureEffects(p, error), None));
            s.outcome.Ok? ==> Settled(rb, s, id, p.kind, None)
  {
    var p := m.tables.pipelines[id];
    var effects := FailureEffects(p, error);
    PlanWrites(w, m, Plan(effects, None));
    ExecAllReturns(w, m, effects);
    TransitionOps(p, "", error);
    QuietEffects(w, m.tick, effects);
    MoveThen(m.tables, id, "failed", []);
    assert [PipelineTransition(id, "failed")] + [] == [PipelineTransition(id, "failed")];
  }

  lemma ReportIsPlan(rb: Runbook, w: World, m: Machine, id: string, code: int)
    requires id in m.tables.pipelines
    ensures var p := m.tables.pipelines[id];
            Handle(rb, w, m, ShellCompleted(id, p.phase, code))
            == RunPlan(w, m, if code == 0 then AdvancePlan(rb, w, p) else FailPlan(rb, w, p, ShellError(code)))
  {
  }

  lemma ReportSettles(rb: Runbook, w: World, m: Machine, id: string, code: int)
    requires Standing(rb, m.tables, id)
    ensures var p := m.tables.pipelines[id];
            var def := rb.pipelines[p.kind];
            var s := Handle(rb, w, m, ShellCompleted(id, p.phase, code));
            s.outcome.Ok? ==>
              Settled(rb, s, id, p.kind,
                      if code == 0 then SuccessStarts(def, p.phase) else FailureStarts(def, p.phase))
  {
    ReportIsPlan(rb, w, m, id, code);
    if code == 0 {
      AdvanceSettles(rb, w, m, id);
    } else {
      FailSettles(rb, w, m, id, ShellError(code));
    }
  }

  // ----------------------------------------------------------------- termination

  /** One report: an error, rest, or the same situation one node further along the path. */
  lemma ChainStep(rb: Runbook, w: World, m: Machine, id: string, code: int, path: seq<string>)
    returns (s: Step, phase: string, next: int)
    requires Standing(rb, m.tables, id)
    requires ShellPath(rb.pipelines[m.tables.pipelines[id].kind], path)
    requires path[|path| - 1] == m.tables.pipelines[id].phase
    ensures s == Handle(rb, w, m, ShellCompleted(id, m.tables.pipelines[id].phase, code))
    ensures s.outcome.Ok? && s.outcome.value == [] ==> Quiescent(rb, s.machine.tables, id)
    ensures s.outcome.Ok? && s.outcome.value != [] ==>
      && s.outcome.value == [ShellCompleted(id, phase, next)]
      && Standing(rb, s.machine.tables, id)
      && s.machine.tables.pipelines[id].kind == m.tables.pipelines[id].kind
      && s.machine.tables.pipelines[id].phase == phase
      && ShellPath(rb.pipelines[m.tables.pipelines[id].kind], path + [phase])
  {
    var p := m.tables.pipelines[id];
    var def := rb.pipelines[p.kind];
    s := Handle(rb, w, m, ShellCompleted(id, p.phase, code));
    phase, next := "", 0;
    ReportSettles(rb, w, m, id, code);
    if s.outcome.Ok? && s.outcome.value != [] {
      phase, next := s.machine.tables.pipelines[id].phase, s.outcome.value[0].exitCode;
      assert s.outcome.value == [ShellCompleted(id, phase, next)];
      ExtendPath(def, path, phase);
    }
  }

  lemma ExtendPath(def: PipelineDef, path: seq<string>, q: string)
    requires ShellPath(def, path) && ShellEdge(def, path[|path| - 1], q)
    ensures ShellPath(def, path + [q])
  {
  }

  /** The report of the phase in which a pipeline stands. */
  function ReportOf(m: Machine, id: string, code: int): Event
    requires id in m.tables.pipelines
  {
    ShellCompleted(id, m.tables.pipelines[id].phase, code)
  }

  /** A chain of shell phases cannot outlast the phases there are. */
  lemma {:induction false} ChainSettles(rb: Runbook, w: World, m: Machine, id: string, code: int, path: seq<string>,
                                        fuel: nat)
    requires Standing(rb, m.tables, id)
    requires var def := rb.pipelines[m.tables.pipelines[id].kind];
             && Acyclic(def) && ShellPath(def, path) && Reachable(def, path[0])
             && path[|path| - 1] == m.tables.pipelines[id].phase
             && fuel + |path| > |def.phases|
    ensures var r := Process(rb, w, m, [ReportOf(m, id, code)], fuel);
            && r.Finished?
            && (r.step.outcome.Ok? ==> Quiescent(rb, r.step.machine.tables, id))
    ensures NeverQueues(rb, w, m, [ReportOf(m, id, code)], fuel)
  {
    EngineHandlerIsEngine(rb, w);
    LoopOfChain(EngineHandler(rb, w), rb, w, m, id, code, path, fuel);
  }

  lemma CallOfChain(handle: Handler, rb: Runbook, w: World, m: Machine, id: string, code: int, path: seq<string>)
    returns (s: Step, phase: string, next: int)
    requires IsEngine(handle, rb, w) && Standing(rb, m.tables, id)
    requires var def := rb.pipelines[m.tables.pipelines[id].kind];
             ShellPath(def, path) && path[|path| - 1] == m.tables.pipelines[id].phase
    ensures s == handle(m, ReportOf(m, id, code))
    ensures s.outcome.Ok? && s.outcome.value == [] ==> Quiescent(rb, s.machine.tables, id)
    ensures s.outcome.Ok? && s.outcome.value != [] ==>
      && Standing(rb, s.machine.tables, id)
      && s.machine.tables.pipelines[id].kind == m.tables.pipelines[id].kind
      && s.machine.tables.pipelines[id].phase == phase
      && s.outcome.value == [ReportOf(s.machine, id, next)]
      && ShellPath(rb.pipelines[m.tables.pipelines[id].kind], path + [phase])
  {
    s, phase, next := ChainStep(rb, w, m, id, code, path);
    assert Answers(handle, rb, w, m, ReportOf(m, id, code));
  }

  lemma {:induction false} LoopOfChain(handle: Handler, rb: Runbook, w: World, m: Machine, id: string, code: int,
                                       path: seq<string>, fuel: nat)
    requires IsEngine(handle, rb, w) && Standing(rb, m.tables, id)
    requires var def := rb.pipelines[m.tables.pipelines[id].kind];
             && Acyclic(def) && ShellPath(def, path) && Reachable(def, path[0])
             && path[|path| - 1] == m.tables.pipelines[id].phase
             && fuel + |path| > |def.phases|
    ensures var r := Loop(handle, m, [ReportOf(m, id, code)], fuel);
            && r.Finished?
            && (r.step.outcome.Ok? ==> Quiescent(rb, r.step.machine.tables, id))
    ensures OneAtATime(handle, m, [ReportOf(m, id, code)], fuel)
    decreases fuel
  {
    LongPathsRepeat(rb.pipelines[m.tables.pipelines[id].kind], path);
    var s, phase, next := CallOfChain(handle, rb, w, m, id, code, path);
    LoopOne(handle, m, ReportOf(m, id, code), fuel, s);
    if s.outcome.Ok? && s.outcome.value != [] {
      LoopOfChain(handle, rb, w, s.machine, id, next, path + [phase], fuel - 1);
    }
  }
}
