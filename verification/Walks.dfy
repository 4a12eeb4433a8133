/** The phases a pipeline goes through form a walk in its definition's graph. */
module Walks {
  import opened Wrappers
  import opened Core
  import opened Runbook
  import opened State
  import opened Plans
  import opened Execution
  import opened Shapes
  import opened Safety

  // --------------------------------------------------------- closed runbooks

  ghost predicate ClosedPhase(rb: Runbook, def: PipelineDef, phase: PhaseDef) {
    && (phase.run.RunShell? || (phase.run.RunAgent? && phase.run.agent in rb.agents))
    && (phase.next.Some? ==> def.Has(phase.next.value) || phase.next.value == "done")
    && (phase.onFail.Some? ==> def.Has(phase.onFail.value))
  }

  ghost predicate ClosedDef(rb: Runbook, def: PipelineDef) {
    && def.phases != []
    && (forall i :: 0 <= i < |def.phases| ==> ClosedPhase(rb, def, def.phases[i]))
  }

  /** What commands run is defined all through. */
  ghost predicate Closed(rb: Runbook) {
    forall kind :: kind in rb.pipelines && Invoked(rb, kind) ==> ClosedDef(rb, rb.pipelines[kind])
  }

  // ---------------------------------------------------------------- the graph

  /** Where success leads: explicit `next`, then list order, then "done". */
  function SuccessTarget(def: PipelineDef, phase: string): string {
    if !def.Has(phase) then "done"
    else
      var i := def.IndexOf(phase);
      if def.phases[i].next.Some? then def.phases[i].next.value
      else if i + 1 < |def.phases| then def.phases[i + 1].name
      else "done"
  }

  /** Where failure leads: `on_fail`, or "failed". */
  function FailureTarget(def: PipelineDef, phase: string): string {
    if def.Has(phase) && def.phases[def.IndexOf(phase)].onFail.Some?
    then def.phases[def.IndexOf(phase)].onFail.value
    else "failed"
  }

  /** An edge: a terminal phase is left only by a failure. */
  predicate Edge(def: PipelineDef, a: string, b: string) {
    (!IsTerminal(a) && b == SuccessTarget(def, a)) || b == FailureTarget(def, a)
  }

  /** `next` of some phase leads here. */
  ghost predicate Named(def: PipelineDef, phase: string) {
    exists i :: 0 <= i < |def.phases| && def.phases[i].next == Some(phase)
  }

  /** One more phase in the log: an edge, "done" written again, or "done" written after a `next` that
      names "failed" where that is not defined. */
  ghost predicate WalkStep(def: PipelineDef, a: string, b: string) {
    || Edge(def, a, b)
    || (b == "done" && (a == "done" || (a == "failed" && !def.Has("failed") && Named(def, "failed"))))
  }

  function InitialPhase(def: PipelineDef): string { if def.phases == [] then "init" else def.phases[0].name }

  ghost predicate IsWalk(def: PipelineDef, walk: seq<string>) {
    && walk != []
    && walk[0] == InitialPhase(def)
    && forall i :: 0 < i < |walk| ==> WalkStep(def, walk[i - 1], walk[i])
  }

  /** What the engine computes is the graph's success target. */
  lemma NextIsSuccessTarget(rb: Runbook, p: Pipeline)
    requires p.kind in rb.pipelines
    ensures SuccessTarget(rb.pipelines[p.kind], p.phase)
         == if NextPhaseName(rb, p).Some? then NextPhaseName(rb, p).value else "done"
  {
  }

  /** The definition's own next phase is the graph's, where that is defined. */
  lemma NextPhaseIsTarget(def: PipelineDef, phase: string)
    requires def.Has(phase)
    ensures var i := def.IndexOf(phase);
            var last := i + 1 == |def.phases| && def.phases[i].next.None?;
            match def.NextPhase(phase)
            case None => last || !def.Has(SuccessTarget(def, phase))
            case Some(next) => !last && next.name == SuccessTarget(def, phase)
  {
  }

  lemma OnFailIsFailureTarget(rb: Runbook, p: Pipeline)
    requires p.kind in rb.pipelines
    ensures FailureTarget(rb.pipelines[p.kind], p.phase)
         == if OnFail(rb, p).Some? then OnFail(rb, p).value else "failed"
  {
  }

  // ------------------------------------------------------------- phases logged

  /** The phases one operation logs for a pipeline. */
  function PhaseIn(op: Operation, id: string): seq<string> {
    if op.PipelineCreate? && op.id == id then [op.initialPhase]
    else if op.PipelineTransition? && op.id == id then [op.phase]
    else []
  }

  function PhasesLogged(log: seq<Operation>, id: string): seq<string> {
    if log == [] then [] else PhasesLogged(log[..|log| - 1], id) + PhaseIn(log[|log| - 1], id)
  }

  ghost predicate WalkOp(rb: Runbook, t: Tables, op: Operation) {
    match op
    case PipelineCreate(id, kind, _, _, initial) =>
      id !in t.pipelines && kind in rb.pipelines && Invoked(rb, kind) && initial == InitialPhase(rb.pipelines[kind])
    case PipelineTransition(id, phase) =>
      id in t.pipelines && t.pipelines[id].kind in rb.pipelines
      && WalkStep(rb.pipelines[t.pipelines[id].kind], t.pipelines[id].phase, phase)
    case PipelineDelete(_) => false
    case PhaseStatusUpdate(_, _) => true
    case SessionCreate(_, _) => true
    case SessionDelete(_) => true
    case WorkspaceCreate(_, _, _) => true
    case WorkspaceDelete(_) => true
  }

  ghost predicate WalkOps(rb: Runbook, t: Tables, ops: seq<Operation>)
    decreases |ops|
  {
    ops != [] ==> WalkOp(rb, t, ops[0]) && WalkOps(rb, ApplyOp(t, ops[0]), ops[1..])
  }

  /** For every stored pipeline the logged phases are a walk that ends where it now is. */
  ghost predicate Walked(rb: Runbook, log: seq<Operation>, id: string) {
    var t := Replay(log);
    if id in t.pipelines then
      && t.pipelines[id].kind in rb.pipelines && Invoked(rb, t.pipelines[id].kind)
      && IsWalk(rb.pipelines[t.pipelines[id].kind], PhasesLogged(log, id))
      && PhasesLogged(log, id)[|PhasesLogged(log, id)| - 1] == t.pipelines[id].phase
    else PhasesLogged(log, id) == []
  }

  ghost predicate WalkLog(rb: Runbook, log: seq<Operation>) {
    forall id :: Walked(rb, log, id)
  }

  /** An operation that is no move of this pipeline leaves its walk as it was. */
  lemma WalkStays(rb: Runbook, log: seq<Operation>, op: Operation, id: string)
    requires Walked(rb, log, id) && WalkOp(rb, Replay(log), op) && PhaseIn(op, id) == []
    ensures Walked(rb, log + [op], id)
  {
    var t := Replay(log);
    ReplayAppend(log, op);
    PhasesAppend(log, op, id);
    assert PhasesLogged(log, id) + [] == PhasesLogged(log, id);
    OpSpares(t, op, id);
  }

  /** Where a pipeline stands is changed only by its creation, its moves and its deletion. */
  lemma OpSpares(t: Tables, op: Operation, id: string)
    requires PhaseIn(op, id) == [] && !op.PipelineDelete?
    ensures id in ApplyOp(t, op).pipelines <==> id in t.pipelines
    ensures id in t.pipelines ==>
      && ApplyOp(t, op).pipelines[id].kind == t.pipelines[id].kind
      && ApplyOp(t, op).pipelines[id].phase == t.pipelines[id].phase
  {
  }

  lemma PhasesAppend(log: seq<Operation>, op: Operation, id: string)
    ensures PhasesLogged(log + [op], id) == PhasesLogged(log, id) + PhaseIn(op, id)
  {
    assert (log + [op])[..|log|] == log;
  }

  lemma WalkBegins(rb: Runbook, log: seq<Operation>, op: Operation, id: string)
    requires Walked(rb, log, id) && WalkOp(rb, Replay(log), op) && op.PipelineCreate? && op.id == id
    ensures Walked(rb, log + [op], id)
  {
    ReplayAppend(log, op);
    PhasesAppend(log, op, id);
    assert PhasesLogged(log + [op], id) == [op.initialPhase];
  }

  lemma WalkMoves(rb: Runbook, log: seq<Operation>, op: Operation, id: string)
    requires Walked(rb, log, id) && WalkOp(rb, Replay(log), op) && op.PipelineTransition? && op.id == id
    ensures Walked(rb, log + [op], id)
  {
    ReplayAppend(log, op);
    PhasesAppend(log, op, id);
  }

  lemma WalkExtends(rb: Runbook, log: seq<Operation>, op: Operation, id: string)
    requires Walked(rb, log, id) && WalkOp(rb, Replay(log), op)
    ensures Walked(rb, log + [op], id)
  {
    if op.PipelineCreate? && op.id == id {
      WalkBegins(rb, log, op, id);
    } else if op.PipelineTransition? && op.id == id {
      WalkMoves(rb, log, op, id);
    } else {
      WalkStays(rb, log, op, id);
    }
  }

  lemma {:induction false} WalkLogExtends(rb: Runbook, log: seq<Operation>, ops: seq<Operation>)
    requires WalkLog(rb, log) && WalkOps(rb, Replay(log), ops)
    ensures WalkLog(rb, log + ops)
    decreases |ops|
  {
    if ops == [] {
      assert log + ops == log;
    } else {
      var longer := log + [ops[0]];
      ReplayAppend(log, ops[0]);
      forall id
        ensures Walked(rb, longer, id)
      {
        WalkExtends(rb, log, ops[0], id);
      }
      WalkLogExtends(rb, longer, ops[1..]);
      assert longer + ops[1..] == log + ops;
    }
  }

  lemma {:induction false} WalkPrefix(rb: Runbook, t: Tables, ops: seq<Operation>, n: nat)
    requires WalkOps(rb, t, ops) && n <= |ops|
    ensures WalkOps(rb, t, ops[..n])
    decreases n
  {
    if n > 0 {
      WalkPrefix(rb, ApplyOp(t, ops[0]), ops[1..], n - 1);
      assert ops[..n][1..] == ops[1..][..n - 1];
    }
  }

  lemma {:induction false} NoMovesWalk(rb: Runbook, t: Tables, ops: seq<Operation>)
    requires forall op :: op in ops ==> !op.PipelineCreate? && !op.PipelineTransition? && !op.PipelineDelete?
    ensures WalkOps(rb, t, ops)
    decreases |ops|
  {
    if ops != [] {
      assert ops[0] in ops;
      NoMovesWalk(rb, ApplyOp(t, ops[0]), ops[1..]);
    }
  }

  lemma WalkCons(rb: Runbook, t: Tables, a: Operation, rest: seq<Operation>)
    requires WalkOp(rb, t, a) && WalkOps(rb, ApplyOp(t, a), rest)
    ensures WalkOps(rb, t, [a] + rest)
  {
    assert ([a] + rest)[1..] == rest;
  }

  // ------------------------------------------------ the engine keeps to the graph

  /** Every stored pipeline has a definition. */
  ghost predicate Grounded(rb: Runbook, t: Tables) {
    forall id :: id in t.pipelines ==> t.pipelines[id].kind in rb.pipelines
  }

  ghost predicate AtHome(rb: Runbook, t: Tables, p: Pipeline) {
    && p.id in t.pipelines && t.pipelines[p.id].phase == p.phase && t.pipelines[p.id].kind == p.kind
    && p.kind in rb.pipelines && p.sessionId.None?
  }

  lemma AdvanceWalks(rb: Runbook, t: Tables, p: Pipeline)
    requires AtHome(rb, t, p)
    ensures WalkOps(rb, t, AdvanceOps(rb, p))
  {
    var mark := [PhaseStatusUpdate(p.id, Completed)];
    if p.Terminal() {
      assert AdvanceOps(rb, p) == mark;
      NoMovesWalk(rb, t, mark);
    } else {
      NextIsSuccessTarget(rb, p);
      var next := SuccessTarget(rb.pipelines[p.kind], p.phase);
      var move := PipelineTransition(p.id, next);
      if EndsHere(rb, p) {
        assert AdvanceOps(rb, p) == [move] + CompleteOps(p);
        DoneWalks(rb, t, p);
        WalkCons(rb, t, move, CompleteOps(p));
      } else {
        assert AdvanceOps(rb, p) == [move] + StartOps(rb, p, next);
        NoMovesWalk(rb, ApplyOp(t, move), StartOps(rb, p, next));
        WalkCons(rb, t, move, StartOps(rb, p, next));
      }
    }
  }

  /** Success completes the pipeline: nothing follows, or only a terminal phase that is not defined. */
  predicate EndsHere(rb: Runbook, p: Pipeline) {
    match NextPhaseName(rb, p)
    case None => true
    case Some(next) => !HasPhase(rb, p.kind, next) && IsTerminal(next)
  }

  /** The record was moved to its success target and is then completed, as it was before. */
  lemma DoneWalks(rb: Runbook, t: Tables, p: Pipeline)
    requires AtHome(rb, t, p) && !p.Terminal() && EndsHere(rb, p)
    ensures WalkOps(rb, ApplyOp(t, PipelineTransition(p.id, SuccessTarget(rb.pipelines[p.kind], p.phase))),
                    CompleteOps(p))
  {
    var def := rb.pipelines[p.kind];
    var next := SuccessTarget(def, p.phase);
    var u := ApplyOp(t, PipelineTransition(p.id, next));
    var move := PipelineTransition(p.id, "done");
    var mark := [PhaseStatusUpdate(p.id, Completed)];
    NextIsSuccessTarget(rb, p);
    if next == "failed" {
      assert def.phases[def.IndexOf(p.phase)].next == Some("failed");
    }
    assert WalkStep(def, next, "done");
    assert CompleteOps(p) == [move] + mark;
    NoMovesWalk(rb, ApplyOp(u, move), mark);
    WalkCons(rb, u, move, mark);
  }

  lemma FailWalks(rb: Runbook, t: Tables, p: Pipeline)
    requires AtHome(rb, t, p)
    ensures WalkOps(rb, t, FailOps(rb, p))
  {
    OnFailIsFailureTarget(rb, p);
    var target := FailureTarget(rb.pipelines[p.kind], p.phase);
    var move := PipelineTransition(p.id, target);
    var rest := if OnFail(rb, p).Some? then StartOps(rb, p, target) else [];
    assert FailOps(rb, p) == [move] + rest;
    NoMovesWalk(rb, ApplyOp(t, move), rest);
    WalkCons(rb, t, move, rest);
  }

  lemma CreateWalks(rb: Runbook, t: Tables, s: Shape)
    requires s.Creates? && s.id !in t.pipelines
    requires s.kind in rb.pipelines && Invoked(rb, s.kind) && s.initial == InitialPhase(rb.pipelines[s.kind])
    ensures WalkOps(rb, t, ShapeOps(rb, s))
  {
    var a := WorkspaceCreate(s.id, s.path, "feature/" + s.name);
    var b := PipelineCreate(s.id, s.kind, s.name, s.args, s.initial);
    var p := NewPipeline(s.id, s.name, s.kind, s.args, s.initial);
    var rest := if rb.pipelines[s.kind].phases != [] then StartOps(rb, p, s.initial) else [];
    NoMovesWalk(rb, ApplyOp(ApplyOp(t, a), b), rest);
    WalkCons(rb, ApplyOp(t, a), b, rest);
    WalkCons(rb, t, a, [b] + rest);
    assert ShapeOps(rb, s) == [a] + ([b] + rest);
  }

  lemma ShapeWalks(rb: Runbook, w: World, t: Tables, tick: nat, s: Shape)
    requires Grounded(rb, t)
    requires Sound(w, t) && FreshIds(w) && IdsSpent(w, t, tick)
    requires Fits(rb, w, t, tick, s)
    ensures WalkOps(rb, t, ShapeOps(rb, s))
  {
    match s
    case Nothing =>
    case Advances(p) => AdvanceWalks(rb, t, p);
    case Fails(p) => FailWalks(rb, t, p);
    case Spawns(p) => NoMovesWalk(rb, t, ShapeOps(rb, s));
    case Marks(p, status) => NoMovesWalk(rb, t, ShapeOps(rb, s));
    case Exits(p) => assert false;
    case Creates(id, kind, name, args, initial, path) => CreateWalks(rb, t, s);
  }

  ghost predicate WalkInvariant(rb: Runbook, w: World, m: Machine) {
    Invariant(w, m) && WalkLog(rb, m.log)
  }

  lemma WalkIsGrounded(rb: Runbook, w: World, m: Machine)
    requires WalkInvariant(rb, w, m)
    ensures Grounded(rb, m.tables)
  {
    forall id | id in m.tables.pipelines
      ensures m.tables.pipelines[id].kind in rb.pipelines
    {
      assert Walked(rb, m.log, id);
    }
  }

  lemma InputWalks(rb: Runbook, w: World, m: Machine, i: Input)
    requires FreshIds(w) && WalkInvariant(rb, w, m)
    ensures WalkOps(rb, m.tables, InputOps(rb, w, m, i))
  {
    InvariantIsSound(w, m);
    WalkIsGrounded(rb, w, m);
    var s, k := WritesAPrefix(rb, w, m, i);
    ShapeWalks(rb, w, m.tables, m.tick, s);
    WalkPrefix(rb, m.tables, ShapeOps(rb, s), k);
  }

  lemma NextKeepsWalks(rb: Runbook, w: World, m: Machine, i: Input)
    requires FreshIds(w) && WalkInvariant(rb, w, m)
    ensures WalkInvariant(rb, w, Next(rb, w, m, i))
  {
    NextKeepsInvariant(rb, w, m, i);
    InputWalks(rb, w, m, i);
    PlanWrites(w, m, InputPlan(rb, w, m, i));
    WalkLogExtends(rb, m.log, InputOps(rb, w, m, i));
  }

  lemma {:induction false} RunKeepsWalks(rb: Runbook, w: World, m: Machine, inputs: seq<Input>)
    requires FreshIds(w) && WalkInvariant(rb, w, m)
    ensures WalkInvariant(rb, w, Run(rb, w, m, inputs))
    decreases |inputs|
  {
    if inputs != [] {
      NextKeepsWalks(rb, w, m, inputs[0]);
      RunKeepsWalks(rb, w, Next(rb, w, m, inputs[0]), inputs[1..]);
    }
  }

  /** Main result: over any run of any runbook, crashes included, the phases logged for each
      pipeline form a walk from its first phase to the phase it is now in. */
  lemma PhasesFormAWalk(rb: Runbook, w: World, inputs: seq<Input>, id: string)
    requires FreshIds(w)
    ensures var m := Run(rb, w, INITIAL, inputs);
            id in m.tables.pipelines ==>
              && m.tables.pipelines[id].kind in rb.pipelines
              && var walk := PhasesLogged(m.log, id);
                 && IsWalk(rb.pipelines[m.tables.pipelines[id].kind], walk)
                 && walk[|walk| - 1] == m.tables.pipelines[id].phase
  {
    InitialInvariant(w);
    RunKeepsWalks(rb, w, INITIAL, inputs);
    assert Walked(rb, Run(rb, w, INITIAL, inputs).log, id);
  }
}
