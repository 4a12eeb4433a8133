/** Where pipelines stand: in phases that calls of the engine can lead to. */
module Routes {
  import opened Core
  import opened Runbook
  import opened State
  import opened Plans
  import opened Execution
  import opened Shapes
  import opened Safety
  import opened Walks

  /** Where success leaves a pipeline for good: a terminal phase that is not defined is passed by. */
  function Landing(def: PipelineDef, phase: string): string {
    var next := SuccessTarget(def, phase);
    if !def.Has(next) && IsTerminal(next) then "done" else next
  }

  /** One call can lead from here to there. */
  predicate Leads(def: PipelineDef, a: string, b: string) {
    (!IsTerminal(a) && b == Landing(def, a)) || b == FailureTarget(def, a)
  }

  ghost predicate Route(def: PipelineDef, route: seq<string>) {
    && route != []
    && route[0] == InitialPhase(def)
    && forall i :: 0 < i < |route| ==> Leads(def, route[i - 1], route[i])
  }

  /** Some route from the first phase ends in this one. */
  ghost predicate Reachable(def: PipelineDef, phase: string) {
    exists route: seq<string> :: Route(def, route) && route[|route| - 1] == phase
  }

  lemma InitialIsReachable(def: PipelineDef)
    ensures Reachable(def, InitialPhase(def))
  {
    assert Route(def, [InitialPhase(def)]);
  }

  lemma LeadsOn(def: PipelineDef, a: string, b: string)
    requires Reachable(def, a) && Leads(def, a, b)
    ensures Reachable(def, b)
  {
    var route: seq<string> :| Route(def, route) && route[|route| - 1] == a;
    assert Route(def, route + [b]);
  }

  /** Where a pipeline may be found: in a phase that can be reached, or in the undefined "failed" that a
      crash kept it from passing by, and which nothing leads out of. */
  ghost predicate MayStand(def: PipelineDef, phase: string) {
    Reachable(def, phase) || (phase == "failed" && !def.Has("failed"))
  }

  // ------------------------------------------------- the engine keeps to routes

  /** Every stored pipeline is of a kind that some command runs, and stands where it may. */
  ghost predicate Placed(rb: Runbook, t: Tables) {
    forall id :: id in t.pipelines ==>
      var p := t.pipelines[id];
      p.kind in rb.pipelines && Invoked(rb, p.kind) && MayStand(rb.pipelines[p.kind], p.phase)
  }

  /** The operation puts only this pipeline anywhere, and only where its kind may stand. */
  ghost predicate Puts(rb: Runbook, op: Operation, id: string, kind: string) {
    kind in rb.pipelines && Invoked(rb, kind)
    && match op
       case PipelineCreate(i, k, _, _, initial) => i == id && k == kind && initial == InitialPhase(rb.pipelines[kind])
       case PipelineTransition(i, phase) => i == id && MayStand(rb.pipelines[kind], phase)
       case _ => true
  }

  lemma OpKeepsPlaces(rb: Runbook, t: Tables, op: Operation, id: string, kind: string)
    requires Placed(rb, t) && Puts(rb, op, id, kind)
    requires id in t.pipelines ==> t.pipelines[id].kind == kind
    ensures Placed(rb, ApplyOp(t, op))
    ensures id in ApplyOp(t, op).pipelines ==> ApplyOp(t, op).pipelines[id].kind == kind
  {
    if op.PipelineCreate? {
      InitialIsReachable(rb.pipelines[kind]);
    } else if !op.PipelineTransition? {
      OthersMoveNone(t, op);
    }
  }

  lemma OthersMoveNone(t: Tables, op: Operation)
    requires !op.PipelineCreate? && !op.PipelineTransition?
    ensures forall id :: id in ApplyOp(t, op).pipelines ==>
      && id in t.pipelines
      && ApplyOp(t, op).pipelines[id].kind == t.pipelines[id].kind
      && ApplyOp(t, op).pipelines[id].phase == t.pipelines[id].phase
  {
  }

  lemma {:induction false} OpsKeepPlaces(rb: Runbook, t: Tables, ops: seq<Operation>, id: string, kind: string)
    requires Placed(rb, t) && forall op :: op in ops ==> Puts(rb, op, id, kind)
    requires id in t.pipelines ==> t.pipelines[id].kind == kind
    ensures Placed(rb, ApplyAll(t, ops))
    decreases |ops|
  {
    if ops != [] {
      assert ops[0] in ops;
      OpKeepsPlaces(rb, t, ops[0], id, kind);
      OpsKeepPlaces(rb, ApplyOp(t, ops[0]), ops[1..], id, kind);
    }
  }

  /** Wherever success passes or ends, a pipeline may stand. */
  lemma SuccessMayStand(def: PipelineDef, phase: string)
    requires MayStand(def, phase) && !IsTerminal(phase)
    ensures MayStand(def, SuccessTarget(def, phase)) && MayStand(def, Landing(def, phase))
  {
    LeadsOn(def, phase, Landing(def, phase));
  }

  lemma AdvancePuts(rb: Runbook, t: Tables, p: Pipeline)
    requires AtHome(rb, t, p) && Placed(rb, t)
    ensures forall op :: op in AdvanceOps(rb, p) ==> Puts(rb, op, p.id, p.kind)
  {
    if !p.Terminal() {
      SuccessMayStand(rb.pipelines[p.kind], p.phase);
      MovesAre(rb, p);
    }
  }

  lemma MovesAre(rb: Runbook, p: Pipeline)
    requires p.kind in rb.pipelines && !p.Terminal()
    ensures var def := rb.pipelines[p.kind];
            forall op :: op in AdvanceOps(rb, p) ==>
              || op == PipelineTransition(p.id, SuccessTarget(def, p.phase))
              || op == PipelineTransition(p.id, Landing(def, p.phase))
              || (!op.PipelineTransition? && !op.PipelineCreate?)
  {
    NextIsSuccessTarget(rb, p);
  }

  lemma FailPuts(rb: Runbook, t: Tables, p: Pipeline)
    requires AtHome(rb, t, p) && Placed(rb, t)
    ensures forall op :: op in FailOps(rb, p) ==> Puts(rb, op, p.id, p.kind)
  {
    var def := rb.pipelines[p.kind];
    OnFailIsFailureTarget(rb, p);
    if Reachable(def, p.phase) {
      LeadsOn(def, p.phase, FailureTarget(def, p.phase));
    }
  }

  function KindOf(s: Shape): string {
    match s
    case Nothing => ""
    case Advances(p) => p.kind
    case Fails(p) => p.kind
    case Spawns(p) => p.kind
    case Marks(p, _) => p.kind
    case Exits(p) => p.kind
    case Creates(_, kind, _, _, _, _) => kind
  }

  lemma ShapePuts(rb: Runbook, w: World, t: Tables, tick: nat, s: Shape)
    requires Placed(rb, t) && Sound(w, t) && Fits(rb, w, t, tick, s)
    ensures forall op :: op in ShapeOps(rb, s) ==> Puts(rb, op, ShapeTarget(s), KindOf(s))
  {
    match s
    case Nothing =>
    case Advances(p) => AdvancePuts(rb, t, p);
    case Fails(p) => FailPuts(rb, t, p);
    case Spawns(p) =>
    case Marks(p, status) =>
    case Exits(p) => assert false;
    case Creates(id, kind, name, args, initial, path) =>
  }

  ghost predicate RouteInvariant(rb: Runbook, w: World, m: Machine) { Invariant(w, m) && Placed(rb, m.tables) }

  lemma ShapeKind(rb: Runbook, w: World, t: Tables, tick: nat, s: Shape)
    requires Sound(w, t) && FreshIds(w) && IdsSpent(w, t, tick) && Fits(rb, w, t, tick, s) && !s.Nothing?
    ensures ShapeTarget(s) in t.pipelines ==> t.pipelines[ShapeTarget(s)].kind == KindOf(s)
  {
  }

  lemma ShapeKeepsPlaces(rb: Runbook, w: World, t: Tables, tick: nat, s: Shape, k: nat)
    requires Placed(rb, t) && Sound(w, t) && FreshIds(w) && IdsSpent(w, t, tick)
    requires Fits(rb, w, t, tick, s) && k <= |ShapeOps(rb, s)|
    ensures Placed(rb, ApplyAll(t, ShapeOps(rb, s)[..k]))
  {
    var ops := ShapeOps(rb, s)[..k];
    if ops != [] {
      ShapePuts(rb, w, t, tick, s);
      ShapeKind(rb, w, t, tick, s);
      assert forall op :: op in ops ==> op in ShapeOps(rb, s);
      OpsKeepPlaces(rb, t, ops, ShapeTarget(s), KindOf(s));
    }
  }

  lemma InputKeepsPlaces(rb: Runbook, w: World, m: Machine, i: Input)
    requires FreshIds(w) && RouteInvariant(rb, w, m)
    ensures Placed(rb, ApplyAll(m.tables, InputOps(rb, w, m, i)))
  {
    InvariantIsSound(w, m);
    var s, k := WritesAPrefix(rb, w, m, i);
    ShapeKeepsPlaces(rb, w, m.tables, m.tick, s, k);
  }

  lemma NextKeepsPlaces(rb: Runbook, w: World, m: Machine, i: Input)
    requires FreshIds(w) && RouteInvariant(rb, w, m)
    ensures RouteInvariant(rb, w, Next(rb, w, m, i))
  {
    NextKeepsInvariant(rb, w, m, i);
    InputKeepsPlaces(rb, w, m, i);
    NextTables(rb, w, m, i);
  }

  /** Main result: whatever the runbook and whatever the inputs, crashes included, a stored pipeline stays one
      of a kind that some command runs, in a phase that some route leads to or in the undefined "failed". */
  lemma {:induction false} RunKeepsPlaces(rb: Runbook, w: World, m: Machine, inputs: seq<Input>)
    requires FreshIds(w) && RouteInvariant(rb, w, m)
    ensures RouteInvariant(rb, w, Run(rb, w, m, inputs))
    decreases |inputs|
  {
    if inputs != [] {
      NextKeepsPlaces(rb, w, m, inputs[0]);
      RunKeepsPlaces(rb, w, Next(rb, w, m, inputs[0]), inputs[1..]);
    }
  }
}
