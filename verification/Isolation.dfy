/** Addressing and isolation: who an input reaches, and whom it leaves alone. */
module Isolation {
  import opened Wrappers
  import opened Core
  import opened Runbook
  import opened State
  import opened Plans
  import opened Execution
  import opened Shapes
  import opened Safety

  // -------------------------------------------------------------- addressing

  /** `ref` names the pipeline stored under `id`: the id itself, or a prefix of it that is no
      pipeline's id and no other pipeline's prefix. */
  ghost predicate Names(t: Tables, ref: string, id: string) {
    && id in t.pipelines
    && (ref == id
        || (ref !in t.pipelines && StartsWith(id, ref)
            && forall k :: k in t.pipelines && StartsWith(k, ref) ==> k == id))
  }

  /** Done, error and resume behave the same whether the full id or a unique prefix is given. */
  lemma PrefixIsAsGood(rb: Runbook, w: World, m: Machine, ref: string, id: string, error: string)
    requires m.tables.Keyed() && Names(m.tables, ref, id)
    ensures Handle(rb, w, m, AgentDone(ref)) == Handle(rb, w, m, AgentDone(id))
    ensures Handle(rb, w, m, AgentError(ref, error)) == Handle(rb, w, m, AgentError(id, error))
    ensures Handle(rb, w, m, Custom("pipeline:resume", map["pipeline_id" := ref]))
         == Handle(rb, w, m, Custom("pipeline:resume", map["pipeline_id" := id]))
  {
    SameLookup(m.tables, ref, id);
    assert AgentPlan(rb, w, m.tables, ref, None) == AgentPlan(rb, w, m.tables, id, None);
    assert AgentPlan(rb, w, m.tables, ref, Some(error)) == AgentPlan(rb, w, m.tables, id, Some(error));
    assert ResumePlan(m.tables, ref) == ResumePlan(m.tables, id);
  }

  lemma SameLookup(t: Tables, ref: string, id: string)
    requires t.Keyed() && Names(t, ref, id)
    ensures GetPipeline(t, ref) == GetPipeline(t, id) == Some(t.pipelines[id])
  {
    LookupIsExact(t, ref, id);
    LookupIsExact(t, id, id);
  }

  /** A reference that names no pipeline changes nothing and is reported. */
  lemma UnknownIsRefused(rb: Runbook, w: World, m: Machine, ref: string, error: string)
    requires m.tables.Keyed() && forall id :: id in m.tables.pipelines ==> !Names(m.tables, ref, id)
    ensures Handle(rb, w, m, AgentDone(ref)) == Step(m, Err(PipelineNotFound(ref)))
    ensures Handle(rb, w, m, AgentError(ref, error)) == Step(m, Err(PipelineNotFound(ref)))
  {
    if GetPipeline(m.tables, ref).Some? {
      var id := GetPipeline(m.tables, ref).value.id;
      LookupIsExact(m.tables, ref, id);
      assert Names(m.tables, ref, id);
    }
  }

  // --------------------------------------------------------------- isolation

  /** The pipeline an operation is about. */
  function Subject(op: Operation): Option<string> {
    match op
    case PipelineCreate(id, _, _, _, _) => Some(id)
    case PipelineTransition(id, _) => Some(id)
    case PhaseStatusUpdate(id, _) => Some(id)
    case PipelineDelete(id) => Some(id)
    case WorkspaceCreate(id, _, _) => Some(id)
    case SessionCreate(_, _) => None
    case SessionDelete(_) => None
    case WorkspaceDelete(_) => None
  }

  ghost predicate SameIdentity(p: Pipeline, q: Pipeline) {
    p.id == q.id && p.kind == q.kind && p.name == q.name && p.inputs == q.inputs
  }

  /** Only `target` differs or is new; who a pipeline is does not change. */
  ghost predicate OnlyChanges(before: Tables, after: Tables, target: string) {
    && after.pipelines.Keys <= before.pipelines.Keys + {target}
    && forall id :: id in before.pipelines ==>
         && id in after.pipelines
         && (id != target ==> after.pipelines[id] == before.pipelines[id])
         && SameIdentity(before.pipelines[id], after.pipelines[id])
  }

  /** An operation that is about `target` or about no pipeline, and deletes none. */
  predicate Home(op: Operation, target: string) {
    (Subject(op).None? || Subject(op).value == target) && !op.PipelineDelete?
  }

  lemma OpStaysHome(t: Tables, op: Operation, target: string)
    requires Home(op, target) && (op.PipelineCreate? ==> target !in t.pipelines)
    ensures OnlyChanges(t, ApplyOp(t, op), target)
    ensures !op.PipelineCreate? ==> ApplyOp(t, op).pipelines.Keys == t.pipelines.Keys
  {
  }

  lemma ChangesAddUp(t: Tables, u: Tables, v: Tables, target: string)
    requires OnlyChanges(t, u, target) && OnlyChanges(u, v, target)
    ensures OnlyChanges(t, v, target)
  {
  }

  /** Operations about `target` leave every other pipeline alone; a pipeline is only created under an
      id that is not taken. */
  lemma {:induction false} OpsStayHome(t: Tables, ops: seq<Operation>, target: string)
    requires forall op :: op in ops ==> Home(op, target)
    requires target in t.pipelines ==> forall op :: op in ops ==> !op.PipelineCreate?
    ensures OnlyChanges(t, ApplyAll(t, ops), target)
    decreases |ops|
  {
    if ops != [] {
      assert ops[0] in ops;
      var u := ApplyOp(t, ops[0]);
      OpStaysHome(t, ops[0], target);
      if ops[0].PipelineCreate? {
        OthersStay(u, ops[1..], target);
      } else {
        OpsStayHome(u, ops[1..], target);
        ChangesAddUp(t, u, ApplyAll(u, ops[1..]), target);
      }
    }
  }

  lemma {:induction false} OthersStay(t: Tables, ops: seq<Operation>, target: string)
    requires forall op :: op in ops ==> Home(op, target)
    ensures forall id :: id in t.pipelines && id != target ==>
      id in ApplyAll(t, ops).pipelines && ApplyAll(t, ops).pipelines[id] == t.pipelines[id]
    ensures ApplyAll(t, ops).pipelines.Keys <= t.pipelines.Keys + {target}
    decreases |ops|
  {
    if ops != [] {
      assert ops[0] in ops;
      OtherStays(t, ops[0], target);
      OthersStay(ApplyOp(t, ops[0]), ops[1..], target);
    }
  }

  lemma OtherStays(t: Tables, op: Operation, target: string)
    requires Home(op, target)
    ensures forall id :: id in t.pipelines && id != target ==>
      id in ApplyOp(t, op).pipelines && ApplyOp(t, op).pipelines[id] == t.pipelines[id]
    ensures ApplyOp(t, op).pipelines.Keys <= t.pipelines.Keys + {target}
  {
  }

  lemma StartStaysHome(rb: Runbook, p: Pipeline, phase: string)
    ensures forall op :: op in StartOps(rb, p, phase) ==> Home(op, p.id) && !op.PipelineCreate?
  {
  }

  lemma CompleteStaysHome(p: Pipeline)
    ensures forall op :: op in CompleteOps(p) ==> Home(op, p.id) && !op.PipelineCreate?
  {
  }

  lemma AdvanceStaysHome(rb: Runbook, p: Pipeline)
    ensures forall op :: op in AdvanceOps(rb, p) ==> Home(op, p.id) && !op.PipelineCreate?
  {
    CompleteStaysHome(p);
    if NextPhaseName(rb, p).Some? {
      StartStaysHome(rb, p, NextPhaseName(rb, p).value);
    }
  }

  lemma ShapeStaysHome(rb: Runbook, s: Shape)
    ensures forall op :: op in ShapeOps(rb, s) ==> Home(op, ShapeTarget(s)) && (op.PipelineCreate? ==> s.Creates?)
  {
    match s
    case Nothing =>
    case Advances(p) => AdvanceStaysHome(rb, p);
    case Fails(p) =>
      if OnFail(rb, p).Some? {
        StartStaysHome(rb, p, OnFail(rb, p).value);
      }
    case Spawns(p) =>
    case Marks(p, status) =>
    case Exits(p) =>
    case Creates(id, kind, name, args, initial, path) =>
      StartStaysHome(rb, NewPipeline(id, name, kind, args, initial), initial);
  }

  lemma FirstOpsStayHome(rb: Runbook, t: Tables, s: Shape, n: nat)
    requires n <= |ShapeOps(rb, s)| && (s.Creates? ==> ShapeTarget(s) !in t.pipelines)
    ensures OnlyChanges(t, ApplyAll(t, ShapeOps(rb, s)[..n]), ShapeTarget(s))
  {
    ShapeStaysHome(rb, s);
    assert forall op :: op in ShapeOps(rb, s)[..n] ==> op in ShapeOps(rb, s);
    OpsStayHome(t, ShapeOps(rb, s)[..n], ShapeTarget(s));
  }

  /** Main result: in every reachable state, whatever happens, only the addressed pipeline
      changes, no pipeline disappears, and none changes its id, kind, name or inputs. */
  lemma InputIsIsolated(rb: Runbook, w: World, m: Machine, i: Input)
    requires FreshIds(w) && Invariant(w, m)
    ensures OnlyChanges(m.tables, Next(rb, w, m, i).tables, Target(w, m, i))
  {
    InvariantIsSound(w, m);
    NextTables(rb, w, m, i);
    var s, k := WritesAPrefix(rb, w, m, i);
    FirstOpsStayHome(rb, m.tables, s, k);
  }
}
