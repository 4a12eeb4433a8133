/** Materialized state (`state.rs`): what the log's operations add up to. */
module State {
  import opened Wrappers
  import opened Core

  datatype Session = Session(id: string, pipelineId: string)
  datatype Workspace = Workspace(id: string, path: string, branch: string)

  datatype Tables = Tables(
    pipelines: map<string, Pipeline>,
    sessions: map<string, Session>,
    workspaces: map<string, Workspace>)
  {
    /** Every pipeline is stored under its own id. */
    ghost predicate Keyed() {
      forall id :: id in pipelines ==> pipelines[id].id == id
    }
  }

  const EMPTY := Tables(map[], map[], map[])

  /** The effect of one operation on the tables. */
  function ApplyOp(t: Tables, op: Operation): Tables {
    match op
    case PipelineCreate(id, kind, name, inputs, initialPhase) =>
      t.(pipelines := t.pipelines[id := NewPipeline(id, name, kind, inputs, initialPhase)])
    case PipelineTransition(id, phase) =>
      if id in t.pipelines then
        t.(pipelines := t.pipelines[id := t.pipelines[id].(phase := phase, status := Pending)])
      else t
    case PhaseStatusUpdate(id, status) =>
      if id in t.pipelines then t.(pipelines := t.pipelines[id := t.pipelines[id].(status := status)]) else t
    case PipelineDelete(id) => t.(pipelines := t.pipelines - {id})
    case SessionCreate(id, pipelineId) => t.(sessions := t.sessions[id := Session(id, pipelineId)])
    case SessionDelete(id) => t.(sessions := t.sessions - {id})
    case WorkspaceCreate(id, path, branch) =>
      var u := t.(workspaces := t.workspaces[id := Workspace(id, path, branch)]);
      if id in u.pipelines then
        u.(pipelines := u.pipelines[id := u.pipelines[id].(workspacePath := Some(path))])
      else u
    case WorkspaceDelete(id) => t.(workspaces := t.workspaces - {id})
  }

  /** Replay: the fold of `ApplyOp`, oldest operation first. */
  function ApplyAll(t: Tables, ops: seq<Operation>): Tables
    decreases |ops|
  {
    if ops == [] then t else ApplyAll(ApplyOp(t, ops[0]), ops[1..])
  }

  function Replay(log: seq<Operation>): Tables { ApplyAll(EMPTY, log) }

  lemma {:induction false} ApplyAllAppend(t: Tables, a: seq<Operation>, b: seq<Operation>)
    ensures ApplyAll(t, a + b) == ApplyAll(ApplyAll(t, a), b)
    decreases |a|
  {
    if a == [] {
      assert a + b == b;
    } else {
      assert (a + b)[1..] == a[1..] + b;
      ApplyAllAppend(ApplyOp(t, a[0]), a[1..], b);
    }
  }

  lemma {:induction false} ApplyAllKeyed(t: Tables, ops: seq<Operation>)
    requires t.Keyed()
    ensures ApplyAll(t, ops).Keyed()
    decreases |ops|
  {
    if ops != [] {
      ApplyAllKeyed(ApplyOp(t, ops[0]), ops[1..]);
    }
  }

  predicate StartsWith(s: string, prefix: string) { |prefix| <= |s| && s[..|prefix|] == prefix }

  predicate EndsWith(s: string, suffix: string) { |suffix| <= |s| && s[|s| - |suffix|..] == suffix }

  function Matches(t: Tables, id: string): set<string> { set k | k in t.pipelines && StartsWith(k, id) }

  /** Exact id first; otherwise the one pipeline whose id starts with `id`. */
  function GetPipeline(t: Tables, id: string): Option<Pipeline> {
    if id in t.pipelines then Some(t.pipelines[id])
    else
      var matches := Matches(t, id);
      if |matches| == 1 then
        SingletonIsUnique(matches);
        var k :| k in matches;
        Some(t.pipelines[k])
      else None
  }

  lemma SingletonIsUnique(s: set<string>)
    requires |s| == 1
    ensures exists k :: k in s
    ensures forall j, k :: j in s && k in s ==> j == k
  {
    var k :| k in s;
    forall j | j in s
      ensures j == k
    {
      assert |s - {k}| == 0;
    }
  }

  /** A full id or a unique prefix of it finds the pipeline stored under that id, and nothing else does. */
  lemma LookupIsExact(t: Tables, ref: string, id: string)
    requires t.Keyed()
    ensures id in t.pipelines && GetPipeline(t, ref) == Some(t.pipelines[id])
       <==> id in t.pipelines
            && (ref == id
                || (ref !in t.pipelines && StartsWith(id, ref)
                    && forall k :: k in t.pipelines && StartsWith(k, ref) ==> k == id))
  {
    var matches := Matches(t, ref);
    if ref !in t.pipelines && |matches| == 1 {
      SingletonIsUnique(matches);
      var k :| k in matches;
      assert GetPipeline(t, ref) == Some(t.pipelines[k]);
      assert forall j :: j in t.pipelines && StartsWith(j, ref) ==> j in matches;
    } else if id in t.pipelines && StartsWith(id, ref)
      && forall k :: k in t.pipelines && StartsWith(k, ref) ==> k == id
    {
      assert matches == {id};
    }
  }

  /** What an operation makes of the pipeline under an id: it begins Pending and unlinked, a move makes it
      Pending again, a mark changes its status and a workspace of its id its path, and nothing else changes it. */
  lemma PipelineAfter(t: Tables, op: Operation, id: string)
    ensures var u := ApplyOp(t, op);
            var was := if id in t.pipelines then Some(t.pipelines[id]) else None;
            var now := if id in u.pipelines then Some(u.pipelines[id]) else None;
            match op
            case PipelineCreate(i, kind, name, inputs, phase) =>
              now == if i == id then Some(Pipeline(id, name, kind, phase, Pending, inputs, None, None, None)) else was
            case PipelineTransition(i, phase) =>
              now == if i == id && was.Some? then Some(was.value.(phase := phase, status := Pending)) else was
            case PhaseStatusUpdate(i, status) =>
              now == if i == id && was.Some? then Some(was.value.(status := status)) else was
            case PipelineDelete(i) => now == if i == id then None else was
            case WorkspaceCreate(i, path, _) =>
              now == if i == id && was.Some? then Some(was.value.(workspacePath := Some(path))) else was
            case _ => now == was
  {
  }

  /** Sessions and workspaces are what was created under their ids last and not deleted since. */
  lemma RecordsAfter(t: Tables, op: Operation)
    ensures var u := ApplyOp(t, op);
            && (match op
                case SessionCreate(id, pipeline) => u.sessions == t.sessions[id := Session(id, pipeline)]
                case SessionDelete(id) => u.sessions == t.sessions - {id}
                case _ => u.sessions == t.sessions)
            && (match op
                case WorkspaceCreate(id, path, branch) =>
                  u.workspaces == t.workspaces[id := Workspace(id, path, branch)]
                case WorkspaceDelete(id) => u.workspaces == t.workspaces - {id}
                case _ => u.workspaces == t.workspaces)
  {
  }

  // ------------------------------------------------------- the last word of a log

  /** What an operation has to say about one field of a record: nothing, that there is no record, what it is from
      the start, or what it is from now on if there is a record. */
  datatype Word<T> = Silent | Ends | Begins(value: T) | Changes(value: T)

  /** What a log says last. */
  function LastWord<T>(word: Operation -> Word<T>, log: seq<Operation>): Option<T> {
    if log == [] then None
    else
      var before := LastWord(word, log[..|log| - 1]);
      match word(log[|log| - 1])
      case Silent => before
      case Ends => None
      case Begins(value) => Some(value)
      case Changes(value) => if before.None? then None else Some(value)
  }

  function PhaseWord(op: Operation, id: string): Word<string> {
    match op
    case PipelineCreate(i, _, _, _, phase) => if i == id then Begins(phase) else Silent
    case PipelineTransition(i, phase) => if i == id then Changes(phase) else Silent
    case PipelineDelete(i) => if i == id then Ends else Silent
    case _ => Silent
  }

  function StatusWord(op: Operation, id: string): Word<PhaseStatus> {
    match op
    case PipelineCreate(i, _, _, _, _) => if i == id then Begins(Pending) else Silent
    case PipelineTransition(i, _) => if i == id then Changes(Pending) else Silent
    case PhaseStatusUpdate(i, status) => if i == id then Changes(status) else Silent
    case PipelineDelete(i) => if i == id then Ends else Silent
    case _ => Silent
  }

  function PathWord(op: Operation, id: string): Word<Option<string>> {
    match op
    case PipelineCreate(i, _, _, _, _) => if i == id then Begins(None) else Silent
    case WorkspaceCreate(i, path, _) => if i == id then Changes(Some(path)) else Silent
    case PipelineDelete(i) => if i == id then Ends else Silent
    case _ => Silent
  }

  /** Who a pipeline is, by its creation alone. */
  function OriginWord(op: Operation, id: string): Word<(string, string, map<string, string>)> {
    match op
    case PipelineCreate(i, kind, name, inputs, _) => if i == id then Begins((kind, name, inputs)) else Silent
    case PipelineDelete(i) => if i == id then Ends else Silent
    case _ => Silent
  }

  function SessionWord(op: Operation, id: string): Word<Session> {
    match op
    case SessionCreate(i, owner) => if i == id then Begins(Session(i, owner)) else Silent
    case SessionDelete(i) => if i == id then Ends else Silent
    case _ => Silent
  }

  function WorkspaceWord(op: Operation, id: string): Word<Workspace> {
    match op
    case WorkspaceCreate(i, path, branch) => if i == id then Begins(Workspace(i, path, branch)) else Silent
    case WorkspaceDelete(i) => if i == id then Ends else Silent
    case _ => Silent
  }

  /** Field by field, the record under an id is what the log said last about it. */
  ghost predicate Recorded(t: Tables, log: seq<Operation>, id: string) {
    && (if id in t.pipelines then
          var p := t.pipelines[id];
          && LastWord((op: Operation) => PhaseWord(op, id), log) == Some(p.phase)
          && LastWord((op: Operation) => StatusWord(op, id), log) == Some(p.status)
          && LastWord((op: Operation) => PathWord(op, id), log) == Some(p.workspacePath)
          && LastWord((op: Operation) => OriginWord(op, id), log) == Some((p.kind, p.name, p.inputs))
          && p.id == id && p.sessionId.None? && p.error.None?
        else
          && LastWord((op: Operation) => PhaseWord(op, id), log) == None
          && LastWord((op: Operation) => StatusWord(op, id), log) == None
          && LastWord((op: Operation) => PathWord(op, id), log) == None
          && LastWord((op: Operation) => OriginWord(op, id), log) == None)
    && LastWord((op: Operation) => SessionWord(op, id), log)
         == (if id in t.sessions then Some(t.sessions[id]) else None)
    && LastWord((op: Operation) => WorkspaceWord(op, id), log)
         == (if id in t.workspaces then Some(t.workspaces[id]) else None)
  }

  lemma OneMoreWord<T>(word: Operation -> Word<T>, log: seq<Operation>, op: Operation)
    ensures LastWord(word, log + [op])
         == match word(op)
            case Silent => LastWord(word, log)
            case Ends => None
            case Begins(value) => Some(value)
            case Changes(value) => if LastWord(word, log).None? then None else Some(value)
  {
    assert (log + [op])[..|log|] == log;
  }

  lemma PipelineRecorded(t: Tables, log: seq<Operation>, op: Operation, id: string)
    requires Recorded(t, log, id)
    ensures Recorded(ApplyOp(t, op), log + [op], id)
  {
    OneMoreWord((o: Operation) => PhaseWord(o, id), log, op);
    OneMoreWord((o: Operation) => StatusWord(o, id), log, op);
    OneMoreWord((o: Operation) => PathWord(o, id), log, op);
    OneMoreWord((o: Operation) => OriginWord(o, id), log, op);
    OneMoreWord((o: Operation) => SessionWord(o, id), log, op);
    OneMoreWord((o: Operation) => WorkspaceWord(o, id), log, op);
    PipelineAfter(t, op, id);
    RecordsAfter(t, op);
  }

  /** Main result: what any log replays to is, record by record and field by field, what it said last. */
  lemma {:induction false} ReplayIsTheLastWord(log: seq<Operation>, id: string)
    ensures Recorded(Replay(log), log, id)
    decreases |log|
  {
    if log != [] {
      var front, op := log[..|log| - 1], log[|log| - 1];
      ReplayIsTheLastWord(front, id);
      assert log == front + [op];
      ApplyAllAppend(EMPTY, front, [op]);
      assert ApplyAll(Replay(front), [op]) == ApplyAll(ApplyOp(Replay(front), op), []);
      PipelineRecorded(Replay(front), front, op, id);
    }
  }

  /** What is created and deleted again was never there. */
  lemma DeletionUndoesCreation(t: Tables, id: string, kind: string, name: string, inputs: map<string, string>,
                               phase: string, owner: string, path: string, branch: string)
    ensures id !in t.pipelines ==>
              ApplyAll(t, [PipelineCreate(id, kind, name, inputs, phase), PipelineDelete(id)]) == t
    ensures id !in t.sessions ==> ApplyAll(t, [SessionCreate(id, owner), SessionDelete(id)]) == t
    ensures id !in t.workspaces && id !in t.pipelines ==>
              ApplyAll(t, [WorkspaceCreate(id, path, branch), WorkspaceDelete(id)]) == t
  {
    TwoOps(t, PipelineCreate(id, kind, name, inputs, phase), PipelineDelete(id));
    TwoOps(t, SessionCreate(id, owner), SessionDelete(id));
    TwoOps(t, WorkspaceCreate(id, path, branch), WorkspaceDelete(id));
  }

  lemma TwoOps(t: Tables, a: Operation, b: Operation)
    ensures ApplyAll(t, [a, b]) == ApplyOp(ApplyOp(t, a), b)
  {
    assert [a, b][1..] == [b] && [b][1..] == [];
    assert ApplyAll(ApplyOp(t, a), [b]) == ApplyAll(ApplyOp(ApplyOp(t, a), b), []);
  }

  /** The shared state object. */
  class MaterializedState {
    var pipelines: map<string, Pipeline>
    var sessions: map<string, Session>
    var workspaces: map<string, Workspace>

    function View(): Tables
      reads this
    {
      Tables(pipelines, sessions, workspaces)
    }

    constructor ()
      ensures View() == EMPTY
    {
      pipelines, sessions, workspaces := map[], map[], map[];
    }

    method Apply(op: Operation)
      modifies this
      ensures View() == ApplyOp(old(View()), op)
    {
      match op {
        case PipelineCreate(id, kind, name, inputs, initialPhase) =>
          var pipeline := NewPipeline(id, name, kind, inputs, initialPhase);
          pipelines := pipelines[id := pipeline];
        case PipelineTransition(id, phase) =>
          if id in pipelines {
            pipelines := pipelines[id := pipelines[id].(phase := phase, status := Pending)];
          }
        case PhaseStatusUpdate(id, status) =>
          if id in pipelines {
            pipelines := pipelines[id := pipelines[id].(status := status)];
          }
        case PipelineDelete(id) =>
          pipelines := pipelines - {id};
        case SessionCreate(id, pipelineId) =>
          sessions := sessions[id := Session(id, pipelineId)];
        case SessionDelete(id) =>
          sessions := sessions - {id};
        case WorkspaceCreate(id, path, branch) =>
          workspaces := workspaces[id := Workspace(id, path, branch)];
          if id in pipelines {
            pipelines := pipelines[id := pipelines[id].(workspacePath := Some(path))];
          }
        case WorkspaceDelete(id) =>
          workspaces := workspaces - {id};
      }
    }
  }
}
