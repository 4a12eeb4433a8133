/** The data of the `oj_core` crate: pipelines, operations, events and effects.
    `Instant` fields are erased; JSON event payloads keep their string members. */
module Core {
  import opened Wrappers

  datatype PhaseStatus = Pending | Running | Waiting | Completed | Failed

  /** A pipeline instance. */
  datatype Pipeline = Pipeline(
    id: string,
    name: string,
    kind: string,
    phase: string,
    status: PhaseStatus,
    inputs: map<string, string>,
    workspacePath: Option<string>,
    sessionId: Option<string>,
    error: Option<string>)
  {
    predicate Terminal() { IsTerminal(phase) }
  }

  predicate IsTerminal(phase: string) { phase == "done" || phase == "failed" }

  function NewPipeline(id: string, name: string, kind: string, inputs: map<string, string>,
                       initialPhase: string): Pipeline {
    Pipeline(id, name, kind, initialPhase, Pending, inputs, None, None, None)
  }

  /** What the write-ahead log records. */
  datatype Operation =
    | PipelineCreate(id: string, kind: string, name: string, inputs: map<string, string>, initialPhase: string)
    | PipelineTransition(id: string, phase: string)
    | PhaseStatusUpdate(id: string, status: PhaseStatus)
    | PipelineDelete(id: string)
    | SessionCreate(id: string, pipelineId: string)
    | SessionDelete(id: string)
    | WorkspaceCreate(id: string, path: string, branch: string)
    | WorkspaceDelete(id: string)

  datatype Event =
    | CommandInvoked(command: string, args: map<string, string>)
    | WorkerWake(worker: string)
    | SessionStarted(sessionId: string)
    | SessionOutput(sessionId: string, output: string)
    | SessionExited(sessionId: string, exitCode: int)
    | Timer(id: string)
    | AgentDone(pipelineId: string)
    | AgentError(pipelineId: string, error: string)
    | ShellCompleted(pipelineId: string, phase: string, exitCode: int)
    | Custom(name: string, data: map<string, string>)

  /** `Prepare` is not an effect of the source: it stands for the file I/O that
      `build_spawn_effects` does before it returns (reading the prompt file and
      preparing the workspace), a step that may fail. */
  datatype Effect =
    | Emit(event: Event)
    | Prepare(agent: string, workspace: string)
    | Spawn(workspaceId: string, command: string, cwdOverride: Option<string>)
    | Send(sessionId: string, input: string)
    | Kill(sessionId: string)
    | WorktreeAdd(branch: string, path: string)
    | WorktreeRemove(path: string)
    | SetTimer(id: string, duration: nat)
    | CancelTimer(id: string)
    | Persist(operation: Operation)
    | Shell(pipelineId: string, phase: string, command: string, cwd: string)
    | Notify(title: string, message: string)

  /** `RuntimeError` with `ExecuteError` flattened into it. */
  datatype Error =
    | SessionFailed
    | RepoFailed
    | NotifyFailed
    | StorageFailed
    | ShellFailed
    | WorkspaceNotFound(workspace: string)
    | PromptError(agent: string)
    | PipelineNotFound(what: string)
    | CommandNotFound(command: string)
    | PipelineDefNotFound(kind: string)
    | AgentNotFound(agent: string)
    | InvalidRunDirective(context: string)
  {
    /** Caused by the outside world, not by a definition that does not fit. */
    predicate FromOutside() {
      SessionFailed? || RepoFailed? || NotifyFailed? || StorageFailed? || ShellFailed? || PromptError?
    }
  }

  type Outcome = Result<seq<Event>, Error>

  /** The next call's results, whatever they are: `f(..)?` followed by `extend`. */
  function Extend(events: seq<Event>, rest: Outcome): Outcome {
    match rest
    case Ok(more) => Ok(events + more)
    case Err(e) => Err(e)
  }

  /** `Path::join` on text: an absolute right side replaces the left one. */
  function Join(root: string, name: string): string {
    if IsAbsolute(name) || root == "" then name
    else if root[|root| - 1] == '/' then root + name
    else root + "/" + name
  }

  /** A relative name is put behind the root, with one slash between them that the root may bring along; an
      absolute one stands for itself. */
  lemma JoinIs(root: string, name: string)
    ensures name != "" && name[0] == '/' ==> Join(root, name) == name
    ensures name == "" || name[0] != '/' ==>
              var path := Join(root, name);
              && |path| >= |name| && path[|path| - |name|..] == name
              && (root == "" ==> path == name)
              && (root != "" && root[|root| - 1] == '/' ==> path[..|path| - |name|] == root)
              && (root != "" && root[|root| - 1] != '/' ==> path[..|path| - |name|] == root + "/")
  {
  }

  predicate IsAbsolute(path: string) { path != "" && path[0] == '/' }

  function Digits(n: nat): string {
    if n < 10 then [('0' as int + n) as char] else Digits(n / 10) + [('0' as int + n % 10) as char]
  }

  function Decimal(n: int): string {
    if n < 0 then "-" + Digits(-n) else Digits(n)
  }
}
