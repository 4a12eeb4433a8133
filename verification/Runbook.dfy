/** Runbook definitions (`pipeline.rs`, `agent.rs`, `parser.rs`): immutable data and lookups. */
module Runbook {
  import opened Wrappers

  datatype RunDirective =
    | RunShell(command: string)
    | RunPipeline(pipeline: string)
    | RunAgent(agent: string)
    | RunStrategy(strategy: string)

  datatype PhaseDef = PhaseDef(name: string, run: RunDirective, next: Option<string>, onFail: Option<string>)

  datatype PipelineDef = PipelineDef(name: string, phases: seq<PhaseDef>) {
    /** `phases.iter().position(|p| p.name == current)`; the length when there is none. */
    function IndexOf(current: string): (i: nat)
      ensures i <= |phases|
      ensures i < |phases| ==> phases[i].name == current
      ensures forall j :: 0 <= j < i ==> phases[j].name != current
    {
      IndexFrom(current, 0)
    }

    function IndexFrom(current: string, from: nat): (i: nat)
      requires from <= |phases|
      ensures from <= i <= |phases|
      ensures i < |phases| ==> phases[i].name == current
      ensures forall j :: from <= j < i ==> phases[j].name != current
      decreases |phases| - from
    {
      if from == |phases| || phases[from].name == current then from else IndexFrom(current, from + 1)
    }

    predicate Has(name: string) { IndexOf(name) < |phases| }

    function GetPhase(name: string): Option<PhaseDef> {
      if Has(name) then Some(phases[IndexOf(name)]) else None
    }

    function FirstPhase(): Option<PhaseDef> {
      if phases == [] then None else Some(phases[0])
    }

    function NextPhase(current: string): Option<PhaseDef> {
      match GetPhase(current)
      case None => None
      case Some(phase) =>
        match phase.next
        case Some(next) => GetPhase(next)
        case None =>
          var i := IndexOf(current) + 1;
          if i < |phases| then Some(phases[i]) else None
    }
  }

  datatype AgentAction = Nudge | Done | Fail | Restart | Recover | Escalate

  datatype ActionConfig =
    | Simple(simple: AgentAction)
    | WithOptions(full: AgentAction, text: Option<string>, appends: bool)
  {
    function Action(): AgentAction { if Simple? then simple else full }

    function Message(): Option<string> { if Simple? then None else text }

    predicate Append() { WithOptions? && appends }
  }

  datatype ErrorType = Unauthorized | OutOfCredits | NoInternet | RateLimited

  datatype ErrorMatch = ErrorMatch(errorMatch: Option<ErrorType>, config: ActionConfig)

  datatype ErrorActionConfig = OneAction(config: ActionConfig) | ByType(matches: seq<ErrorMatch>) {
    function ActionFor(errorType: Option<ErrorType>): ActionConfig {
      if OneAction? then config else FirstMatch(matches, errorType)
    }
  }

  function FirstMatch(matches: seq<ErrorMatch>, errorType: Option<ErrorType>): ActionConfig {
    if matches == [] then Simple(Escalate)
    else if matches[0].errorMatch.None? || matches[0].errorMatch == errorType then matches[0].config
    else FirstMatch(matches[1..], errorType)
  }

  datatype AgentDef = AgentDef(
    name: string,
    run: string,
    cwd: Option<string>,
    onIdle: ActionConfig,
    onExit: ActionConfig,
    onError: ErrorActionConfig)

  datatype CommandRef = CommandRef(run: RunDirective)

  datatype Runbook = Runbook(
    commands: map<string, CommandRef>,
    pipelines: map<string, PipelineDef>,
    agents: map<string, AgentDef>)
}
