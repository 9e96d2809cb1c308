/** `EnhancedAICoScientist`: the per-session object that owns a search tool,
    resets the session log when it is built and writes the supervisor's
    entries into it. The crew itself (agents, tasks, `kickoff`) is an
    oracle: the model receives what the crew run returned or raised. */
module CoScientist {
  import opened Sessions
  import opened Search

  /** What `crew.kickoff()` did: returned a result, or raised with a message. */
  datatype KickoffOutcome = Kicked(value: string) | KickoffRaised(message: string)

  /** What `run_research_process` does in turn: return the crew's result,
      or raise an exception carrying a message. */
  datatype RunOutcome = Returned(value: string) | Raised(message: string)

  /** The prefix `run_research_process` and `research_worker` both put in
      front of an exception's text. */
  function ProcessError(message: string): (r: string)
    ensures |r| > |message| && r[|r| - |message|..] == message
  {
    "Error in research process: " + message
  }

  /** The key map the scientist hands to its search tool: the web-search key
      only when one was given and is not empty. */
  function ApiKeys(serpapiKey: Option<string>): (keys: map<string, string>)
    ensures keys.Keys <= {"serpapi"}
    ensures HasWebKey(keys) <==> serpapiKey.Some? && serpapiKey.value != ""
    ensures HasWebKey(keys) ==> keys["serpapi"] == serpapiKey.value
  {
    if serpapiKey.Some? && serpapiKey.value != "" then map["serpapi" := serpapiKey.value] else map[]
  }

  class Scientist {
    const sessionId: string
    const registry: Registry
    const tool: SearchTool

    /** `__init__`: builds the search tool for this session and replaces the
        session's log by an empty one, whatever it held. The completion key
        only goes into the process environment, which is not modelled. */
    constructor (sessionId: string, openaiApiKey: string, serpapiKey: Option<string>, registry: Registry)
      modifies registry`logs
      ensures this.sessionId == sessionId && this.registry == registry
      ensures fresh(tool) && tool.Valid()
      ensures tool.apiKeys == ApiKeys(serpapiKey) && tool.registry == registry && tool.sessionId == sessionId
      ensures tool.cache == map[] && tool.queryCount == 0 && tool.lastQueryTime == 0
      ensures registry.logs == old(registry.logs)[sessionId := []]
    {
      this.sessionId := sessionId;
      this.registry := registry;
      var searchTool := new SearchTool(ApiKeys(serpapiKey), registry);
      searchTool.sessionId := sessionId;
      tool := searchTool;
      new;
      registry.logs := registry.logs[sessionId := []];
    }

    /** `log_activity`: one entry at the end of this session's log, if the
        log exists; otherwise nothing. */
    method LogActivity(agent: string, action: string, result: string, now: nat)
      modifies registry`logs
      ensures registry.logs == AppendIfPresent(old(registry.logs), sessionId, LogEntry(now, agent, action, result))
    {
      registry.logs := AppendIfPresent(registry.logs, sessionId, LogEntry(now, agent, action, result));
    }

    /** The part of `run_research_process` before the crew runs. */
    method BeginResearch(goal: string, now: nat)
      modifies registry`logs
      ensures registry.logs ==
        AppendIfPresent(old(registry.logs), sessionId, LogEntry(now, "Supervisor", "Process Started", "Goal: " + goal))
    {
      LogActivity("Supervisor", "Process Started", "Goal: " + goal, now);
    }

    /** The part of `run_research_process` after the crew ran: log the
        outcome, then return the result or re-raise with the prefix. */
    method EndResearch(kickoff: KickoffOutcome, now: nat) returns (run: RunOutcome)
      modifies registry`logs
      ensures kickoff.Kicked? ==>
        && run == Returned(kickoff.value)
        && registry.logs == AppendIfPresent(old(registry.logs), sessionId,
             LogEntry(now, "Supervisor", "Process Completed", "Research results generated"))
      ensures kickoff.KickoffRaised? ==>
        && run == Raised(ProcessError(kickoff.message))
        && registry.logs == AppendIfPresent(old(registry.logs), sessionId,
             LogEntry(now, "Supervisor", "Process Error", ProcessError(kickoff.message)))
    {
      match kickoff
      case Kicked(value) =>
        LogActivity("Supervisor", "Process Completed", "Research results generated", now);
        run := Returned(value);
      case KickoffRaised(message) =>
        var errorMessage := ProcessError(message);
        LogActivity("Supervisor", "Process Error", errorMessage, now);
        run := Raised(errorMessage);
    }
  }
}
