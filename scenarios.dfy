/** Whole sessions driven through the endpoints, the worker steps and the
    search tool in the order the backend runs them, proved from the
    operations' contracts alone. */
module Scenarios {
  import opened Text
  import opened Sessions
  import opened Search
  import opened CoScientist
  import opened Api

  /** A poll that arrives after the start request but before the worker's
      first step finds no session, since starting sets no status. */
  method PollBeforeWorker(reg: Registry, req: StartRequest, now: nat) returns (poll: Response)
    requires reg.Valid() && CheckStart(req).None? && SessionId(now) !in reg.processes
    modifies reg`logs
    ensures poll == Response(404, Failure("Session not found"))
  {
    var started, job := StartResearch(reg, req, now);
    poll := ResearchStatus(reg, job.value.sessionId);
  }

  /** A query padded with one space on each side has the query's key. */
  lemma PaddedQuerySharesKey(query: string)
    ensures CacheKey(" " + query + " ") == CacheKey(query)
  {
    CacheKeyIgnoresCaseAndSpace(" ", query, " ", "", query, "");
    assert "" + query + "" == query;
  }

  /** Two queries with one cache key, on a tool with an empty cache: the
      second call is served from the cache, and each call adds its search
      entry to the session's log. */
  method SearchTwice(tool: SearchTool, query: string, again: string, now: nat, arxiv: ArxivOutcome, web: WebOutcome)
    returns (first: Reply, second: Reply)
    requires tool.Valid() && tool.cache == map[] && tool.queryCount == 0
    requires tool.sessionId in tool.registry.logs
    requires CacheKey(again) == CacheKey(query)
    modifies tool, tool.registry`logs
    ensures tool.sessionId == old(tool.sessionId)
    ensures second == first && first == Found(Collect(tool.apiKeys, arxiv, web))
    ensures tool.registry.logs == old(tool.registry.logs)[tool.sessionId :=
      old(tool.registry.logs[tool.sessionId]) + [SearchEntry(now, query), SearchEntry(now, again)]]
  {
    ghost var logs := tool.registry.logs;
    ghost var start := tool.State();
    first := tool.Func(query, now, arxiv, web);
    AnswerRepeats(tool.apiKeys, start, query, again, now, now, arxiv, web, arxiv, web);
    second := tool.Func(again, now, arxiv, web);
    AppendTwice(logs, tool.sessionId, SearchEntry(now, query), SearchEntry(now, again));
  }

  /** A query and then the same query padded with one space on each side:
      the padded one is answered from the cache. */
  method SearchPadded(tool: SearchTool, query: string, now: nat, arxiv: ArxivOutcome, web: WebOutcome)
    returns (first: Reply, second: Reply)
    requires tool.Valid() && tool.cache == map[] && tool.queryCount == 0
    requires tool.sessionId in tool.registry.logs
    modifies tool, tool.registry`logs
    ensures tool.sessionId == old(tool.sessionId)
    ensures second == first && first == Found(Collect(tool.apiKeys, arxiv, web))
    ensures tool.registry.logs == old(tool.registry.logs)[tool.sessionId :=
      old(tool.registry.logs[tool.sessionId]) + [SearchEntry(now, query), SearchEntry(now, " " + query + " ")]]
  {
    PaddedQuerySharesKey(query);
    first, second := SearchTwice(tool, query, " " + query + " ", now, arxiv, web);
  }

  /** A valid start request in a fresh process, followed by the worker's
      first step: the new session is the only one, it is running, has no
      result, and its log holds the supervisor's start entry. */
  method StartSession(req: StartRequest, now: nat) returns (reg: Registry, scientist: Scientist)
    requires CheckStart(req).None?
    ensures fresh(reg) && reg.Valid()
    ensures scientist.registry == reg && scientist.sessionId == SessionId(now)
    ensures reg.processes == map[SessionId(now) := Running] && reg.results == map[]
    ensures reg.logs == map[SessionId(now) :=
      [LogEntry(now, "Supervisor", "Process Started", "Goal: " + req.researchGoal.value)]]
    ensures fresh(scientist.tool) && scientist.tool.Valid()
    ensures scientist.tool.registry == reg && scientist.tool.sessionId == SessionId(now)
    ensures scientist.tool.cache == map[] && scientist.tool.queryCount == 0
  {
    reg := new Registry();
    var started, job := StartResearch(reg, req, now);
    scientist := ResearchWorkerBegin(reg, job.value, now);
  }

  /** One session in a fresh process: start, worker start, one search and
      the same search padded with spaces, then the crew's outcome. While the
      worker runs, the poll shows "running" and no result; the padded
      query is served from the cache; at the end the status is terminal,
      the result is shown only on success, and the log holds the four
      entries in order. */
  method OneSession(req: StartRequest, now: nat, query: string, arxiv: ArxivOutcome, web: WebOutcome,
                    kickoff: KickoffOutcome)
    returns (running: Response, first: Reply, second: Reply, final: Response)
    requires CheckStart(req).None?
    ensures running.code == 200 && running.body.Snapshot?
    ensures running.body.processStatus == Running && running.body.result == None
    ensures second == first
    ensures final.code == 200 && final.body.Snapshot?
    ensures final.body.processStatus == (if kickoff.Kicked? then Completed else Error)
    ensures final.body.result == (if kickoff.Kicked? then Some(Output(kickoff.value)) else None)
    ensures |final.body.logs| == 4
    ensures final.body.logs[0].action == "Process Started"
    ensures final.body.logs[1] == SearchEntry(now, query)
    ensures final.body.logs[2] == SearchEntry(now, " " + query + " ")
    ensures final.body.logs[3].action == (if kickoff.Kicked? then "Process Completed" else "Process Error")
  {
    var reg, scientist := StartSession(req, now);
    var sid := SessionId(now);
    ghost var entry0 := LogEntry(now, "Supervisor", "Process Started", "Goal: " + req.researchGoal.value);
    running := ResearchStatus(reg, sid);

    first, second := SearchPadded(scientist.tool, query, now, arxiv, web);
    assert reg.logs[sid] == [entry0, SearchEntry(now, query), SearchEntry(now, " " + query + " ")];

    ResearchWorkerEnd(scientist, kickoff, now);
    final := ResearchStatus(reg, sid);
  }

  /** A valid start, the worker's first step and a crew run that returns
      `value`, all in the same second: the session is completed with the
      output stored, and its log holds the start and completion entries. */
  method CompletedSession(req: StartRequest, now: nat, value: string) returns (reg: Registry)
    requires CheckStart(req).None?
    ensures fresh(reg) && reg.Valid()
    ensures reg.processes == map[SessionId(now) := Completed]
    ensures reg.results == map[SessionId(now) := Output(value)]
    ensures reg.logs == map[SessionId(now) :=
      [LogEntry(now, "Supervisor", "Process Started", "Goal: " + req.researchGoal.value),
       LogEntry(now, "Supervisor", "Process Completed", "Research results generated")]]
  {
    var scientist;
    reg, scientist := StartSession(req, now);
    ghost var started := LogEntry(now, "Supervisor", "Process Started", "Goal: " + req.researchGoal.value);
    ghost var completed := LogEntry(now, "Supervisor", "Process Completed", "Research results generated");
    ResearchWorkerEnd(scientist, Kicked(value), now);
    assert [started] + [completed] == [started, completed];
  }

  /** A session that completed, then a second start request in the same
      second. Both get the same identifier, so the second start empties the
      first session's log, and its worker step sets the status back to
      "running". A poll then shows "running", only the new supervisor entry
      and no result, though the first run's output is still stored. */
  method SameSecondRestart(req1: StartRequest, req2: StartRequest, now: nat, value: string)
    returns (before: Response, after: Response)
    requires CheckStart(req1).None? && CheckStart(req2).None?
    ensures before == Response(200, Snapshot(Completed,
      [LogEntry(now, "Supervisor", "Process Started", "Goal: " + req1.researchGoal.value),
       LogEntry(now, "Supervisor", "Process Completed", "Research results generated")],
      Some(Output(value))))
    ensures after == Response(200, Snapshot(Running,
      [LogEntry(now, "Supervisor", "Process Started", "Goal: " + req2.researchGoal.value)],
      None))
  {
    var reg := CompletedSession(req1, now, value);
    var sid := SessionId(now);
    before := ResearchStatus(reg, sid);

    var started, job := StartResearch(reg, req2, now);
    var again := ResearchWorkerBegin(reg, job.value, now);
    assert reg.results[sid] == Output(value);
    after := ResearchStatus(reg, sid);
  }
}
