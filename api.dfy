/** The two endpoints and the background worker. Each endpoint is a method
    (or, for the read-only one, a function) returning a status code and a
    payload; the worker thread is two steps the caller runs in order, with
    the crew's run, and the searches it makes, in between. */
module Api {
  import opened Text
  import opened Sessions
  import opened Search
  import opened CoScientist

  /** The JSON body of a start request; an absent member is `None`. */
  datatype StartRequest = StartRequest(
    researchGoal: Option<string>,
    openaiApiKey: Option<string>,
    serpapiKey: Option<string>)

  /** `{"status": "error", "message": ...}`, the start acknowledgement, or
      the status snapshot (whose `result` is `null` when `None`). */
  datatype Body =
    | Failure(message: string)
    | Started(sessionId: string, message: string)
    | Snapshot(processStatus: ProcessStatus, logs: seq<LogEntry>, result: Option<Payload>)

  datatype Response = Response(code: nat, body: Body)

  /** The arguments `start_research` hands to the worker thread. */
  datatype Job = Job(sessionId: string, goal: string, openaiApiKey: string, serpapiKey: Option<string>)

  /** Python truthiness of an optional string member. */
  predicate Truthy(v: Option<string>) {
    v.Some? && v.value != ""
  }

  /** The input checks of `start_research`, goal first: the message of the
      first one that fails, or `None` when both pass. */
  function CheckStart(req: StartRequest): (error: Option<string>)
    ensures error.None? <==> Truthy(req.researchGoal) && Truthy(req.openaiApiKey)
    ensures !Truthy(req.researchGoal) ==> error == Some("Research goal is required")
    ensures Truthy(req.researchGoal) && !Truthy(req.openaiApiKey) ==> error == Some("OpenAI API key is required")
  {
    if !Truthy(req.researchGoal) then Some("Research goal is required")
    else if !Truthy(req.openaiApiKey) then Some("OpenAI API key is required")
    else None
  }

  /** `f"research_{int(time.time())}"` for the clock reading `now`. */
  function SessionId(now: nat): (sid: string)
    ensures |sid| > 9 && sid[..9] == "research_"
  {
    "research_" + Decimal(now)
  }

  /** Two sessions get the same identifier exactly when they start in the
      same second. */
  lemma SessionIdCollision(a: nat, b: nat)
    ensures SessionId(a) == SessionId(b) <==> a == b
  {
    if SessionId(a) == SessionId(b) {
      assert SessionId(a)[9..] == Decimal(a);
      assert SessionId(b)[9..] == Decimal(b);
      DecimalInjective(a, b);
    }
  }

  /** `POST /api/start_research`: a rejected request touches nothing; an
      accepted one creates an empty log under the new identifier, replacing
      any log a session started in the same second had, and sets no status. */
  method StartResearch(reg: Registry, req: StartRequest, now: nat) returns (resp: Response, job: Option<Job>)
    requires reg.Valid()
    modifies reg`logs
    ensures reg.Valid()
    ensures CheckStart(req).Some? ==>
      && resp == Response(400, Failure(CheckStart(req).value))
      && job == None
      && reg.logs == old(reg.logs)
    ensures CheckStart(req).None? ==>
      && resp == Response(200, Started(SessionId(now), "Research process started"))
      && job == Some(Job(SessionId(now), req.researchGoal.value, req.openaiApiKey.value, req.serpapiKey))
      && reg.logs == old(reg.logs)[SessionId(now) := []]
  {
    var error := CheckStart(req);
    if error.Some? {
      return Response(400, Failure(error.value)), None;
    }
    var sid := SessionId(now);
    reg.logs := reg.logs[sid := []];
    job := Some(Job(sid, req.researchGoal.value, req.openaiApiKey.value, req.serpapiKey));
    resp := Response(200, Started(sid, "Research process started"));
  }

  /** The start of `research_worker`: the status becomes "running", the
      scientist is built (which empties the log) and the supervisor logs
      the start. The returned scientist's search tool is the one the crew
      uses while it runs. */
  method ResearchWorkerBegin(reg: Registry, job: Job, now: nat) returns (scientist: Scientist)
    requires reg.Valid()
    modifies reg
    ensures reg.Valid()
    ensures reg.processes == old(reg.processes)[job.sessionId := Running]
    ensures reg.results == old(reg.results)
    ensures reg.logs ==
      old(reg.logs)[job.sessionId := [LogEntry(now, "Supervisor", "Process Started", "Goal: " + job.goal)]]
    ensures fresh(scientist) && scientist.sessionId == job.sessionId && scientist.registry == reg
    ensures fresh(scientist.tool) && scientist.tool.Valid()
    ensures scientist.tool.registry == reg && scientist.tool.sessionId == job.sessionId
    ensures scientist.tool.apiKeys == ApiKeys(job.serpapiKey)
    ensures scientist.tool.cache == map[] && scientist.tool.queryCount == 0
  {
    reg.processes := reg.processes[job.sessionId := Running];
    scientist := new Scientist(job.sessionId, job.openaiApiKey, job.serpapiKey, reg);
    scientist.BeginResearch(job.goal, now);
  }

  /** The end of `research_worker`, once the crew has returned or raised:
      exactly one of "completed" with the crew's result stored, or "error"
      with an error record stored (its message carries the prefix twice,
      once from `run_research_process` and once from the worker). */
  method ResearchWorkerEnd(scientist: Scientist, kickoff: KickoffOutcome, now: nat)
    requires scientist.registry.Valid()
    requires scientist.sessionId in scientist.registry.processes
    modifies scientist.registry
    ensures scientist.registry.Valid()
    ensures kickoff.Kicked? ==>
      && scientist.registry.processes == old(scientist.registry.processes)[scientist.sessionId := Completed]
      && scientist.registry.results == old(scientist.registry.results)[scientist.sessionId := Output(kickoff.value)]
      && scientist.registry.logs == AppendIfPresent(old(scientist.registry.logs), scientist.sessionId,
           LogEntry(now, "Supervisor", "Process Completed", "Research results generated"))
    ensures kickoff.KickoffRaised? ==>
      && scientist.registry.processes == old(scientist.registry.processes)[scientist.sessionId := Error]
      && scientist.registry.results ==
           old(scientist.registry.results)[scientist.sessionId := ErrorRecord(ProcessError(ProcessError(kickoff.message)))]
      && scientist.registry.logs == AppendIfPresent(old(scientist.registry.logs), scientist.sessionId,
           LogEntry(now, "Supervisor", "Process Error", ProcessError(kickoff.message)))
  {
    var reg := scientist.registry;
    var sid := scientist.sessionId;
    var run := scientist.EndResearch(kickoff, now);
    match run
    case Returned(value) =>
      reg.results := reg.results[sid := Output(value)];
      reg.processes := reg.processes[sid := Completed];
    case Raised(message) =>
      reg.results := reg.results[sid := ErrorRecord(ProcessError(message))];
      reg.processes := reg.processes[sid := Error];
  }

  /** `GET /api/research_status/<session_id>`: 404 for an identifier with no
      status; otherwise the status, the log (empty if there is none) and a
      result that is present only for a completed session. */
  function ResearchStatus(reg: Registry, sid: string): (r: Response)
    reads reg
    ensures r.code == 404 <==> sid !in reg.processes
    ensures sid !in reg.processes ==> r.body == Failure("Session not found")
    ensures sid in reg.processes ==>
      && r.code == 200 && r.body.Snapshot?
      && r.body.processStatus == reg.processes[sid]
      && r.body.logs == (if sid in reg.logs then reg.logs[sid] else [])
      && (r.body.result.Some? ==>
            reg.processes[sid] == Completed && sid in reg.results && r.body.result.value == reg.results[sid])
  {
    if sid !in reg.processes then
      Response(404, Failure("Session not found"))
    else
      var logs := if sid in reg.logs then reg.logs[sid] else [];
      var status := reg.processes[sid];
      var result := if status == Completed && sid in reg.results then Some(reg.results[sid]) else None;
      Response(200, Snapshot(status, logs, result))
  }

  /** In a consistent registry a completed session always shows the crew's
      output, and a session that failed or still runs shows none. */
  lemma StatusShowsResultIffCompleted(reg: Registry, sid: string)
    requires reg.Valid() && sid in reg.processes
    ensures ResearchStatus(reg, sid).body.result.Some? <==> reg.processes[sid] == Completed
    ensures reg.processes[sid] == Completed ==>
      ResearchStatus(reg, sid).body.result == Some(reg.results[sid]) && reg.results[sid].Output?
  {
  }
}
