/** The process-wide session state of the backend: the three dictionaries
    `research_processes`, `research_results` and `research_logs`, here the
    fields of one `Registry` object that every component shares. */
module Sessions {

  datatype Option<+T> = None | Some(value: T)

  /** The values `research_processes` holds: the strings "running",
      "completed" and "error". */
  datatype ProcessStatus = Running | Completed | Error

  /** What `research_results` holds: the crew's output, or the
      `{"error": message}` record a failed run leaves. */
  datatype Payload = Output(value: string) | ErrorRecord(error: string)

  /** One entry of a session log: `timestamp` is the wall-clock second the
      entry was made, which the backend formats with `strftime`. */
  datatype LogEntry = LogEntry(timestamp: nat, agent: string, action: string, result: string)

  type Logs = map<string, seq<LogEntry>>

  /** Appends `e` to the log of `sid` when that log exists, and does nothing
      otherwise: the guarded append both the search tool and `log_activity`
      perform. */
  function AppendIfPresent(logs: Logs, sid: string, e: LogEntry): (r: Logs)
    ensures r.Keys == logs.Keys
    ensures forall k :: k in logs && k != sid ==> r[k] == logs[k]
    ensures sid in logs ==>
      |r[sid]| == |logs[sid]| + 1 && r[sid][..|logs[sid]|] == logs[sid] && r[sid][|logs[sid]|] == e
    ensures sid !in logs ==> r == logs
  {
    if sid in logs then logs[sid := logs[sid] + [e]] else logs
  }

  /** Two appends to an existing log add both entries, in order. */
  lemma AppendTwice(logs: Logs, sid: string, e1: LogEntry, e2: LogEntry)
    requires sid in logs
    ensures AppendIfPresent(AppendIfPresent(logs, sid, e1), sid, e2) == logs[sid := logs[sid] + [e1, e2]]
  {
    assert logs[sid] + [e1] + [e2] == logs[sid] + [e1, e2];
  }

  class Registry {
    var processes: map<string, ProcessStatus>
    var results: map<string, Payload>
    var logs: Logs

    /** Every session with a status has a log, and a terminal status always
        has the matching record stored beside it. */
    ghost predicate Valid()
      reads this
    {
      && processes.Keys <= logs.Keys
      && (forall sid :: sid in processes && processes[sid] == Completed ==>
            sid in results && results[sid].Output?)
      && (forall sid :: sid in processes && processes[sid] == Error ==>
            sid in results && results[sid].ErrorRecord?)
    }

    /** The three dictionaries as the module defines them: empty. */
    constructor ()
      ensures Valid()
      ensures processes == map[] && results == map[] && logs == map[]
    {
      processes, results, logs := map[], map[], map[];
    }
  }
}
