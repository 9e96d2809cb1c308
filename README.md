# AI Co-Scientist backend: session registry, event log and literature search

A Dafny model of the research-session core of the AI Co-Scientist backend
(`backend/app.py`). A client starts a research session, a background worker
runs a crew of agents for it, and the client polls the session's status and
log until the run is over. The model covers three parts, each with its own
state:

- **Session registry** (`Sessions.Registry`): the three process-wide
  dictionaries `research_processes`, `research_results` and `research_logs`,
  as the fields of one shared object. Its invariant `Valid()` says two things.
  Every session with a status has a log. A `"completed"` session has the
  crew's output stored, and an `"error"` session has an error record stored.
- **Endpoints and worker** (`Api`): `start_research`, `research_status`
  and `research_worker`. The worker is split into two steps,
  `ResearchWorkerBegin` and `ResearchWorkerEnd`. The caller runs them in
  order. In between, the crew runs and may call the search tool. This makes
  the `"running"` state observable.
- **Per-session event log**: the guarded append `AppendIfPresent`, used by
  `log_activity` and by every search call.
- **Search tool** (`Search.SearchTool`): `EnhancedSearchTool.func` with
  - its cache keyed on `query.lower().strip()`,
  - its query counter capped at 20,
  - its rule that web search is a fallback for fewer than three arXiv hits
    when a web-search key is configured,
  - its swallowing of provider failures.

  What one call does to the tool's cache, counter and clock is the pure
  function `Search.Answer`, and `Func` is proved to do exactly that. The
  tool's invariant says three things about the cache. No cached result breaks
  the fallback rule. There are no more entries than counted queries. There are
  never more than 20 entries.
- **Scientist** (`CoScientist.Scientist`): `EnhancedAICoScientist`. Building
  one resets the session's log. It writes the supervisor's log entries, and
  it turns the crew's outcome into a return value or a prefixed exception.

Outside inputs are parameters of the operations:
- what arXiv returned, or that it failed (`ArxivOutcome`);
- what the web search returned, or that it failed (`WebOutcome`);
- what the crew run returned or raised (`KickoffOutcome`);
- the clock reading in whole seconds (`now`).

The model keeps these behaviours of the code exactly as written:
- `start_research` creates the log but sets no status. A poll that comes
  before the worker's first step therefore gets 404 (`Scenarios.PollBeforeWorker`).
- Building the scientist empties the session's log again.
- Session identifiers are `"research_"` followed by the start second.
  Identifiers are equal exactly when the start seconds are equal
  (`Api.SessionIdCollision`). A second session started in the same second
  takes over the first one's log, and its worker sets the first one's status
  back to `"running"` (`Scenarios.SameSecondRestart`).
- A failed run stores `{"error": "Error in research process: Error in
  research process: <message>"}`. The prefix appears twice:
  `run_research_process` adds it when it re-raises, and the worker adds it
  again.

Further facts about the code that the model reflects:
- The code never sets an `idle` status.
- A terminal status can be overwritten after an identifier collision.
- The search asks arXiv first and uses the web only as a fallback.
- Nothing is retried, and there is no round structure or convergence test.
  One crew run is one outcome.

## Model

| member | source | states |
|---|---|---|
| `Sessions.Registry.constructor` | backend/app.py:20-23 | The three dictionaries start empty, and the registry invariant holds. |
| `Sessions.AppendIfPresent` | backend/app.py:142-144 | If the session's log exists, exactly one entry is appended at its end and the earlier entries are unchanged. Other sessions' logs are unchanged and the set of sessions stays the same. If the log does not exist, nothing changes. |
| `Search.CacheKey` | backend/app.py:53 | The key is `query.lower().strip()`, lowering then stripping. Its contract states that the key has no white space at either end. What the key contains is stated by `Search.CacheKeySplits`, and its other properties by the lemmas in the rows below. |
| `Search.CacheKeySplits` | backend/app.py:53 | Every query is white space, then a core, then white space, and its key is exactly the core lowered. Only the white space around the query is dropped, and no other character. |
| `Search.SameKeyMeansSameUpToCaseAndSpace` | backend/app.py:53-54 | The converse of `CacheKeyIgnoresCaseAndSpace`: two queries share a key only if each is white space around a core, and the two cores differ at most in letter case. |
| `Search.CacheKeyIgnoresCaseAndSpace` | backend/app.py:53-54 | Two queries that differ only in letter case and in surrounding white space have the same cache key. |
| `Text.StripIgnoresSurroundingSpace` | backend/app.py:53 | `strip()` gives the same string whatever white space surrounds its argument. |
| `Text.StripIdempotent` | backend/app.py:53 | Stripping a stripped string changes nothing. |
| `Text.StripKeepsUnpadded` | backend/app.py:53 | A string with no white space at either end strips to itself. |
| `Text.StripSplits` | backend/app.py:53 | `strip()` removes only white space, and only at the ends: the string is white space, then what `strip()` keeps, then white space. |
| `Search.CacheKeyNormalised` | backend/app.py:53 | A cache key contains no upper-case letter and has no leading or trailing white space. |
| `Search.CacheKeyIdempotent` | backend/app.py:53 | Normalising a cache key again gives the same key, so stored keys are fixed points of the normalisation. |
| `Search.Collect` | backend/app.py:69-108 | The arXiv list is the provider's hits, or empty if it failed. The web list is empty when the web search failed. The web list is also empty unless arXiv gave fewer than 3 hits and a non-empty `serpapi` key exists. When it was consulted, the web list is the response's `organic_results`, or empty if that member is absent. |
| `Search.Answer` | backend/app.py:52-114 | All that one `func` call does to the cache, the query count and the last-query time, and what it returns. Its own contract states only that every reply is a results dictionary or the fixed refusal record. `Search.SearchTool.Func` is proved equal to it, and the `Search.Answer*` lemmas in the rows below state its properties. |
| `Search.AnswerCounts` | backend/app.py:52-67 | A cache hit is not counted, and a miss is counted once. A miss is refused exactly when 20 queries were already counted, and the refusal is the fixed "Query limit reached" record with empty lists. |
| `Search.AnswerNeverEvicts` | backend/app.py:52-111 | No cache entry is ever changed or removed. The only key that can be added is the query's cache key, and it is added exactly when the reply is a results dictionary, which is then what the cache holds under that key. |
| `Search.AnswerFetchesOnlyOnMiss` | backend/app.py:54-112 | A hit or a refusal gives the same reply and state whatever the providers and the clock say, and it leaves the last-query time alone. A fetch returns what the providers gave and records the time. |
| `Search.AnswerKeepsConsistent` | backend/app.py:63-111 | From a consistent state, the new state is consistent: at most one entry per counted query, at most 20 entries, and every cached result follows the fallback rule. The reply follows the fallback rule too, whether it was fetched or served from the cache. |
| `Search.AnswerRepeats` | backend/app.py:52-56 | Once a query has been answered, a query with the same key is answered the same way from the cache, later and whatever the providers would then say, and the state does not change. |
| `Search.AnswerIgnoresCaseAndSpace` | backend/app.py:53-56 | Two queries that differ only in letter case and surrounding white space get the same reply and leave the same state. |
| `Search.SearchTool.constructor` | backend/app.py:28-35 | A new tool has the session id `"default"`, an empty cache, a zero query count and a zero last-query time. Its invariant holds. |
| `Search.SearchTool.LogSearch` | backend/app.py:42-50 | Appends one "Search Tool"/"Searching" entry naming the query to the tool's session log if that log exists. Otherwise nothing changes. |
| `Search.SearchTool.Func` | backend/app.py:37-114 | The query is logged first. The new cache, count and last-query time, and the reply, are exactly `Answer` applied to the old ones. The tool's invariant is preserved. |
| `CoScientist.ApiKeys` | backend/app.py:122-124 | A web-search key is configured exactly when a non-empty `serpapi_key` was given, and it is that key. |
| `CoScientist.ProcessError` | backend/app.py:248 | The error text is the message behind a fixed prefix, so it ends with the message. |
| `CoScientist.Scientist.constructor` | backend/app.py:117-130 | Builds a fresh search tool with the derived keys and this session's id. It resets the session's log to empty, whether or not the log existed. |
| `CoScientist.Scientist.LogActivity` | backend/app.py:132-146 | Appends exactly one entry, with the given agent, action, result and time, at the end of the session's log if that log exists. Otherwise nothing changes. |
| `CoScientist.Scientist.BeginResearch` | backend/app.py:241 | Logs the supervisor's "Process Started" entry with the goal. |
| `CoScientist.Scientist.EndResearch` | backend/app.py:243-250 | On success, logs "Process Completed" and returns the crew's result. On failure, logs "Process Error" with the prefixed message and raises that same message. |
| `Api.CheckStart` | backend/app.py:279-284 | A request passes exactly when both the research goal and the OpenAI key are present and non-empty. A bad goal is reported first, then a bad key, each with its own message. |
| `Api.SessionId` | backend/app.py:286-287 | The identifier is `"research_"` followed by the start second. |
| `Text.DecimalInjective` | backend/app.py:287 | Different seconds print as different decimal strings. |
| `Api.SessionIdCollision` | backend/app.py:287 | Two sessions get the same identifier exactly when they start in the same second. |
| `Api.StartResearch` | backend/app.py:275-308 | An invalid request gets 400 with the check's message, produces no job and changes no dictionary. A valid one gets 200 with the new identifier and hands the goal and keys to the worker. It sets that session's log to empty and leaves status and results unchanged. |
| `Api.ResearchWorkerBegin` | backend/app.py:252-259 | Sets the status to "running" first. The log then holds only the "Process Started" entry, and results are unchanged. The returned scientist's tool is fresh and bound to this session. The registry invariant is preserved. |
| `Api.ResearchWorkerEnd` | backend/app.py:261-272 | The run ends in exactly one of two ways. Either the status is "completed" with the crew's output stored, or the status is "error" with `{"error": ...}` stored, whose message carries the prefix twice. The matching supervisor entry is logged, and the registry invariant is preserved. |
| `Api.ResearchStatus` | backend/app.py:311-332 | An identifier with no status gets 404 "Session not found", and nothing is changed. Otherwise the reply has the status and the log (empty if absent), and a result only for a completed session. |
| `Api.StatusShowsResultIffCompleted` | backend/app.py:322-325 | In a consistent registry, a result is shown exactly when the status is "completed", and the result shown is the crew's output. |
| `Scenarios.PollBeforeWorker` | backend/app.py:286-314 | Right after a successful start, and before the worker's first step, a poll for the new identifier gets 404, when no session with that identifier has a status yet. |
| `Scenarios.StartSession` | backend/app.py:252-290 | In a fresh process, a valid start followed by the worker's first step leaves one session. It is running, has no result, and its log holds only the supervisor's start entry. The scientist's tool is fresh, empty and bound to that session. |
| `Scenarios.SearchTwice` | backend/app.py:42-56 | Two queries with the same cache key, on an empty tool: the second reply equals the first, and both queries are logged in order. |
| `Scenarios.SearchPadded` | backend/app.py:53-56 | A query and then the same query padded with one space on each side: the padded one is answered from the cache, and both are logged. |
| `Scenarios.CompletedSession` | backend/app.py:252-290 | In a fresh process, a valid start, the worker's first step and a crew run that returns, all in one second, leave one completed session. Its output is stored, and its log holds the start and completion entries. |
| `Scenarios.SameSecondRestart` | backend/app.py:252-331 | After a session completes, a second valid start in the same second reuses its identifier. Before the restart, a poll shows "completed", the two entries and the output. After the restart and the worker's first step, a poll shows "running", only the new start entry and no result. |
| `Scenarios.OneSession` | backend/app.py:252-331 | A whole session in a fresh process. While the worker runs, the poll shows "running" and no result. The same query padded with spaces is answered from the cache. The final status is "completed" with the output, or "error" with no result shown. The log holds four entries in order: started, two searches, then completed or error. |

## Left out

- Flask routing, `jsonify`, CORS, `health_check`, the serverless `handler`s and `backend/api/index.py`: transport only. Each endpoint is a method or function returning a status code and a body.
- `threading.Thread` and concurrent access to the shared dictionaries. The worker is two sequential steps the caller invokes. Interleavings inside one step (a poll between lines 256 and 259, say) are not modelled.
- CrewAI agent, task and crew construction (`create_specialized_agents`, `create_supervisor_agent`, `create_research_tasks`) and `crew.kickoff()`: a library that cannot be seen. The kickoff is an outcome passed in. The searches the crew makes are `Func` calls the caller places between the two worker steps.
- The arXiv and SerpAPI calls: network. Their answers are passed in. The `max_results=5` and `num: 3` request parameters and the reshaping of each arXiv hit are not modelled: the model stores whatever list the provider returned.
- Wall-clock time: `time.sleep` rate limiting is not modelled. `last_query_time` is only recorded. Log timestamps are whole seconds, not `strftime` strings. One clock reading serves a whole call.
- Logging, the `os.environ` write of the OpenAI key, and API-key handling beyond the `serpapi` entry.
- Exceptions other than the crew's failure (for example a failure while building the scientist) are not modelled.
- `Api.StartRequest` fields are optional strings. JSON values of other types (numbers, booleans, lists), and a body that is not a JSON object, are not modelled.
- `Text.LowerChar`: models `str.lower()` only for ASCII A–Z and Latin-1 À–Þ (except ×). Other scripts and multi-character lowerings are left as they are, because the full Unicode case tables are outside the model.
