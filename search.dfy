/** `EnhancedSearchTool`: the literature search the agents call, with its
    per-instance result cache, its query quota and its arXiv-then-web
    fallback. The two providers are oracles: each call receives what arXiv
    and the web search would have answered, or that they failed. */
module Search {
  import opened Text
  import opened Sessions

  /** `max_queries_per_session`. */
  const MaxQueriesPerSession: nat := 20
  /** The web search is consulted only when arXiv gave fewer results. */
  const FallbackThreshold: nat := 3

  /** One arXiv hit, as the tool reshapes it. */
  datatype Paper = Paper(
    title: string,
    authors: seq<string>,
    summary: string,
    pdfUrl: string,
    published: Option<string>)

  /** One entry of the web search's `organic_results`, kept as it came. */
  datatype WebHit = WebHit(fields: map<string, string>)

  /** What the arXiv client produced: the full list of hits, or an
      exception (raised at any point of the iteration). */
  datatype ArxivOutcome = ArxivFailed | ArxivPapers(papers: seq<Paper>)

  /** What the web search produced: an exception, or a response whose
      `organic_results` member may be absent. */
  datatype WebOutcome = WebFailed | WebResponse(organic: Option<seq<WebHit>>)

  /** The `{"arxiv": [...], "web": [...]}` dictionary. */
  datatype Results = Results(arxiv: seq<Paper>, web: seq<WebHit>)

  /** What `func` returns: a results dictionary, or the over-quota record
      `{"error": ..., "results": {"arxiv": [], "web": []}}`. */
  datatype Reply = Found(results: Results) | LimitReached(error: string, results: Results)

  const LimitReply: Reply := LimitReached("Query limit reached", Results([], []))

  /** The cache key of a query: `query.lower().strip()`. */
  function CacheKey(query: string): (key: string)
    ensures key != [] ==> !IsSpace(key[0]) && !IsSpace(key[|key| - 1])
  {
    Strip(Lower(query))
  }

  /** No upper-case letter and no surrounding white space. */
  predicate IsNormalised(key: string) {
    IsLowered(key) && (key != [] ==> !IsSpace(key[0]) && !IsSpace(key[|key| - 1]))
  }

  /** Every cache key is normalised. */
  lemma CacheKeyNormalised(query: string)
    ensures IsNormalised(CacheKey(query))
  {
    StripKeepsLowered(Lower(query));
  }

  /** Normalising a key again changes nothing, so every key the cache holds
      is its own cache key. */
  lemma CacheKeyIdempotent(query: string)
    ensures CacheKey(CacheKey(query)) == CacheKey(query)
  {
    var key := CacheKey(query);
    CacheKeyNormalised(query);
    LowerOfLowered(key);
    StripIdempotent(Lower(query));
  }

  /** Two queries that differ only in letter case and in the white space
      around them share one cache entry. */
  lemma CacheKeyIgnoresCaseAndSpace(lead1: string, a: string, trail1: string,
                                    lead2: string, b: string, trail2: string)
    requires AllSpace(lead1) && AllSpace(trail1) && AllSpace(lead2) && AllSpace(trail2)
    requires SameUpToCase(a, b)
    ensures CacheKey(lead1 + a + trail1) == CacheKey(lead2 + b + trail2)
  {
    assert Lower(a) == Lower(b);
    LowerOfConcat(lead1 + a, trail1);
    LowerOfConcat(lead1, a);
    LowerKeepsSpace(lead1);
    LowerKeepsSpace(trail1);
    StripIgnoresSurroundingSpace(lead1, Lower(a), trail1);
    LowerOfConcat(lead2 + b, trail2);
    LowerOfConcat(lead2, b);
    LowerKeepsSpace(lead2);
    LowerKeepsSpace(trail2);
    StripIgnoresSurroundingSpace(lead2, Lower(b), trail2);
  }

  /** The key is the query, lowered, with the white space around it cut
      off: the query is white space, a core and white space, in that order,
      and the key is the lowered core. */
  lemma CacheKeySplits(query: string) returns (lead: string, core: string, trail: string)
    ensures AllSpace(lead) && AllSpace(trail)
    ensures query == lead + core + trail
    ensures Lower(core) == CacheKey(query)
  {
    var low, key := Lower(query), CacheKey(query);
    var lowLead, lowTrail := StripSplits(low);
    var n, k := |lowLead|, |key|;
    PartsOfThree(low, lowLead, key, lowTrail);
    lead, core, trail := query[..n], query[n..n + k], query[n + k..];
    LowerOfParts(query, n, n + k);
    SpaceOnlyFromSpace(lead);
    SpaceOnlyFromSpace(trail);
    Recompose(query, n, n + k);
  }

  /** The converse of `CacheKeyIgnoresCaseAndSpace`: two queries share a
      cache entry only if they differ in nothing but letter case and the
      white space around them. */
  lemma SameKeyMeansSameUpToCaseAndSpace(q1: string, q2: string)
      returns (lead1: string, a: string, trail1: string, lead2: string, b: string, trail2: string)
    requires CacheKey(q1) == CacheKey(q2)
    ensures AllSpace(lead1) && AllSpace(trail1) && AllSpace(lead2) && AllSpace(trail2)
    ensures q1 == lead1 + a + trail1 && q2 == lead2 + b + trail2
    ensures SameUpToCase(a, b)
  {
    lead1, a, trail1 := CacheKeySplits(q1);
    lead2, b, trail2 := CacheKeySplits(q2);
    assert Lower(a) == Lower(b);
    assert forall i :: 0 <= i < |a| ==> Lower(a)[i] == Lower(b)[i];
  }

  /** A web-search key is configured: present and not empty. */
  predicate HasWebKey(apiKeys: map<string, string>) {
    "serpapi" in apiKeys && apiKeys["serpapi"] != ""
  }

  /** The fallback rule: web results only when arXiv gave fewer than three
      and a web-search key is configured. */
  predicate FollowsFallback(apiKeys: map<string, string>, r: Results) {
    r.web != [] ==> |r.arxiv| < FallbackThreshold && HasWebKey(apiKeys)
  }

  /** The results one uncached, under-quota query collects from the two
      providers; a provider that fails leaves its list empty. */
  function Collect(apiKeys: map<string, string>, arxiv: ArxivOutcome, web: WebOutcome): (r: Results)
    ensures FollowsFallback(apiKeys, r)
    ensures r.arxiv == (if arxiv.ArxivPapers? then arxiv.papers else [])
    ensures web.WebFailed? ==> r.web == []
    ensures |r.arxiv| < FallbackThreshold && HasWebKey(apiKeys) && web.WebResponse? ==>
      r.web == (if web.organic.Some? then web.organic.value else [])
  {
    var papers := if arxiv.ArxivPapers? then arxiv.papers else [];
    var hits :=
      if |papers| < FallbackThreshold && HasWebKey(apiKeys) && web.WebResponse? && web.organic.Some?
      then web.organic.value
      else [];
    Results(papers, hits)
  }

  /** The "Search Tool" / "Searching" entry every call logs. */
  function SearchEntry(now: nat, query: string): LogEntry {
    LogEntry(now, "Search Tool", "Searching", "Query: " + query)
  }

  /** Every cached result follows the fallback rule. */
  ghost predicate WellFormedCache(apiKeys: map<string, string>, cache: map<string, Results>) {
    forall key :: key in cache ==> FollowsFallback(apiKeys, cache[key])
  }

  /** The part of a tool that a search reads and writes. */
  datatype ToolState = ToolState(cache: map<string, Results>, queryCount: nat, lastQueryTime: nat)

  /** The tool's invariant: the cache never holds more entries than queries
      were counted nor more than the quota, and only results that follow the
      fallback rule. */
  ghost predicate Consistent(apiKeys: map<string, string>, st: ToolState) {
    && |st.cache| <= st.queryCount
    && |st.cache| <= MaxQueriesPerSession
    && WellFormedCache(apiKeys, st.cache)
  }

  /** What one `func(query)` call does to the tool's state and what it
      returns, given the clock reading and the providers' answers. */
  function Answer(apiKeys: map<string, string>, st: ToolState, query: string, now: nat,
                  arxiv: ArxivOutcome, web: WebOutcome): (out: (ToolState, Reply))
    ensures out.1.Found? || out.1 == LimitReply
  {
    var key := CacheKey(query);
    if key in st.cache then
      (st, Found(st.cache[key]))
    else if st.queryCount + 1 > MaxQueriesPerSession then
      (st.(queryCount := st.queryCount + 1), LimitReply)
    else
      var r := Collect(apiKeys, arxiv, web);
      (ToolState(st.cache[key := r], st.queryCount + 1, now), Found(r))
  }

  /** Only a miss is counted, and only a miss once the quota is used up is
      refused, with the fixed "Query limit reached" record. */
  lemma AnswerCounts(apiKeys: map<string, string>, st: ToolState, query: string, now: nat,
                     arxiv: ArxivOutcome, web: WebOutcome)
    ensures var out := Answer(apiKeys, st, query, now, arxiv, web);
      && out.0.queryCount == st.queryCount + (if CacheKey(query) in st.cache then 0 else 1)
      && (out.1.LimitReached? <==> CacheKey(query) !in st.cache && st.queryCount >= MaxQueriesPerSession)
      && (out.1.LimitReached? ==> out.1 == LimitReply)
  {
  }

  /** Entries are never changed or evicted, the only key that can appear is
      the query's, and an answered query is cached with the reply's
      results. */
  lemma AnswerNeverEvicts(apiKeys: map<string, string>, st: ToolState, query: string, now: nat,
                          arxiv: ArxivOutcome, web: WebOutcome)
    ensures var out := Answer(apiKeys, st, query, now, arxiv, web);
      && (forall k :: k in st.cache ==> k in out.0.cache && out.0.cache[k] == st.cache[k])
      && out.0.cache.Keys == st.cache.Keys + (if out.1.Found? then {CacheKey(query)} else {})
      && (out.1.Found? ==> CacheKey(query) in out.0.cache && out.0.cache[CacheKey(query)] == out.1.results)
  {
  }

  /** The providers and the clock matter only when a query is fetched: a hit
      or a refusal is the same whatever they say, and a fetch returns what
      the providers gave and records the time. */
  lemma AnswerFetchesOnlyOnMiss(apiKeys: map<string, string>, st: ToolState, query: string,
                                now: nat, arxiv: ArxivOutcome, web: WebOutcome,
                                now2: nat, arxiv2: ArxivOutcome, web2: WebOutcome)
    ensures var out := Answer(apiKeys, st, query, now, arxiv, web);
      && (CacheKey(query) in st.cache || out.1.LimitReached? ==>
            out == Answer(apiKeys, st, query, now2, arxiv2, web2) && out.0.lastQueryTime == st.lastQueryTime)
      && (CacheKey(query) !in st.cache && out.1.Found? ==>
            out.1.results == Collect(apiKeys, arxiv, web) && out.0.lastQueryTime == now)
  {
  }

  /** A search keeps the tool's invariant, and every reply follows the
      fallback rule, whether it was fetched or served from the cache. */
  lemma AnswerKeepsConsistent(apiKeys: map<string, string>, st: ToolState, query: string, now: nat,
                              arxiv: ArxivOutcome, web: WebOutcome)
    requires Consistent(apiKeys, st)
    ensures Consistent(apiKeys, Answer(apiKeys, st, query, now, arxiv, web).0)
    ensures FollowsFallback(apiKeys, Answer(apiKeys, st, query, now, arxiv, web).1.results)
  {
  }

  /** Once a query has been answered, any query with the same key is
      answered the same way from the cache, later and whatever the
      providers would then say, and the state does not change. */
  lemma AnswerRepeats(apiKeys: map<string, string>, st: ToolState, query: string, again: string,
                      now: nat, later: nat, arxiv: ArxivOutcome, web: WebOutcome,
                      arxiv2: ArxivOutcome, web2: WebOutcome)
    requires CacheKey(again) == CacheKey(query)
    requires Answer(apiKeys, st, query, now, arxiv, web).1.Found?
    ensures Answer(apiKeys, Answer(apiKeys, st, query, now, arxiv, web).0, again, later, arxiv2, web2)
         == Answer(apiKeys, st, query, now, arxiv, web)
  {
    var (st1, r1) := Answer(apiKeys, st, query, now, arxiv, web);
    assert CacheKey(again) in st1.cache && st1.cache[CacheKey(again)] == r1.results;
  }

  /** The answer depends on the query only through its cache key, so two
      queries that differ in letter case and surrounding white space are
      answered alike. */
  lemma AnswerIgnoresCaseAndSpace(apiKeys: map<string, string>, st: ToolState, now: nat,
                                  arxiv: ArxivOutcome, web: WebOutcome,
                                  lead1: string, a: string, trail1: string,
                                  lead2: string, b: string, trail2: string)
    requires AllSpace(lead1) && AllSpace(trail1) && AllSpace(lead2) && AllSpace(trail2)
    requires SameUpToCase(a, b)
    ensures Answer(apiKeys, st, lead1 + a + trail1, now, arxiv, web)
         == Answer(apiKeys, st, lead2 + b + trail2, now, arxiv, web)
  {
    CacheKeyIgnoresCaseAndSpace(lead1, a, trail1, lead2, b, trail2);
  }

  class SearchTool {
    const apiKeys: map<string, string>
    /** Where the shared session logs live. */
    const registry: Registry
    /** `session_id`: "default" until the owning scientist sets it. */
    var sessionId: string
    var cache: map<string, Results>
    var queryCount: nat
    var lastQueryTime: nat

    ghost function State(): ToolState
      reads this
    {
      ToolState(cache, queryCount, lastQueryTime)
    }

    ghost predicate Valid()
      reads this
    {
      Consistent(apiKeys, State())
    }

    constructor (apiKeys: map<string, string>, registry: Registry)
      ensures Valid()
      ensures this.apiKeys == apiKeys && this.registry == registry
      ensures sessionId == "default" && cache == map[] && queryCount == 0 && lastQueryTime == 0
    {
      this.apiKeys := apiKeys;
      this.registry := registry;
      sessionId := "default";
      cache := map[];
      queryCount := 0;
      lastQueryTime := 0;
    }

    /** The "Search Tool" entry `func` logs for every query. */
    method LogSearch(query: string, now: nat)
      modifies registry`logs
      ensures registry.logs == AppendIfPresent(old(registry.logs), sessionId, SearchEntry(now, query))
    {
      registry.logs := AppendIfPresent(registry.logs, sessionId, SearchEntry(now, query));
    }

    /** `func(query)`, with the clock reading `now` and the providers'
        answers `arxiv` and `web` (the latter consulted only when the
        fallback rule calls for it): log the query, then answer it. */
    method Func(query: string, now: nat, arxiv: ArxivOutcome, web: WebOutcome) returns (reply: Reply)
      requires Valid()
      modifies this`cache, this`queryCount, this`lastQueryTime, registry`logs
      ensures Valid()
      ensures registry.logs == AppendIfPresent(old(registry.logs), sessionId, SearchEntry(now, query))
      ensures (State(), reply) == Answer(apiKeys, old(State()), query, now, arxiv, web)
    {
      ghost var before := State();
      AnswerKeepsConsistent(apiKeys, before, query, now, arxiv, web);
      LogSearch(query, now);

      var key := CacheKey(query);
      if key in cache {
        return Found(cache[key]);
      }

      queryCount := queryCount + 1;
      if queryCount > MaxQueriesPerSession {
        return LimitReply;
      }

      var results := Results([], []);
      if arxiv.ArxivPapers? {
        results := results.(arxiv := arxiv.papers);
      }
      if |results.arxiv| < FallbackThreshold && HasWebKey(apiKeys) {
        if web.WebResponse? {
          results := results.(web := if web.organic.Some? then web.organic.value else []);
        }
      }

      assert results == Collect(apiKeys, arxiv, web);
      cache := cache[key := results];
      lastQueryTime := now;
      return Found(results);
    }
  }
}
