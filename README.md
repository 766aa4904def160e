# aduib-mcp-server crawl core, modelled in Dafny

This project models the crawl layer of aduib-mcp-server and proves properties about it.

- **Crawl layer.** The crawler pool keys started browser crawlers by a signature of their configuration, refuses new browsers under memory pressure and evicts idle ones. The crawl rules map a URL's domain to a rule. The crawl service normalises URLs, shapes task records and results, and streams results as JSON lines.
- **Decision routines around it:**
  - the circuit-breaker and exception middleware;
  - the retry-with-timeout decorator of the RPC client;
  - the GitHub GraphQL client's query builders and error classification;
  - the GitHub search service;
  - the QA-memory tools;
  - the Bing redirect decoder;
  - the HTTP client helper;
  - the API-key OAuth provider;
  - the configuration-loader choice.

Each core file is one module:

| module | file |
|---|---|
| `CrawlerPool` | `crawler_pool.dfy` |
| `CrawlService` | `crawl_service.dfy` |
| `CrawlTypes` | `crawl_types.dfy` |
| `CrawlRules` | `crawl_rules.dfy` |
| `Net` | `net.dfy` |
| `ConfigLoader` | `config_loader.dfy` |
| `ExceptionMiddleware` | `exception_middleware.dfy` |
| `RpcRetry` | `rpc_retry.dfy` |
| `GithubGraphql` | `github_graphql.dfy` |
| `GithubService` | `github_service.dfy` |
| `QaMemory` | `qa_memory.dfy` |
| `BingUrl` | `bing.dfy` |
| `HttpClient` | `http_client.dfy` |
| `ApiKeyAuth` | `api_key_auth.dfy` |

Shared modules:
- `Text`: Python string methods;
- `Values`: dynamic JSON-like values, `str`/`repr`, dict lookups, exceptions as values;
- `JsonText`: `json.dumps`;
- `Base64`, `Utf8`: the codecs the Bing decoder and the HTTP stream use.

How state is modelled:
- **Module-level dictionaries and lists that are updated in place** are fields of classes whose methods state the whole new state:
  - `POOL`, `LAST_USED`, `CRAWL_RULES` and `PARSER_CACHE`;
  - the task store;
  - the circuit breaker's counters;
  - the API-key table.
- **Loops** are methods with invariants, proved equal to a recursive specification function. The properties the source promises are proved about that function.
- **External inputs are parameters:** clocks, memory sampling, random codes, outcomes of browser start-up and network calls.

## Model

| member | source | states |
|---|---|---|
| CrawlerPool.IdleKeys | component/crawl4ai/crawler_pool.py:256-257 | a key is idle exactly when it has a last-use time older than `IDLE_TTL_SEC` at `now` |
| CrawlerPool.LastGroupMatch | component/crawl4ai/crawler_pool.py:57-62 | the scan's `res` is a rule of the table with the key as url, and is None exactly when no rule has that url |
| CrawlerPool.LastGroupMatchIsLastGroup | component/crawl4ai/crawler_pool.py:57-62 | a found rule is the first rule with that url of some group, and no later group has a rule with that url (the `break` leaves only the inner loop, so the last matching group wins) |
| CrawlerPool.AllRulesAppend | component/crawl4ai/crawler_pool.py:58-59 | the rules of the table with a group appended are the earlier rules followed by that group's rules |
| CrawlerPool.ResolveRule | component/crawl4ai/crawler_pool.py:55-63 | a found rule has the url's domain as url and comes from the table; with neither the domain nor "default" in the table the recursion never ends (RecursionError) |
| CrawlerPool.LastAndFirstMatchAgree | component/crawl4ai/crawler_pool.py:55-63 | when rule urls are distinct, the pool's last-group scan agrees with the first-match lookup of configs/crawl4ai/crawl_rule.py |
| CrawlerPool.LaterGroupWins | component/crawl4ai/crawler_pool.py:58-62 | with two groups holding a rule for the same domain the pool returns the later group's rule, the configuration lookup the earlier one |
| CrawlerPool.DefaultTableResolves | component/crawl4ai/crawler_pool.py:63 | on the built-in table every URL resolves: its own rule if the domain is listed, else the "default" rule |
| CrawlerPool.ResolvesWithDefault | component/crawl4ai/crawler_pool.py:55-63 | on any table with distinct rule urls and a "default" rule, every URL resolves: to its own rule when its domain is listed, else to the "default" rule |
| CrawlerPool.ValidGroups | component/crawl4ai/crawler_pool.py:76-81 | the new rule list holds exactly the entries that validate, at most one per input entry |
| CrawlerPool.ValidGroupsAppend | component/crawl4ai/crawler_pool.py:76-81 | validating a list is validating its two parts in turn: the kept groups stay in input order |
| CrawlerPool.ValidGroupsSingle | component/crawl4ai/crawler_pool.py:77-81 | one entry contributes its validated group, or nothing when validation fails |
| CrawlerPool.Pool.constructor | component/crawl4ai/crawler_pool.py:20-23 | the pool, the last-use map and the rule list start empty |
| CrawlerPool.Pool.GetCrawler | component/crawl4ai/crawler_pool.py:173-240 | a cache hit returns the pooled crawler and refreshes its time; memory pressure raises MemoryError with both maps unchanged; a started crawler is added with its time; a MemoryError while starting is re-raised wrapped; any other failure returns None and leaves the key in neither map |
| CrawlerPool.Pool.JanitorPass | component/crawl4ai/crawler_pool.py:254-261 | exactly the idle keys leave both maps; every idle crawler is closed and close failures are suppressed |
| CrawlerPool.Pool.CloseAll | component/crawl4ai/crawler_pool.py:244-248 | both maps end empty and the rules are untouched |
| CrawlerPool.Pool.ScanGroups | component/crawl4ai/crawler_pool.py:57-62 | the nested loop leaves `res` equal to the last-group match |
| CrawlerPool.Pool.GetRuleByUrl | component/crawl4ai/crawler_pool.py:55-63 | the method computes `ResolveRule` on the current rules |
| CrawlerPool.Pool.GetRulesByGroup | component/crawl4ai/crawler_pool.py:65-70 | a result is a group of the list with that name; None exactly when no group has it |
| CrawlerPool.Pool.ChangeCrawlRule | component/crawl4ai/crawler_pool.py:73-81 | the rule list becomes the validated entries in input order; the pool is untouched |
| CrawlerPool.ParserRegistry.constructor | component/crawl4ai/crawler_pool.py:24 | the parser cache starts empty |
| CrawlerPool.ParserRegistry.Get | component/crawl4ai/crawler_pool.py:92-94 | a parser is returned exactly when one is registered under the name, and it is that one |
| CrawlerPool.ParserRegistry.Register | component/crawl4ai/crawler_pool.py:83-90 | the parser is stored under the name, other names keep theirs, and the result says whether one was overwritten |
| CrawlTypes.TaskStatusValue | configs/crawl4ai/types.py:13-16 | each status value is a non-empty lower-case word |
| CrawlTypes.LowerOfLowercase | configs/crawl4ai/types.py:32 | lower-casing leaves the lower-case member values unchanged |
| CrawlTypes.CrawlModeValueOf | configs/crawl4ai/types.py:40-48 | a mode's value is already lower case |
| CrawlTypes.CrawlModeToOriginal | configs/crawl4ai/types.py:30-38 | parsing succeeds exactly when the lower-cased text is a member value, and otherwise raises "Unknown crawl mode: " followed by the text |
| CrawlTypes.CrawlModeRoundTrip | configs/crawl4ai/types.py:30-48 | parsing a mode's value gives the mode back |
| CrawlTypes.CrawlModeCaseInsensitive | configs/crawl4ai/types.py:32 | parsing a text and parsing its lower-case form agree |
| CrawlTypes.CrawlResultTypeValueOf | configs/crawl4ai/types.py:68-78 | a result type's value is already lower case |
| CrawlTypes.CrawlResultTypeToOriginal | configs/crawl4ai/types.py:56-66 | parsing succeeds exactly when the lower-cased text is a member value, and otherwise raises "Unknown crawl type: " followed by the text |
| CrawlTypes.CrawlResultTypeRoundTrip | configs/crawl4ai/types.py:56-78 | parsing a result type's value gives it back |
| CrawlTypes.CrawlResultTypeCaseInsensitive | configs/crawl4ai/types.py:58 | parsing ignores case |
| CrawlTypes.DefaultRule | configs/crawl4ai/types.py:81-95 | a rule built from a name and url keeps them; no search engine url, classic mode, statistical adaptive method, markdown results, no css selector, fit filter, no deep crawl and no deep-crawl method, depth 1, 2 pages, threshold 0.7 (as 700 thousandths), no extraction strategy |
| CrawlTypes.BuildDeepCrawlStrategy | configs/crawl4ai/types.py:97-117 | a strategy exists exactly for "seo", "keyword" and "relevance"; it carries the rule's depth, page limit and threshold and the query; "seo" gives the SEO filter and "keyword" the keyword scorer |
| CrawlTypes.BuildMarkdownGenerator | configs/crawl4ai/types.py:119-157 | raw gives no content filter, fit the pruning filter on the query, bm25 the BM25 filter without stemming, llm an LLM filter |
| CrawlTypes.BuildAdaptiveCrawler | configs/crawl4ai/types.py:159-175 | an adaptive crawler on the given handle exists exactly for "statistical" and "embedding" |
| CrawlTypes.GetExtractionStrategy | configs/crawl4ai/types.py:177-185 | every extraction tag gives the web-content LLM strategy |
| CrawlTypes.DefaultRuleBehaviour | configs/crawl4ai/types.py:85-95 | a rule with default fields has no deep-crawl strategy, a pruning markdown filter and a statistical adaptive crawler |
| CrawlTypes.FindGroup | configs/crawl4ai/types.py:194-196 | the position found is the first group with the name; None exactly when there is none |
| CrawlTypes.GetRulesByName | configs/crawl4ai/types.py:193-197 | the rules of the first group with the name, or the empty list when no group has it |
| CrawlRules.AllRules | configs/crawl4ai/crawl_rule.py:220-221 | a rule is listed exactly when some group holds it |
| CrawlRules.FirstNamed | configs/crawl4ai/crawl_rule.py:204-206 | the first rule with the name, or None exactly when none has it |
| CrawlRules.FirstWithUrl | configs/crawl4ai/crawl_rule.py:221-223 | the first rule with the key as url, or None exactly when none has it |
| CrawlRules.GetRuleByName | configs/crawl4ai/crawl_rule.py:200-207 | a result has the rule name; None exactly when no group with the group name holds a rule with that name |
| CrawlRules.GetRuleByNameFirstGroup | configs/crawl4ai/crawl_rule.py:202-206 | when the first group with the name holds the rule, that group's first such rule is returned |
| CrawlRules.GetRulesByGroup | configs/crawl4ai/crawl_rule.py:210-215 | the first group with the name, or None exactly when there is none |
| CrawlRules.GetRuleByUrl | configs/crawl4ai/crawl_rule.py:218-224 | a result is a table rule whose url is the URL's domain; None exactly when no rule has that url |
| CrawlRules.DefaultTableRules | configs/crawl4ai/crawl_rule.py:73-192 | the built-in table's rules are its four groups' rules in order |
| CrawlRules.DefaultTableUrlsDistinct | configs/crawl4ai/crawl_rule.py:73-192 | no two rules of the built-in table share a url |
| CrawlRules.DistinctByFirstChars | configs/crawl4ai/crawl_rule.py:78-179 | the ten urls of the table are pairwise different |
| CrawlRules.DefaultTableHasDefault | configs/crawl4ai/crawl_rule.py:73-78 | the first group is "default" and the url "default" finds the rule named "default" |
| CrawlRules.CsdnUrlResolves | configs/crawl4ai/crawl_rule.py:95-97 | any https URL on blog.csdn.net selects the "csdn" blog rule |
| CrawlRules.CsdnDomain | utils/net.py:15-18 | the domain of an https blog.csdn.net URL is "blog.csdn.net" |
| CrawlRules.CsdnKey | configs/crawl4ai/crawl_rule.py:95-97 | "blog.csdn.net" is the url of the table's third rule, the csdn rule |
| CrawlRules.GitRepoSearchHasNoGithub | configs/crawl4ai/crawl_rule.py:105-109 | no group is named "git_repo_search", so asking it for "github" finds nothing |
| ConfigLoader.GetConfigLoader | component/crawl4ai/config_loader/config_loader.py:13-29 | the remote loader is chosen exactly when the path starts with "nacos://"; its data id is the rest of the path and its client carries the Nacos settings and the group "aduib-mcp-server"; otherwise the file loader gets the path and app home |
| ConfigLoader.RemoteDataIdRoundTrip | component/crawl4ai/config_loader/config_loader.py:19-21 | putting the scheme before a data id and choosing a loader gives the data id back |
| ConfigLoader.BareSchemeEmptyDataId | component/crawl4ai/config_loader/config_loader.py:19-21 | the scheme alone selects the remote loader with an empty data id |
| ConfigLoader.UpperCaseSchemeIsAFile | component/crawl4ai/config_loader/config_loader.py:19 | the prefix test is case-sensitive |
| Net.GetDomainUrl | utils/net.py:15-19 | the domain key never contains "/" |
| Net.DomainHasNoSeparators | utils/net.py:15-19 | the key contains neither "/" nor "://" |
| Net.GetDomainUrlIdempotent | utils/net.py:15-19 | taking the key of a key changes nothing |
| Net.GetDomainUrlWithScheme | utils/net.py:17-18 | with "://" present the key is the start of the text after the first "://", ending at the earliest "/" or further "://", or at the end: no earlier position holds either |
| Net.GetDomainUrlWithoutScheme | utils/net.py:19 | without "://" the key is the text up to the first "/" |
| Net.GetDomainUrlOfParts | utils/net.py:15-19 | scheme "://" host path gives the host, for a colon-free scheme and a slash-free host |
| Net.GetDomainUrlKeepsPortAndQuery | utils/net.py:18 | a port and a slash-free query stay in the key |
| Net.GetDomainUrlOfDefault | utils/net.py:19 | "default" is its own key, so the pool's fallback lookup can match the default rule |
| CrawlService.NormalizeUrl | service/crawl4ai_service.py:147-148 | an http, https or raw URL is kept and any other gets "https://" in front, so every result has a crawl scheme |
| CrawlService.NormalizeUrls | service/crawl4ai_service.py:147-148 | the list keeps its length and order, each URL normalised |
| CrawlService.NormalizeUrlsIdempotent | service/crawl4ai_service.py:147-148 | normalising twice is normalising once |
| CrawlService.NormalizeKeepsHost | service/crawl4ai_service.py:147 | a bare URL keeps its text after the added scheme |
| CrawlService.GetField | service/crawl4ai_service.py:259-263 | `.get` on a dict reads the key with None as default; on anything else it raises AttributeError |
| CrawlService.SelectContent | service/crawl4ai_service.py:256-271 | html takes the cleaned html, else the fit html; markdown takes the fit markdown, else the raw one, else None; pdf takes the base64 of the bytes; only AttributeError or TypeError can be raised |
| CrawlService.PdfContentDecodes | service/crawl4ai_service.py:264-266 | the text sent for a pdf base64-decodes to the pdf's bytes |
| CrawlService.ProcessedResultFields | service/crawl4ai_service.py:272-279 | the intended processed result has the six keys in order, the selected content, the type's value and the url (a missing rule is read as html, where the source would raise AttributeError on a path no caller reaches, since line 158 reads the rule first), and fails exactly when the content cannot be selected |
| CrawlService.ProcessedResult | service/crawl4ai_service.py:255-279 | definition of `create_processed_result` as evidently intended (a missing rule is read as html; the source would raise on it, on a path no caller reaches); its properties are in ProcessedResultFields, ProcessedResultCopies and ProcessedResultAsWrittenLosesContent |
| CrawlService.ProcessedResultCopies | service/crawl4ai_service.py:275-277 | `crawl_media`, `screenshot` and `metadata` are the result's `media`, `screenshot` and `metadata`, defaulting to `{}`, `""` and `{}` |
| CrawlService.ProcessedResultAsWritten | service/crawl4ai_service.py:258 | as written every call raises AttributeError, because the rule has no `crawler_result_type` |
| CrawlService.ProcessedResultAsWrittenLosesContent | service/crawl4ai_service.py:258-275 | for an html rule with cleaned html the written code fails while the intended one returns that html |
| CrawlService.ErrorLine | service/crawl4ai_service.py:118-119 | the error line ends in a newline and exists whenever the url is a string |
| CrawlService.ErrorLineShape | service/crawl4ai_service.py:118-119 | the error line is ASCII and starts with its "error" key |
| CrawlService.StreamLine | service/crawl4ai_service.py:109-119 | the intended stream line ends in a newline; a result that cannot be processed or serialised gets the error line of that error with the result's url; a result whose url is a string always gets a line |
| CrawlService.StreamLineAsWritten | service/crawl4ai_service.py:114-119 | as written every line is the error line for "Unknown type" with the result's url |
| CrawlService.StreamAsWrittenOnlyErrors | service/crawl4ai_service.py:114-119 | as written a result with a url is always streamed as an error record |
| CrawlService.StreamLineCarriesResult | service/crawl4ai_service.py:114-115 | as intended a serialisable processed result streams as its own record, different from the written code's line |
| CrawlService.StreamResults | service/crawl4ai_service.py:98-128 | one line per result in order; the stream ends when the results run out, when the client disconnects (CancelledError swallowed), or with the error of a line that cannot be serialised |
| CrawlService.StreamIntended | service/crawl4ai_service.py:98-128 | with the intended rendering, results whose urls are strings never end the stream with an exception, and without a disconnect every result gets exactly its line, in order |
| CrawlService.ResponseBase | service/crawl4ai_service.py:79-88 | the response carries the task id, status and url and neither result nor error |
| CrawlService.Links | service/crawl4ai_service.py:84-87 | `self` and `refresh` both hold `{"href": base_url + "/llm/" + task_id}` |
| CrawlService.ResponseBaseTimeAndLinks | service/crawl4ai_service.py:79-88 | the response carries the task's `created_at` and the `_links` to its status endpoint |
| CrawlService.CreateTaskResponseTimeAndLinks | service/crawl4ai_service.py:77-95 | every successful response carries the stored `created_at` and the `_links` to the task's status endpoint, whatever the status adds |
| CrawlService.CreateTaskResponse | service/crawl4ai_service.py:77-95 | succeeds exactly when the task has status, created_at and url (and a parseable result when completed); a result appears exactly for a completed task and is the parsed stored result; a failed task carries its error |
| CrawlService.FinishResponse | service/crawl4ai_service.py:90-95 | a completed task adds its parsed result, a failed one its error, and nothing else in the response changes; a completed task without a parseable result is an error |
| CrawlService.CleanupDecision | service/crawl4ai_service.py:36-39 | a task is removed exactly when it is finished, `keep` is false and it is older than an hour; an unparseable timestamp raises ValueError with Python's message |
| CrawlService.JobFields | service/crawl4ai_service.py:298-304 | a new job has exactly the five fields: processing, its time, the JSON of the urls, empty result and error |
| CrawlService.NewJobReadsProcessing | service/crawl4ai_service.py:298-304 | a job just created reads back as processing, with neither result nor error |
| CrawlService.HSet | service/crawl4ai_service.py:318-329 | `hset` adds the given fields to the hash, keeps its other fields and leaves other keys alone |
| CrawlService.RunnerWritesAsWritten | service/crawl4ai_service.py:306-329 | the runner as written makes at least one write |
| CrawlService.RunnerAsWrittenAlwaysFails | service/crawl4ai_service.py:309-329 | as written the last write always marks the job failed |
| CrawlService.RunnerWrites | service/crawl4ai_service.py:306-329 | with the handler checked the runner makes one or two writes |
| CrawlService.RunnerCompletes | service/crawl4ai_service.py:318-329 | with the handler checked a serialisable run without a notify url ends completed with the serialised result; a failed run records only its error |
| CrawlService.TaskStore.constructor | service/crawl4ai_service.py:24 | the store starts with no hashes and no expiry times |
| CrawlService.TaskStore.HandleTaskStatus | service/crawl4ai_service.py:52-74 | an unknown or empty task is a 404 and nothing changes; otherwise the response, with the task removed exactly when the cleanup decision says so |
| CrawlService.TaskStore.HandleCrawlJob | service/crawl4ai_service.py:282-332 | the task id is "crawl_" and the token, its hash gets the job fields, and the reply names the task |
| CrawlService.TaskStore.Runner | service/crawl4ai_service.py:306-329 | as intended (see Findings: the handler is checked before notifying), the task's hash gets the writes of `RunnerWrites`, and a seven-day expiry is set exactly when the first write marks the job completed |
| CrawlService.CompletedJobReadsBack | service/crawl4ai_service.py:90-91 | a completed job reads back as completed with its stored result |
| ExceptionMiddleware.GuardRequestOutcomes | libs/exception_middleware.py:17-43 | a response passes through; cancellation and other non-Exception errors propagate; MemoryError gives 503; any other exception gives 500 naming only its class and the request id, never its message |
| ExceptionMiddleware.GuardRequest | libs/exception_middleware.py:17-43 | definition of `GlobalExceptionMiddleware.dispatch`; its properties are in GuardRequestOutcomes |
| ExceptionMiddleware.WithFailure | libs/exception_middleware.py:105-114 | a failure adds one to the count, records the time and opens the circuit once the count reaches the threshold |
| ExceptionMiddleware.Admit | libs/exception_middleware.py:69-80 | definition of the check before `call_next`; its properties are in RejectsExactlyWhileOpen, TimeoutClosesBeforeForwarding and StaysOpenWithinTimeout |
| ExceptionMiddleware.Settled | libs/exception_middleware.py:82-103 | definition of the bookkeeping after `call_next`; its properties are in ForwardedOutcome, CancellationAfterTimeoutStaysClosed and SuccessAfterTimeoutCloses |
| ExceptionMiddleware.Step | libs/exception_middleware.py:65-114 | definition of one request through `CircuitBreakerMiddleware.dispatch`; its properties are in HalfOpenBranchUnreachable, DispatchKeepsReachable, RunKeepsReachable, FailureAfterTimeoutReopens and CircuitBreakerMiddleware.Dispatch |
| ExceptionMiddleware.RejectsExactlyWhileOpen | libs/exception_middleware.py:69-80 | a request is rejected with 503 exactly when the circuit is open and the reset timeout has not passed, and a rejection changes nothing |
| ExceptionMiddleware.ForwardedOutcome | libs/exception_middleware.py:82-103 | a forwarded request's response or exception reaches the client; a status below 500 clears the count; a 5xx status or an exception caught by `except Exception` counts one failure; a cancellation or another non-`Exception` raise passes through and leaves the fields as the admission check left them |
| ExceptionMiddleware.TimeoutClosesBeforeForwarding | libs/exception_middleware.py:70-74 | after the timeout the circuit closes and the half-open count resets before the request goes on |
| ExceptionMiddleware.HalfOpenBranchUnreachable | libs/exception_middleware.py:87-94 | within one request the circuit is always closed after the check, so the half-open branch is never taken |
| ExceptionMiddleware.DispatchKeepsReachable | libs/exception_middleware.py:65-114 | a request keeps the reachable-state invariant: an open circuit has counted at least the threshold and the half-open count stays zero |
| ExceptionMiddleware.RunKeepsReachable | libs/exception_middleware.py:65-114 | any sequence of requests keeps that invariant and never counts a half-open success |
| ExceptionMiddleware.InitialReachable | libs/exception_middleware.py:60-63 | the constructor's state satisfies the invariant |
| ExceptionMiddleware.FailureAfterTimeoutReopens | libs/exception_middleware.py:70-111 | because the timeout does not clear the count, one failure after the timeout (a 5xx status or an `Exception`) reopens the circuit |
| ExceptionMiddleware.CancellationAfterTimeoutStaysClosed | libs/exception_middleware.py:70-103 | a cancellation after the timeout is not counted: the circuit stays closed with the count and last failure time unchanged |
| ExceptionMiddleware.SuccessAfterTimeoutCloses | libs/exception_middleware.py:70-88 | one success after the timeout closes the circuit and clears the count |
| ExceptionMiddleware.Burst | libs/exception_middleware.py:95-97 | a burst is n server errors at the same instant |
| ExceptionMiddleware.BurstOpens | libs/exception_middleware.py:105-111 | enough failures at one instant open a closed circuit |
| ExceptionMiddleware.StaysOpenWithinTimeout | libs/exception_middleware.py:75-80 | requests at the instant of the last failure leave an open breaker as it is |
| ExceptionMiddleware.CircuitBreakerMiddleware.constructor | libs/exception_middleware.py:48-63 | the settings are stored and the counters start closed and zero |
| ExceptionMiddleware.CircuitBreakerMiddleware.RecordFailure | libs/exception_middleware.py:105-114 | the fields become the failure-recorded state |
| ExceptionMiddleware.CircuitBreakerMiddleware.Dispatch | libs/exception_middleware.py:65-103 | the new fields and the response are those of one step of the breaker, in which only 5xx statuses and `Exception` raises count as failures |
| ExceptionMiddleware.CircuitBreakerMiddleware.Settle | libs/exception_middleware.py:82-103 | the bookkeeping after `call_next` from the state found then; a non-`Exception` raise changes nothing |
| RpcRetry.Recorded | rpc/client/base.py:41-48 | a timeout records RPCTimeoutError; a retried exception records RPCError "RPC name failed: message"; any other exception is not caught |
| RpcRetry.RetryFrom | rpc/client/base.py:38-51 | definition of the retry loop from a given attempt on; its properties are in CallWithRetry, RetryIgnoresLaterAttempts and AgreeFrom |
| RpcRetry.RetryResult | rpc/client/base.py:36-51 | definition of the result of a call through `with_timeout_and_retry`; its properties are in CallWithRetry, WithTimeoutIsOneAttempt and DefaultsTryThreeTimes |
| RpcRetry.CallWithRetry | rpc/client/base.py:36-51 | at most max_retries+1 attempts; the first success is returned; an exception that is not caught propagates unchanged; when every attempt fails the last recorded error is raised; the delays are retry_delay times 1, 2, ... between attempts and none after the last |
| RpcRetry.WithTimeout | rpc/client/base.py:58-69 | a value is returned; a timeout becomes RPCTimeoutError; any other exception propagates |
| RpcRetry.WithTimeoutIsOneAttempt | rpc/client/base.py:25-69 | `with_timeout` behaves as the retry wrapper with no retries and nothing caught |
| RpcRetry.DefaultsTryThreeTimes | rpc/client/base.py:12-51 | with the defaults a call that keeps failing with ConnectionError raises RPCError after three attempts |
| RpcRetry.RetryIgnoresLaterAttempts | rpc/client/base.py:38-48 | attempts after a success or a propagated exception are never consulted |
| RpcRetry.AgreeFrom | rpc/client/base.py:38-48 | two attempt sequences that agree up to the stopping attempt give the same result |
| GithubGraphql.ParseSigned | service/github_graphql_client.py:348 | `int()` succeeds only on non-empty text |
| GithubGraphql.ParseInt | service/github_graphql_client.py:348 | definition of `int()` on the header text; its properties are in ParseSigned, ParseIntRoundTrip and ParseDecimal |
| GithubGraphql.ParseIntRoundTrip | service/github_graphql_client.py:348 | `int(str(n)) == n` |
| GithubGraphql.ParseDecimal | service/github_graphql_client.py:348 | the decimal text of any integer, sign included, reads back as that integer |
| GithubGraphql.RepositoryQueryAllParts | service/github_graphql_client.py:321-333 | query, language and star bound give the stripped query, "language:L" and "stars:>=N" joined by spaces |
| GithubGraphql.RepositorySearchQuery | service/github_graphql_client.py:321-333 | definition of `_build_repository_search_query`; its properties are in RepositoryQueryAllParts, RepositoryQueryOnlyText, RepositoryQueryOnlyStars and SearchStringSkipsEmpty |
| GithubGraphql.RepositoryQueryOnlyText | service/github_graphql_client.py:327-333 | without language or stars the search string is the stripped query |
| GithubGraphql.RepositoryQueryOnlyStars | service/github_graphql_client.py:331-333 | a star bound alone, zero included, gives "stars:>=N" |
| GithubGraphql.IssueQueryBlank | service/github_graphql_client.py:338-339 | a query that strips to nothing contributes no part |
| GithubGraphql.IssueSearchQuery | service/github_graphql_client.py:335-342 | definition of `_build_issue_search_query`; its properties are in IssueQueryBlank, IssueQueryLeads, IssueQueryNoState and IssueQueryWithState |
| GithubGraphql.IssueQueryLeads | service/github_graphql_client.py:337-339 | a non-blank query goes before "is:issue" |
| GithubGraphql.IssueQueryNoState | service/github_graphql_client.py:336-342 | without a state the string is the stripped query then "is:issue", or "is:issue" alone |
| GithubGraphql.IssueQueryWithState | service/github_graphql_client.py:336-342 | with a state the string also ends in "state:" and the lower-cased state |
| GithubGraphql.SearchStringSkipsEmpty | service/github_graphql_client.py:333 | empty parts are skipped by the join |
| GithubGraphql.LoweredMessage | service/github_graphql_client.py:354 | the lowered message exists exactly when the entry is a dict whose message, or "", is text |
| GithubGraphql.RateLimitedErrors | service/github_graphql_client.py:352-358 | definition of the loop over the error entries in `_is_rate_limited`; its properties are in RateLimitedErrorsIff |
| GithubGraphql.RateLimitedErrorsIff | service/github_graphql_client.py:352-358 | the scan reports a rate limit exactly when some entry mentions "rate limit" or "rate-limit" or has type RATE_LIMITED |
| GithubGraphql.HeaderGet | service/github_graphql_client.py:346 | a header is absent exactly when no header has that name in any case |
| GithubGraphql.IsRateLimited | service/github_graphql_client.py:345-359 | definition of `_is_rate_limited`; its properties are in IsRateLimitedIff and ZeroRemainingIsRateLimited |
| GithubGraphql.IsRateLimitedIff | service/github_graphql_client.py:345-359 | a reply is rate limited exactly when the remaining header reads as zero or an error entry signals a rate limit |
| GithubGraphql.ZeroRemainingIsRateLimited | service/github_graphql_client.py:346-349 | "X-RateLimit-Remaining: 0" is a rate limit whatever the case of the header name |
| GithubGraphql.ContainsAuthError | service/github_graphql_client.py:362-371 | definition of `_contains_auth_error`; its properties are in ContainsAuthErrorIff |
| GithubGraphql.ContainsAuthErrorIff | service/github_graphql_client.py:362-371 | the scan reports an auth error exactly when some entry's message mentions an auth phrase or its type is FORBIDDEN or INSUFFICIENT_SCOPES |
| GithubGraphql.JoinMessagesText | service/github_graphql_client.py:310 | the messages, "Unknown error" for a missing one, are joined with "; " |
| GithubGraphql.Execute | service/github_graphql_client.py:270-319 | definition of `_execute`; its properties are in ExecuteTransportErrors, ExecuteChecksPayload and, through CheckPayload, the rows after it |
| GithubGraphql.CheckPayload | service/github_graphql_client.py:300-319 | definition of the payload checks of `_execute`; its properties are in WellFormedPayloadErrors, RateLimitComesFirst, AuthErrorReported, OtherErrorsReported and DataReturned |
| GithubGraphql.ExecuteTransportErrors | service/github_graphql_client.py:270-298 | timeout, request failure, 401, 403 with no requests remaining, other HTTP errors and an invalid JSON body each raise their own error |
| GithubGraphql.ExecuteChecksPayload | service/github_graphql_client.py:294-319 | a 2xx reply with a JSON body is judged by its payload alone |
| GithubGraphql.WellFormedPayloadErrors | service/github_graphql_client.py:303-353 | a payload's error list reads the same through both lookups |
| GithubGraphql.RateLimitComesFirst | service/github_graphql_client.py:300-302 | a rate limit is reported before any error entry is looked at |
| GithubGraphql.AuthErrorReported | service/github_graphql_client.py:304-309 | otherwise an auth error raises AuthenticationError with the first entry's message |
| GithubGraphql.OtherErrorsReported | service/github_graphql_client.py:310-312 | other errors are raised together, their messages joined with "; " |
| GithubGraphql.DataReturned | service/github_graphql_client.py:314-319 | without errors the data is returned, and missing or null data raises |
| GithubGraphql.Descend | service/github_graphql_client.py:199-241 | entering a container succeeds exactly when it is a dict |
| GithubGraphql.Truthful | service/github_graphql_client.py:242 | the kept nodes are exactly the truthy ones, no more than before |
| GithubGraphql.TruthfulAppend | service/github_graphql_client.py:242 | filtering keeps the order of the nodes and each repeated node: the filter of two parts joined is the two filters joined |
| GithubGraphql.TruthfulSingle | service/github_graphql_client.py:242 | a single node is kept exactly when it is truthy |
| GithubGraphql.TruthfulKeepsTruthy | service/github_graphql_client.py:242 | all-truthy nodes are kept unchanged |
| GithubGraphql.TruthfulAppendFalsy | service/github_graphql_client.py:242 | a trailing null node is dropped |
| GithubGraphql.ListNodes | service/github_graphql_client.py:199-260 | every node an endpoint returns is truthy |
| GithubGraphql.MissingContainerIsEmpty | service/github_graphql_client.py:238-260 | along an `or {}` path a missing or null container gives no nodes |
| GithubGraphql.NullSearchRaises | service/github_graphql_client.py:199-200 | `"search": null` makes the search endpoints raise AttributeError |
| GithubGraphql.ListedNodesInOrder | service/github_graphql_client.py:199-201 | nodes come back in order with the null ones dropped |
| GithubGraphql.PullRequestStates | service/github_graphql_client.py:236 | the states upper-cased one for one, or None when none are given |
| GithubGraphql.NewClient | service/github_graphql_client.py:167-178 | an empty token raises ValueError; otherwise the client has the GitHub endpoint and its three headers |
| GithubGraphql.ReadmeExpression | service/github_graphql_client.py:263 | the object expression is "HEAD:" followed by the path |
| GithubGraphql.ReadmeText | service/github_graphql_client.py:262-268 | definition of `get_readme`; its properties are in ReadmeExpression and ReadmeTextFound |
| GithubGraphql.ReadmeTextFound | service/github_graphql_client.py:266-268 | the README text is returned, and "" when the repository is missing |
| GithubService.Selection | service/github_service.py:15-25 | the first non-empty of repository name, code snippet and issue snippet picks the search type; with none the type is "repositories" and the query empty |
| GithubService.Search | service/github_service.py:11-48 | definition of `search_repositories`; its properties are in Selection, SearchUrl, UrlsFrom, ShippedTableSearch and SearchRepositories |
| GithubService.SearchUrl | service/github_service.py:29 | a missing rule or a rule without a search URL raises AttributeError |
| GithubService.Format | service/github_service.py:29 | definition of `str.format` on the search URL template; its properties are in FormatLiteral, FormatPlain, FormatField, FormatUnknownField, FormatOneField and QueryTemplateUrl |
| GithubService.FormatLiteral | service/github_service.py:29 | `str.format` copies brace-free text unchanged |
| GithubService.FormatPlain | service/github_service.py:29 | a brace-free template formats to itself |
| GithubService.FormatField | service/github_service.py:29 | a `{name}` field is replaced by its value |
| GithubService.FormatUnknownField | service/github_service.py:29 | a field with no value raises KeyError |
| GithubService.FormatOneField | service/github_service.py:29 | a template with one field gives the text around it with the value put in |
| GithubService.UrlsFrom | service/github_service.py:28-30 | one URL per page in order, each the formatted template, or the first page's error |
| GithubService.PageUrls | service/github_service.py:27-30 | the loop builds the URLs of pages 1 to `pages` |
| GithubService.Texts | service/github_service.py:45-47 | definition of the crawl texts of the results; its properties are in ContentList |
| GithubService.ContentList | service/github_service.py:45-47 | one crawl text per result, in order |
| GithubService.SearchRepositories | service/github_service.py:11-48 | the method computes the search on the rule table |
| GithubService.PageUrlsNumbered | service/github_service.py:28-30 | zero or fewer pages give no URLs, otherwise exactly `pages` URLs, page k at position k-1 |
| GithubService.ShippedTableSearch | service/github_service.py:13-29 | with the shipped rule table and at least one page the search raises AttributeError, since the rule is not found |
| GithubService.QueryTemplateUrl | service/github_service.py:29 | a template `prefix{query}suffix` gives prefix, query, suffix |
| QaMemory.MakeAnchor | mcp_service/qa_memory_tools.py:26-28 | the anchor is "[QA_REF " and the id and "]" |
| QaMemory.AnchorRoundTrip | mcp_service/qa_memory_tools.py:26-28 | the id can be read back from its anchor |
| QaMemory.AnchorInjective | mcp_service/qa_memory_tools.py:26-28 | different ids have different anchors |
| QaMemory.Render | mcp_service/qa_memory_tools.py:42-48 | definition of the `render` text; its properties are in RenderLines and AnchorIsFirstLine |
| QaMemory.RenderLines | mcp_service/qa_memory_tools.py:43-48 | the rendering is the anchor, "Q: " and the question, "A: " and the answer, on three lines |
| QaMemory.AnchorIsFirstLine | mcp_service/qa_memory_tools.py:42-48 | for an id without a newline the anchor is the rendering's first line |
| QaMemory.FormatResultItem | mcp_service/qa_memory_tools.py:31-65 | formatting succeeds exactly when the item is a dict with a qa_id, else raises the subscript's error; the result has the fourteen keys in order |
| QaMemory.FormattedLookup | mcp_service/qa_memory_tools.py:50-65 | every key of a formatted item reads its field's value |
| QaMemory.TextOrRenders | mcp_service/qa_memory_tools.py:38-39 | a question or answer renders as its text, a falsy one as "" |
| QaMemory.FormattedRender | mcp_service/qa_memory_tools.py:36-52 | the formatted item anchors the id and renders its question and answer |
| QaMemory.FormattedDefaults | mcp_service/qa_memory_tools.py:55-63 | scope and source default to {}, tags and evidence_refs to [], and the other fields are copied |
| QaMemory.FormatAll | mcp_service/qa_memory_tools.py:100 | every item is formatted in order, or the first failure is raised |
| QaMemory.ShownHits | mcp_service/qa_memory_tools.py:110-120 | one hit payload per result, in order, shown and not used |
| QaMemory.HitPayload | mcp_service/qa_memory_tools.py:113-119 | definition of a hit record's payload; its properties are in HitFlags and ShownHits |
| QaMemory.Reply | mcp_service/qa_memory_tools.py:135-139 | definition of the reply of `retrieve_qa_kb`; its properties are in RetrieveQaKb and ReplyResultsOneForOne |
| QaMemory.RetrieveQaKb | mcp_service/qa_memory_tools.py:78-139 | the reply carries the schema version (default 1), the formatted results and the meta (default {}); background hit recording is scheduled exactly when there are results, one shown hit each |
| QaMemory.ReplyResultsOneForOne | mcp_service/qa_memory_tools.py:96-139 | the reply lists the results formatted one for one, with version 1 and empty meta by default |
| QaMemory.HitFlags | mcp_service/qa_memory_tools.py:151-175 | a hit payload carries its id and its shown and used flags |
| QaMemory.RecordHitPayload | mcp_service/qa_memory_tools.py:151-175 | definition of the payload `qa_record_hit` sends; its properties are in RecordHitFlags |
| QaMemory.RecordHitFlags | mcp_service/qa_memory_tools.py:151-175 | the payload carries the id and the `shown` and `used` arguments under their own keys, whatever their order in the signature |
| QaMemory.UpsertCandidatePayload | mcp_service/qa_memory_tools.py:186-213 | definition of the payload `qa_upsert_candidate` sends; its properties are in UpsertDefaults |
| QaMemory.UpsertDefaults | mcp_service/qa_memory_tools.py:186-213 | left-out tags, scope and evidence become empty; given ones are sent unchanged |
| QaMemory.Execution | mcp_service/qa_memory_tools.py:247-254 | the execution dict holds exactly the given exit code and digests |
| QaMemory.ValidatePayload | mcp_service/qa_memory_tools.py:225-268 | the payload carries the evidence (default []) and the execution dict |
| BingUrl.UrlQuery | component/crawl4ai/html_parser/search/bing_html_parser.py:12 | the parsed query never contains a fragment |
| BingUrl.FirstValue | component/crawl4ai/html_parser/search/bing_html_parser.py:13-18 | the first value of a parameter exists exactly when the parameter is given |
| BingUrl.ParseQsl | component/crawl4ai/html_parser/search/bing_html_parser.py:13 | definition of `parse_qs` as a list of pairs; its properties are in ParseSingleParameter and FirstValue |
| BingUrl.ParseSingleParameter | component/crawl4ai/html_parser/search/bing_html_parser.py:13 | a single plain parameter parses to itself |
| BingUrl.Unquote | component/crawl4ai/html_parser/search/bing_html_parser.py:13 | definition of the unquoting `parse_qs` applies to each name and value; its properties are in UnquotePercentEncoded |
| BingUrl.UnquotePercentEncoded | component/crawl4ai/html_parser/search/bing_html_parser.py:13 | unquoting percent-encoded ASCII text gives it back |
| BingUrl.DecodeTarget | component/crawl4ai/html_parser/search/bing_html_parser.py:18-32 | a decoded target always starts with "http" |
| BingUrl.DecodeFromPairs | component/crawl4ai/html_parser/search/bing_html_parser.py:13-32 | from the parsed parameters, the result is the link itself or a URL starting with "http" |
| BingUrl.DecodeBingUrl | component/crawl4ai/html_parser/search/bing_html_parser.py:10-35 | the result is the link itself or a URL starting with "http" |
| BingUrl.DecodeTargetRoundTrip | component/crawl4ai/html_parser/search/bing_html_parser.py:18-30 | a two-character prefix then the base64 of an ASCII http target decodes to that target |
| BingUrl.DecodeBingUrlUsesFirstU | component/crawl4ai/html_parser/search/bing_html_parser.py:14-32 | the first `u` value decides; an undecodable one gives the link back |
| BingUrl.NoTargetKeepsLink | component/crawl4ai/html_parser/search/bing_html_parser.py:15-16 | a link without `u` is returned unchanged |
| Base64.RoundTrip | component/crawl4ai/html_parser/search/bing_html_parser.py:22 | base64-decoding an encoding gives the bytes back |
| Base64.Encode | service/crawl4ai_service.py:266 | definition of `b64encode`; its properties are in RoundTrip and CrawlService.PdfContentDecodes |
| Base64.Decode | component/crawl4ai/html_parser/search/bing_html_parser.py:22 | definition of `b64decode`; its properties are in RoundTrip and BingUrl.DecodeTargetRoundTrip |
| Utf8.AsciiDecodes | component/crawl4ai/html_parser/search/bing_html_parser.py:23 | ASCII bytes decode as UTF-8 to the same characters |
| Utf8.DecodeStrict | utils/http.py:62 | definition of `decode("utf-8")`; its properties are in AsciiDecodes and HttpClient.StreamErrorIffUndecodable |
| JsonText.Dumps | service/crawl4ai_service.py:114-119 | definition of `json.dumps` with its `default` handler and `ensure_ascii`; its properties are in CrawlService.ErrorLineShape, CrawlService.StreamLine, CrawlService.StreamLineCarriesResult and HttpClient.JsonBodySerialised |
| Values.Str | mcp_service/qa_memory_tools.py:44-46 | definition of `str()` as an f-string field renders a value; its properties are in QaMemory.TextOrRenders and QaMemory.FormattedRender |
| Values.Repr | mcp_service/qa_memory_tools.py:44-46 | definition of `repr()`, which `str()` uses for a value that is neither text nor a datetime; its properties are in QaMemory.FormattedRender |
| HttpClient.HeaderDict.constructor | utils/http.py:22 | a headers dict holds the caller's entries |
| HttpClient.SentHeaders | utils/http.py:32-33 | the sent headers set Accept-Encoding and keep every other header |
| HttpClient.SentData | utils/http.py:35-36 | the body is sent unchanged unless the content type is JSON and the body a dict, which is serialised |
| HttpClient.Request | utils/http.py:18-46 | a non-empty caller dict is updated in place; the request is sent with the new headers and body; a ConnectionError becomes InnerError 500 "Request to path failed"; other errors propagate |
| HttpClient.JsonBodySerialised | utils/http.py:35-36 | a JSON content type sends the dict's JSON text |
| HttpClient.CleanLine | utils/http.py:62-64 | a cleaned line has no surrounding white space |
| HttpClient.CleanLineKeepsClean | utils/http.py:62-64 | a clean line without "data:" is kept |
| HttpClient.CleanLineDropsField | utils/http.py:63-64 | "data: " and a payload gives the payload |
| HttpClient.Decoded | utils/http.py:62 | each line is decoded as strict UTF-8 |
| HttpClient.CleanedLines | utils/http.py:62-64 | each line that decodes is stripped and loses a leading `data:`; a line that does not decode stays marked as such |
| HttpClient.StreamOf | utils/http.py:61-66 | no more lines are yielded than there are lines |
| HttpClient.StreamOfYieldsNonEmpty | utils/http.py:65-66 | every yielded line is a non-empty line of the input |
| HttpClient.StreamOfErrorIffNone | utils/http.py:62 | the stream ends in an error exactly when some line did not decode |
| HttpClient.StreamOfAllPresent | utils/http.py:61-66 | with every line decoded, the stream is the non-empty lines in order, without error |
| HttpClient.StreamFrom | utils/http.py:61-66 | no more lines are yielded than the body has |
| HttpClient.StreamLinesAreClean | utils/http.py:65-66 | every yielded line is non-empty and has no surrounding white space |
| HttpClient.StreamErrorIffUndecodable | utils/http.py:62 | the stream stops with an error exactly when some line does not decode |
| HttpClient.StreamYieldsCleaned | utils/http.py:61-66 | when every line decodes, exactly the non-empty cleaned lines are yielded, in order |
| HttpClient.StreamLines | utils/http.py:61-66 | the loop yields what the stream specification says |
| HttpClient.Events | utils/http.py:81-85 | one event per line: the done marker exactly for "[DONE]", a JSON line otherwise |
| HttpClient.StreamEvents | utils/http.py:81-85 | the loop produces those events |
| HttpClient.StreamRequest | utils/http.py:48-66 | as intended the request goes out with the sent headers, the sent body and `stream=True`; a received response yields exactly the stream of its body's lines; an unserialisable body, a connection failure (InnerError 500) and any other exception come back as `request` gives them; the caller's headers change as `request` changes them |
| HttpClient.StreamRequestDiscrepancy | utils/http.py:60 | as written every stream raises AttributeError, while the intended stream yields the payload of a `data:` line |
| HttpClient.StreamRequestAsWritten | utils/http.py:60 | definition of `_stream_request` as written; its properties are in StreamRequestDiscrepancy |
| ApiKeyAuth.FirstIndex | service/api_key_service.py:106-111 | the first row from `from` that matches |
| ApiKeyAuth.FindByName | service/api_key_service.py:106-111 | the first row whose name the database compares equal, or none when no row matches |
| ApiKeyAuth.Identify | libs/api_key_auth.py:41-45 | a row is used exactly when the lookup finds one whose name equals the client id; otherwise BadRequestError |
| ApiKeyAuth.ExactNamesIdentify | libs/api_key_auth.py:41-45 | with exact name comparison a client is accepted exactly when some row has its name |
| ApiKeyAuth.CaseInsensitiveLookupRejected | libs/api_key_auth.py:44-45 | a row found by a case-insensitive database under a differently-cased name is rejected |
| ApiKeyAuth.LoadDocument | libs/api_key_auth.py:68 | the description is read exactly when it holds JSON |
| ApiKeyAuth.StoredParams | libs/api_key_auth.py:68-69 | the stored params exist exactly when the description is a dict with "auth_params" |
| ApiKeyAuth.FirstUnregistered | libs/api_key_auth.py:47-49 | none exactly when every requested scope is registered; otherwise an unregistered one |
| ApiKeyAuth.ScopeError | libs/api_key_auth.py:46-49 | the check fails exactly when the client has a scope and some requested scope is not among its space-separated pieces |
| ApiKeyAuth.OwnScopesAccepted | libs/api_key_auth.py:46-49 | the client's own scopes always pass |
| ApiKeyAuth.RedirectError | libs/api_key_auth.py:50-52 | the redirect check fails exactly when the client registered URIs and the requested one is not among them, with the source's message |
| ApiKeyAuth.AuthorizeError | libs/api_key_auth.py:41-52 | an unknown client gives BadRequestError, then the scope check, then the redirect check; every error is BadRequestError |
| ApiKeyAuth.Strings | libs/api_key_auth.py:53 | a list of strings dumps to a list of the same length |
| ApiKeyAuth.OptionalFields | libs/api_key_auth.py:53 | only state and scopes are left out when None |
| ApiKeyAuth.DumpLookup | libs/api_key_auth.py:53 | the required fields are found in the dump |
| ApiKeyAuth.DumpFields | libs/api_key_auth.py:53 | the dump has no code and holds the challenge, the redirect URI and whether it was explicit |
| ApiKeyAuth.GrantDocument | libs/api_key_auth.py:55-56 | the document holds the client information and a dict of params |
| ApiKeyAuth.StoredFields | libs/api_key_auth.py:53-54 | the params with the code added hold the code and the three required fields |
| ApiKeyAuth.GrantDocumentParams | libs/api_key_auth.py:55-69 | the written document reads back as those params |
| ApiKeyAuth.Granted | service/api_key_service.py:52-68 | updating a row keeps the table's length |
| ApiKeyAuth.GrantedRow | service/api_key_service.py:61-66 | with unique ids only the row with that id gets the new description |
| ApiKeyAuth.GrantedKeepsIdentity | libs/api_key_auth.py:57 | storing a grant keeps every row's name, so the client is found at the same row |
| ApiKeyAuth.KeyStore.constructor | service/api_key_service.py:106-111 | the store holds the rows and the database's name comparison |
| ApiKeyAuth.KeyStore.Authorize | libs/api_key_auth.py:39-58 | on an error nothing is stored and the error is raised; otherwise the grant document is stored on the client's row and the redirect carries the code and state |
| ApiKeyAuth.KeyStore.RevokeToken | libs/api_key_auth.py:142-145 | revoking changes nothing |
| ApiKeyAuth.LoadCode | libs/api_key_auth.py:63-81 | an unknown client is BadRequestError; a loaded code is the presented one and carries the scopes given |
| ApiKeyAuth.LoadCodeFromGrant | libs/api_key_auth.py:68-81 | against a stored grant the granted code is loaded and any other code is UnauthorizedError |
| ApiKeyAuth.LoadAuthorizationCodeAsWritten | libs/api_key_auth.py:60-84 | as written the code's scopes are the client's whole scope text as one item, expiring in 30000 seconds |
| ApiKeyAuth.ClientScopes | libs/api_key_auth.py:48 | the client's registered scopes always pass its own scope check |
| ApiKeyAuth.LoadAuthorizationCode | libs/api_key_auth.py:60-84 | as intended a code carries the client's scopes, expires in 30 seconds and names the presented code and the client |
| ApiKeyAuth.ScopeText | libs/api_key_auth.py:106 | the scope text is absent exactly when there are no scopes |
| ApiKeyAuth.ExchangeAuthorizationCode | libs/api_key_auth.py:86-107 | an unknown client is BadRequestError, then the scope check; a token is the row's hash key, lasts 36000 seconds and refreshes with the API key |
| ApiKeyAuth.ExchangeFromGrant | libs/api_key_auth.py:98-107 | a code exchanged against its own grant yields the row's token |
| ApiKeyAuth.AuthorizeThenLoad | libs/api_key_auth.py:39-84 | after authorize, the issued code loads and any other code is refused |
| ApiKeyAuth.AuthorizeLoadExchange | libs/api_key_auth.py:39-107 | the intended flow: authorize, load and exchange give the row's token |
| ApiKeyAuth.MultiScopeCodeRefused | libs/api_key_auth.py:72-97 | as written a client with two or more scopes cannot exchange its code |
| ApiKeyAuth.WholeScopeRefused | libs/api_key_auth.py:94-97 | a scope text holding a space, asked for whole, is refused with the message naming it |
| ApiKeyAuth.LoadRefreshToken | libs/api_key_auth.py:109-118 | an unknown client is BadRequestError, a token other than the API key UnauthorizedError; a loaded token carries the client's scope |
| ApiKeyAuth.ExchangeRefreshToken | libs/api_key_auth.py:120-140 | an unknown client is BadRequestError, a wrong token UnauthorizedError, then the scope check; the new token is the row's |
| ApiKeyAuth.RefreshRepeats | libs/api_key_auth.py:109-140 | the refresh token an exchange issues is accepted by the next refresh |
| ApiKeyAuth.CodeTokenRefreshes | libs/api_key_auth.py:102-118 | the refresh token a code exchange issues is accepted by load_refresh_token |

## Left out

General:
- Concurrency is not modelled. This covers the pool's lock, background tasks, `asyncio.gather`, `create_task` and the interleaving of requests through the middleware. Each operation is modelled as one uninterrupted step.
- Logging is not modelled. Neither are `print` calls, `print_stats`, or `sleep` (only the retry delays are recorded, as values).
- Clocks, memory sampling, random ids, `secrets.token_urlsafe` and UUIDs are parameters.
- Time is a real number of seconds. Floating-point rounding is not modelled.
- Python's `lower()` covers ASCII and the Kelvin sign only, and `upper()` (`Text.Upper`) ASCII letters only: non-ASCII letters keep their case and no length-changing mapping such as "ß" to "SS" is made; its only use is on GraphQL enum names. `int()` accepts ASCII digits only. `repr` of object addresses and of non-printable Unicode is not modelled.

Crawler pool and crawl service:
- The browser engine is left out: starting, running and closing crawlers, `arun`, `arun_many`, the dispatcher and the adaptive crawler's digest are outcomes given as parameters.
- CrawlerPool.Pool.GetCrawler: `_sig` (a hash of the browser configuration's JSON) is the abstract parameter `sig`. Hash collisions are not considered.
- The `html_parser` decorator's class registration is modelled as `ParserRegistry.Register` on a parser value. Classes themselves are not modelled.
- `handle_crawl_request` (service/crawl4ai_service.py:131-252) is modelled only through its URL normalisation, rule lookup and result processing. These are left out:
  - the loading of `BrowserConfig` and `CrawlerRunConfig`;
  - the memory bookkeeping;
  - the recursive adaptive-crawl branch (lines 210-228), whose value is discarded;
  - the HTTP 500 wrapping of its errors.
- `_get_memory_mb` is a parameter.
- The datetime default handler of `stream_results` is modelled as the Unknown-type TypeError it raises for anything other than a datetime.
- CrawlService.StreamResults: the result renderer is a parameter. The intended and the as-written rendering are each proved separately (StreamLineCarriesResult, StreamAsWrittenOnlyErrors).
- Redis expiry is recorded as a time per key. Keys are not actually dropped when they expire.
- `CrawlRule` fields the core only passes through (the CSS selector, LLM settings) are carried as values and are not interpreted.

Exception middleware and RPC retry:
- The half-open success branch (libs/exception_middleware.py:89-94) is modelled. It is unreachable without interleaving requests, and HalfOpenBranchUnreachable proves that.
- `asyncio.TimeoutError` and the builtin `TimeoutError` are one exception kind, as they are from Python 3.11 on.
- RpcRetry.IsOsError: only the built-in subclasses of `OSError` are listed. The source's `retry_on` also catches library subclasses such as `ssl.SSLError`, `socket.gaierror` and the `requests.RequestException` family. An exception is modelled by its class name alone, without a class hierarchy, so the default `retry_on` treats those library classes as not caught. A caller's own `retryOn` parameter can include them.
- The `timeout` itself is not modelled. An attempt that times out is an attempt whose outcome is a TimeoutError.

GitHub GraphQL client and GitHub service:
- The GraphQL query texts and the `httpx` client are not modelled. `_execute` is a function of what the post gave (timeout, request error, or status, headers and JSON body).
- `get_repository` returns `data.get("repository") or {}`. This is the `Descend` step with `or {}`; there is no separate member for it.
- The module's description says a null search result yields no nodes. The code raises instead, and the model follows the code (NullSearchRaises).
- `str.format` is modelled for literal text, doubled braces and named fields. Format specs, conversions and attribute or index fields are not.
- GithubService.SearchRepositories: `CrawlJobPayload(urls=urls)` validates each formatted URL as a pydantic `HttpUrl`. That can normalise the URL (percent-encoding, a lower-case host, a trailing "/" after a bare host) or raise ValidationError for a malformed one, and the crawl receives the normalised strings. The model does not normalise: the parameter `crawl` stands for that validation, `handle_crawl_request` and `CrawlJobResponse.model_validate` together, and the URL lemmas are about the formatted URLs before normalisation.
- The payload's configurations default to `{}`, never None, so both `else` branches of `search_repositories` (lines 32-39) always run. The browser configuration is the default merged with `{}`, the crawler configuration is the default merged with `screenshot` False, and `stream` is False. These settings only reach the crawl and are not modelled.

QA memory tools:
- The QA memory service is not modelled. Its replies are parameters.
- The background recording task is modelled as the hit payloads it would send. Its cancellation and the swallowing of its exceptions are not modelled.

Bing decoder:
- `urlparse` is modelled for the query part only.
- BingUrl.UrlQuery: of the ValueErrors of `urlsplit`, only the unbalanced bracket is modelled. Two checks are not: the text between the brackets must be a valid IPv6 or IPvFuture address (`_check_bracketed_netloc`), and a non-ASCII netloc must not gain a reserved character under NFKC normalisation (`_checknetloc`). For such URLs the model finds a query where the code raises.
- `base64.b64decode` is modelled in its lenient form (no `validate=`). All its failures, ValueError and `binascii.Error`, are one decoding failure, and each of them gives the link back.

HTTP client:
- `requests` itself is a parameter, and so is `iter_lines`, which splits the body into lines.
- The message of the UnicodeDecodeError is simplified.
- `json.loads` and the model construction in `_stream_request_with_model` are left out. Each non-"[DONE]" line becomes a JSON-line event.
- `_request_with_model` (utils/http.py:87-101) is not modelled. It calls the same undefined `_request` and then constructs a pydantic model.

API-key provider:
- The OAuth client registration, `get_client` and `load_access_token` are not modelled.
- The `json.dumps`/`json.loads` round trip of the stored description is taken to be the identity on the document.
- The messages of JSONDecodeError and of pydantic's ValidationError are simplified.
- ApiKeyAuth.LoadCode: `model_validate` also checks the types of `code_challenge`, `redirect_uri` and `redirect_uri_provided_explicitly`, and raises ValidationError for a wrong one. The model checks only that the fields are present and passes the stored values through unchecked.
- `construct_redirect_uri` is left out: the redirect is a record of the base URI, the code and the state.
- The `token_type` and the `resource` parameter are not modelled. A redirect URI is a string.
- The database's name comparison is the parameter `collate`.

## Findings

| source | as written | input that shows it | evidently intended | confidence | as-written member | corrected member |
|---|---|---|---|---|---|---|
| service/crawl4ai_service.py:258,264,275 | the code reads `crawl_rule.crawler_result_type`, but `CrawlRule` names the field `crawl_result_type` (configs/crawl4ai/types.py:87), so every call raises AttributeError | a rule whose result type is html, and a result whose `cleaned_html` is "x" | the rule's `crawl_result_type` selects the content, so the html rule gives crawl_text "x" | not executed | CrawlService.ProcessedResultAsWrittenLosesContent | CrawlService.ProcessedResultFields |
| service/crawl4ai_service.py:114 | `create_processed_result` is async and is not awaited, so `json.dumps` meets a coroutine; the default handler raises TypeError("Unknown type") and every result is streamed as an error record | any result with a url | each line is the processed result's JSON | not executed | CrawlService.StreamAsWrittenOnlyErrors | CrawlService.StreamLineCarriesResult |
| service/crawl4ai_service.py:309,323 | without a notify url the handler is None, yet `notify_handler.notify(result)` is awaited, so the AttributeError overwrites the completed status with failed | a job without `notify_url` whose crawl succeeds | the job stays completed with its result; notification only when a handler exists | not executed | CrawlService.RunnerAsWrittenAlwaysFails | CrawlService.RunnerCompletes |
| utils/http.py:60 | `_stream_request` calls `self._request`, which `BaseClient` does not define, so every stream raises AttributeError | a body with the line "data: hello" | the request is made with `request(..., stream=True)` and "hello" is yielded | not executed | HttpClient.StreamRequestDiscrepancy | HttpClient.StreamRequest |
| libs/api_key_auth.py:72 | the code's scopes are `[client.scope]`, the whole space-separated scope text as one item, and the exchange then checks that item against the split scopes | a client registered with scope "read write" | the code carries the scopes "read" and "write", and the exchange succeeds | not executed | ApiKeyAuth.MultiScopeCodeRefused | ApiKeyAuth.AuthorizeLoadExchange |
| libs/api_key_auth.py:73,83 | the code expires `now + 30000` seconds later, while the comment at line 82 gives a 30-second lifetime | any code loaded at time t: it expires at t + 30000 | it expires at t + 30 | not executed | ApiKeyAuth.LoadAuthorizationCodeAsWritten | ApiKeyAuth.LoadAuthorizationCode |
