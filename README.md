# IssueWise core, modelled in Dafny

IssueWise is an agent that reads an issue on GitHub, gathers code context from the repository, and posts a suggested fix as a comment. This project models the parts of it that make decisions, and proves properties of them:

- **`run_agent`** (agent/core.py): the loop between a model provider and four tools. The provider is a scripted sequence of replies. The tools are one abstract function, indexed by the number of executions so far.
  - Module `Agent`.
  - The per-call body is `HandleToolCall` (its function is `ProcessCall`).
  - The inner loop is `ProcessToolCalls` (its function is `ProcessCalls`).
  - The outer loop is `RunAgent` (its function is `Run`).
  - Batch and run lemmas are proved for any handler with the per-call shape `CallShape`. `AgentHandlerWellBehaved` shows the agent's handler has that shape.
- **tools/utils.py**: the JWT claims, the rate-limit-aware request loop, the installation lookup, the installation-token cache, and the blob filter of the repository listing.
  - Module `Utils`.
  - The cache is the class `TokenCache` with a `map` field.
  - A sequence of cache calls is the function `TokenCalls`.
- **tools/github_tools.py**: the issue-path parser, the two request URLs, and the status handling of `get_issue_details` and `post_comment`.
  - Module `GithubTools`.
  - Python's `str.strip('/')` and `str.split('/')` are written out.
- **tools/code_index.py**: the 429 retry policy, the file-extension filter, and the "top two plus README.md" selection.
  - Module `CodeIndex`.
  - `os.path.splitext` is written out.
  - Python's stable `sorted(..., reverse=True)` is a stable descending insertion sort.
- `Common` holds `Option`, `Result`, a JSON value type, and ASCII `lower()`, `in` and `str(int)` on strings.

Outside inputs are explicit parameters:

- HTTP responses.
- Clock readings.
- The signed assertion (`jwt`).
- The tool results.
- The similarity scores (integers).
- The file contents.

Three behaviours of the code that the model keeps as written:

- `get_installation_id` has no organisation-level fallback. It fails on any status other than 200.
- Every dict result of `get_issue_details` overwrites the description cache. An earlier capture does not win.
- The step counter counts allowed tool executions, not provider turns. It is compared with `MAX_STEPS` only after a whole batch.

## Model

| member | source | states |
|---|---|---|
| Common.Lower | tools/utils.py:49 | `lower()` keeps the length and lower-cases each ASCII letter in place |
| Common.ContainsAt | tools/utils.py:49 | `sub in s` holds whenever `sub` occurs at some position of `s` |
| Utils.JwtPayload | tools/utils.py:18-23 | the claims are issued now, expire 600 seconds later, and are issued by the application id |
| Utils.BearerHeaders | tools/utils.py:31-34 | exactly the two headers: `Authorization: Bearer <credential>` and the v3 `Accept` |
| Utils.RetryDecision | tools/utils.py:38-60 | returns whenever a rate-limit header is missing. Otherwise it waits exactly when (403 and the lower-cased body contains "rate limit") or remaining ≤ 2. The wait is `max(reset - now + 5, 0)` |
| Utils.GithubRequest | tools/utils.py:28-60 | every attempt sends the same verb, url, headers and body. The default headers are built from the assertion once. Each wait is the decision on that attempt's response. The response returned is the first one whose decision is Return |
| Utils.InstallationId | tools/utils.py:63-71 | fails on any status other than 200. On 200 it succeeds exactly when the body has an `id` field (restricted to integers, see Left out), and returns that id |
| Utils.ParseTokenData | tools/utils.py:86-88 | succeeds exactly when `token` and `expires_at` are present (restricted to a string and an integer, see Left out), and returns both |
| Utils.TokenStep | tools/utils.py:74-91 | exchanges exactly when the entry is missing or within 30 s of expiry. A fresh entry is returned with the cache unchanged. A non-201 exchange fails and leaves the cache unchanged. A 201 exchange replaces the entry, and the returned token is the stored one. Other installations are never touched |
| Utils.TokenCache.constructor | tools/utils.py:12 | the cache starts empty |
| Utils.TokenCache.GetInstallationToken | tools/utils.py:74-91 | the result and the new map are those of `TokenStep`. The exchange request goes out exactly when `TokenStep` exchanges, and it targets the installation's `access_tokens` URL |
| Utils.TokenCalls | tools/utils.py:74-91 | a sequence of calls yields one result per call and never un-counts exchanges |
| Utils.FreshCallsReuse | tools/utils.py:77-79 | while the cached token stays fresh, every call returns it, with no exchange and no change to the cache |
| Utils.ExactlyOneExchange | tools/utils.py:77-91 | starting without a fresh entry, calls within the new token's validity make exactly one exchange, and all of them return that token |
| Utils.CallsLeaveOthers | tools/utils.py:90 | calls for one installation leave every other installation's entry as it was |
| Utils.BlobPathsSucceeds | tools/utils.py:112 | the comprehension succeeds exactly when every item has a `type`, and every blob also has a `path` |
| Utils.BlobPathsAppend | tools/utils.py:112 | the listing keeps the tree order: the paths of `a + b` are the paths of `a` followed by those of `b` |
| Utils.BlobPathsMembers | tools/utils.py:112 | a path is listed exactly when some blob item carries it |
| Utils.TreeItems | tools/utils.py:111 | a `tree` list always yields its items, and a missing `tree` yields none |
| Utils.RepoFilesFromResponse | tools/utils.py:108-113 | fails on any status other than 200. A missing tree gives the empty list. A tree list gives the blob paths of the tree |
| Utils.FetchRepoFiles | tools/utils.py:94-113 | the installation lookup goes first. A failed lookup or token fetch fails the call. The cache evolves as in `TokenStep`. The last request is the recursive tree listing of `ref` with the token, and the result is that of `RepoFilesFromResponse`. Exactly the requests that went out are listed: the lookup, then the token exchange when `TokenStep` exchanges, then the tree listing when a token was obtained |
| Utils.BlobPaths | tools/utils.py:112 | the comprehension over the tree items; characterised by `BlobPathsSucceeds`, `BlobPathsAppend` and `BlobPathsMembers` |
| Utils.IsFresh | tools/utils.py:78 | an entry is handed out only while its expiry is more than 30 seconds away; used by `TokenStep` |
| Utils.SaysRateLimit | tools/utils.py:49 | `"rate limit" in text.lower()`; used by `RetryDecision` |
| Utils.InstallationRequest | tools/utils.py:65-66 | the GET of `/repos/{owner}/{repo}/installation` with the assertion's headers; the first request of `GetIssueDetails`, `PostComment` and `FetchRepoFiles` |
| Utils.ExchangeRequest | tools/utils.py:81-82 | the POST to `/app/installations/{id}/access_tokens` with the assertion's headers; stated by `GetInstallationToken` |
| Utils.TreeRequest | tools/utils.py:101-107 | the GET of `/repos/{owner}/{repo}/git/trees/{ref}?recursive=1` with the token; stated by `FetchRepoFiles` |
| GithubTools.Strip | tools/github_tools.py:6 | the result neither starts nor ends with `/` |
| GithubTools.Split | tools/github_tools.py:6 | at least one segment, and no segment contains `/` |
| GithubTools.JoinSplit | tools/github_tools.py:6 | joining the segments with `/` gives back the string |
| GithubTools.SplitLength | tools/github_tools.py:6 | the number of segments is the number of slashes plus one |
| GithubTools.SplitCons | tools/github_tools.py:6 | splitting `x/y`, with `x` slash-free, gives `x` followed by the segments of `y` |
| GithubTools.FetchGithubIssue | tools/github_tools.py:4-13 | an accepted path yields slash-free owner, repo and number |
| GithubTools.ParseRoundTrip | tools/github_tools.py:5-11 | `/owner/repo/issues/num`, with non-empty slash-free parts, parses to `(owner, repo, num)` |
| GithubTools.StripIssuePath | tools/github_tools.py:6 | stripping `/owner/repo/issues/num/rest` removes the leading slash and only the trailing slashes of `rest` |
| GithubTools.ParseExtraSegments | tools/github_tools.py:6-11 | extra trailing segments are accepted and ignored, because the test is `>= 4` |
| GithubTools.LeadingSlashIgnored | tools/github_tools.py:6 | a leading `/` never changes the result |
| GithubTools.TrailingSlashIgnored | tools/github_tools.py:6 | a trailing `/` never changes the result |
| GithubTools.AcceptedShape | tools/github_tools.py:6-11 | every accepted path strips to `owner/repo/issues/num` followed by nothing or by `/...`, and owner is non-empty |
| GithubTools.RejectsShortPaths | tools/github_tools.py:6-13 | a path with fewer than four segments after stripping is rejected |
| GithubTools.IssueUrl | tools/github_tools.py:19 | `https://api.github.com/repos/{owner}/{repo}/issues/{issue_num}`; stated by `GetIssueDetails` and `CommentsUrl` |
| GithubTools.CommentsUrl | tools/github_tools.py:34 | the comment URL is the issue URL followed by `/comments`, under the API base |
| GithubTools.IssueDetailsFromResponse | tools/github_tools.py:25-28 | succeeds exactly on status 200 with an object body, and returns `body` (None when it is absent) |
| GithubTools.PostCommentFromResponse | tools/github_tools.py:41-44 | succeeds exactly on status 201, and returns the decoded reply |
| GithubTools.GetIssueDetails | tools/github_tools.py:16-28 | the installation lookup goes first. A failed lookup or token fetch fails the call. The cache evolves as in `TokenStep`. The last request is a GET of the issue URL with the token, and the result is that of `IssueDetailsFromResponse`. Exactly the requests that went out are listed: the lookup, then the token exchange when `TokenStep` exchanges, then the issue GET when a token was obtained |
| GithubTools.PostComment | tools/github_tools.py:31-44 | the same order of requests. The last request is a POST to the comments URL with `{"body": comment}`, and the result is that of `PostCommentFromResponse`. Exactly the requests that went out are listed, as for `GetIssueDetails` |
| CodeIndex.Is429AsWritten | tools/code_index.py:101-102 | the source's test: the response is truthy and its status is 429 |
| CodeIndex.Is429 | tools/code_index.py:101-102 | the corrected test: the response's status is 429 |
| CodeIndex.AsWrittenMissesRequests429 | tools/code_index.py:101-102 | the source's status test rejects a `requests` response with status 429, while the corrected test accepts it |
| CodeIndex.Is429Corrected | tools/code_index.py:101-102 | the corrected test accepts everything the source's test does, agrees with it on truthy responses, and holds exactly when the status is 429 |
| CodeIndex.BackoffIsPower | tools/code_index.py:104-105 | after k doublings the delay is `delay * 2^k` |
| CodeIndex.AsyncRetryOn429 | tools/code_index.py:96-107 | for a given rate-limit test, at most `max(max_retries, 0)` calls. Every wait follows a failure the test accepts, and the k-th wait is `delay * 2^k`. A returned value, or a raised failure the test rejects, comes from the last call with no further attempt. When every attempt is rate-limited, all attempts are used and None is returned |
| CodeIndex.AsWrittenRetryReraises429 | tools/code_index.py:96-107 | with the source's test, a `requests` 429 failure on the first call is re-raised at once: one call, no wait |
| CodeIndex.CorrectedRetryWaitsOn429 | tools/code_index.py:96-107 | with the corrected test, the same failure is followed by a wait of `delay` and a second call |
| CodeIndex.RetryWithDefaults | tools/code_index.py:96-107 | with the corrected test, the defaults and three 429s: three calls, waits 1, 2, 4, and None returned |
| CodeIndex.RFind | tools/code_index.py:121 | the last index of the character, or -1 when it is absent |
| CodeIndex.SplitExt | tools/code_index.py:121 | root plus extension is the path. The extension is empty, or a dot followed by no dot and no slash |
| CodeIndex.IsIncluded | tools/code_index.py:120-123 | `os.path.splitext(path)[1].lower()` is one of the six extensions; characterised by `IncludedEndsWithExtension` and the `SplitExt` lemmas |
| CodeIndex.IncludedEndsWithExtension | tools/code_index.py:120-123 | a kept path ends, case-insensitively, with one of the six extensions |
| CodeIndex.RFindAppend | tools/code_index.py:121 | the last occurrence in `a + b` is in `b` when `b` holds the character, and in `a` otherwise |
| CodeIndex.ExtensionOfLastComponent | tools/code_index.py:121 | the extension of `dir/name` is that of `name` |
| CodeIndex.NamedFileExtension | tools/code_index.py:121 | `stem.ext`, with a stem that is not all dots, has extension `.ext` |
| CodeIndex.HiddenFileHasNoExtension | tools/code_index.py:121 | a name starting with its only dot has no extension |
| CodeIndex.DocumentFor | tools/code_index.py:120-131 | a path yields a document exactly when it is kept and its content is fetched, and the document carries that path and content |
| CodeIndex.KeptDocumentsMembers | tools/code_index.py:120-131 | the documents are exactly those of the kept listed paths whose fetch succeeded |
| CodeIndex.KeptDocuments | tools/code_index.py:118-131 | the documents of the kept paths in path order, at most one per path; characterised by `KeptDocumentsMembers` and `KeptDocumentsAppend` |
| CodeIndex.KeptDocumentsAppend | tools/code_index.py:120-131 | the documents of `a + b` are those of `a` followed by those of `b`, so they keep the path order |
| CodeIndex.IndexedDocuments | tools/code_index.py:118-131 | `KeptDocuments` with the extension filter; characterised by `IndexedDocumentsMembers` |
| CodeIndex.IndexedDocumentsMembers | tools/code_index.py:120-131 | only paths with an included extension become documents |
| CodeIndex.FetchDocuments | tools/code_index.py:118-131 | the loop builds exactly the indexed documents of the paths |
| CodeIndex.BuildRepoIndex | tools/code_index.py:109-131 | a re-raised listing failure fails the build. A listing of None fails it when it is iterated, which is unless a description is given and its embedding is invalid; in that case the selection returns `[]` first and the build succeeds with no documents. Otherwise the documents are the indexed documents of the selected paths (when a description is given) or of all paths |
| CodeIndex.ScoredFiles | tools/code_index.py:67-84 | the validly scored paths in input order, no more than the paths; characterised by `ScoredFilesMembers` and `ScoredFilesAppend` |
| CodeIndex.ScoredFilesAppend | tools/code_index.py:69-84 | the scored files of `a + b` are those of `a` followed by those of `b`, so they keep the input order |
| CodeIndex.ScoredFilesMembers | tools/code_index.py:67-86 | exactly the paths with a valid score are scored, with their scores |
| CodeIndex.InsertDesc | tools/code_index.py:88 | insertion adds exactly one element |
| CodeIndex.InsertDescSorted | tools/code_index.py:88 | insertion keeps the order descending |
| CodeIndex.SortDesc | tools/code_index.py:88 | the result is descending and is a permutation of the input; stable by `SortDescStable` |
| CodeIndex.InsertDescWithScore | tools/code_index.py:88 | an inserted entry comes before the entries of its own score, and the entries of every other score keep their order |
| CodeIndex.SortDescStable | tools/code_index.py:88 | the sort is stable: for each score, the entries with that score keep their input order, which decides ties in the top two |
| CodeIndex.TopTwo | tools/code_index.py:88 | `min(2, n)` paths, position by position the paths of the two highest-scored files `TopTwoScored` |
| CodeIndex.TopTwoAreHighest | tools/code_index.py:88 | the top two are drawn from the scored files in descending order, and score at least as high as every other file |
| CodeIndex.PrefixIsHighest | tools/code_index.py:88 | a prefix of a descending list is descending and dominates the rest |
| CodeIndex.SelectTop | tools/code_index.py:88-94 | README.md, when listed but not in the top two, is put in front. Otherwise the top two are unchanged |
| CodeIndex.Selection | tools/code_index.py:58-94 | `[]` for an invalid issue embedding, otherwise `SelectTop` of the scored files; characterised by `SelectionBounds`, `TopTwoAreHighest` and `SelectTop` |
| CodeIndex.SelectionBounds | tools/code_index.py:63-94 | at most three entries, all drawn from the input paths |
| CodeIndex.SelectRelevantFilesSemantic | tools/code_index.py:63-94 | the method's result is the selection |
| Agent.UserPrompt | agent/core.py:48-51 | the user message naming the issue URL and the branch; stated by `AgentRun` |
| Agent.InitialState | agent/core.py:43-54 | counter 0, empty cache, the system and user messages, and the start event; stated by `AgentRun` |
| Agent.UnknownToolMessage | agent/core.py:120-123 | the error text for an unknown tool, naming it and listing three tools as the source does; stated by `UnknownToolRejected` |
| Agent.Overrides | agent/core.py:98-103 | `issue_description` is present, the cache is truthy, and the two differ; used by `OverrideReruns` and `NoOverrideRunsOnce` |
| Agent.CaptureDescription | agent/core.py:92-96 | None exactly when neither title nor body is truthy. Otherwise `title + "\n" + body`, failing when one of them is None |
| Agent.UnknownToolRejected | agent/core.py:87-128 | an unknown tool is not executed and does not count. The error message is appended, and the batch goes on |
| Agent.AfterDispatchMessages | agent/core.py:108-112 | after a dispatch, one tool message with the call's id is appended, unless the call raised |
| Agent.CallMessages | agent/core.py:84-128 | each handled call appends exactly one tool message with its id, and nothing else changes in the list |
| Agent.CallCounter | agent/core.py:87-106 | the counter rises by one per allowed call, and the re-run does not count |
| Agent.CallCommit | agent/core.py:114-116 | a call commits exactly when it is `post_comment` and did not raise, and the last event is then "comment posted" |
| Agent.CallExecutions | agent/core.py:87-106 | at most two executions per call, all of the call's own allowed tool, appended to the trace |
| Agent.CacheOnlyFromIssueDetails | agent/core.py:92-96 | only `get_issue_details` changes the cache |
| Agent.CacheCapture | agent/core.py:92-96 | a dict result overwrites the cache with the captured description, or raises |
| Agent.CacheKeptOnOtherResult | agent/core.py:92 | a non-dict result leaves the cache as it was |
| Agent.OverrideReruns | agent/core.py:98-106 | with a truthy cache that differs from the argument, the tool is re-run with the cached description. The recorded result is that of the re-run, and the counter rises by one only |
| Agent.NoOverrideRunsOnce | agent/core.py:98-112 | otherwise `retrieve_context` runs once and its result is recorded |
| Agent.Record | agent/core.py:108-116 | appends the tool message and commits on `post_comment`; characterised by the per-call lemmas |
| Agent.AfterDispatch | agent/core.py:90-116 | counting, cache capture, override and recording after the first execution; characterised by `AfterDispatchMessages` and the per-call lemmas |
| Agent.ProcessCall | agent/core.py:84-128 | one call of the batch: reject an unknown tool, or execute and record an allowed one; characterised by `UnknownToolRejected`, `CallMessages`, `CallCounter`, `CallCommit`, `CallExecutions` and the cache and override lemmas |
| Agent.HandleToolCall | agent/core.py:84-128 | the per-call body computes `ProcessCall` |
| Agent.ProcessCallShape | agent/core.py:84-128 | the call has the shape the batch relies on: message, counter, commit and executed-trace facts |
| Agent.AgentHandlerWellBehaved | agent/core.py:84-128 | every call of the agent's handler has that shape |
| Agent.CountAllowed | agent/core.py:87-90 | the number of allowed calls is at most the number of calls; it is 0 exactly when no call is allowed, and equals the number of calls exactly when every call is allowed |
| Agent.RecordsCallsCons | agent/core.py:108-128 | a tool message for the first call, followed by a record of the rest, records the whole batch |
| Agent.ProcessCalls | agent/core.py:84-128 | the calls of one reply in order, until one commits or raises; characterised by the `Batch` lemmas |
| Agent.BatchMessages | agent/core.py:84-128 | a batch appends one tool message per handled call, in call order and with the calls' ids. It handles all calls unless one commits (then it is `post_comment`) or raises |
| Agent.BatchCounter | agent/core.py:84-129 | a completed batch raises the counter by exactly the number of its allowed calls |
| Agent.BatchExecutesAllowed | agent/core.py:87 | no name outside the registry is ever executed, and the earlier trace is kept |
| Agent.BatchIgnoresRest | agent/core.py:114-116 | the calls after the one that stops the batch have no effect |
| Agent.BatchCommitEvent | agent/core.py:114-116 | a committed batch ends with "comment posted" |
| Agent.BatchStopsAtPostComment | agent/core.py:84-116 | a batch with `post_comment` at position k stops, and handles at most k + 1 calls: it commits there or raised before |
| Agent.ProcessToolCalls | agent/core.py:84-128 | the inner loop computes the batch function |
| Agent.Run | agent/core.py:56-134 | the turns used are at most the replies left, and the tool turns are at most the turns |
| Agent.RunAgent | agent/core.py:38-136 | the loop computes `Run` from the initial system and user messages |
| Agent.RunMessagesGrow | agent/core.py:81-128 | the message list only grows, and each turn first appends its reply |
| Agent.RunExecutesAllowed | agent/core.py:87 | over the whole run, only registered tools are executed |
| Agent.ToolTurnsBounded | agent/core.py:42-131 | when every tool reply has an allowed call, tool turns are at most 5 minus the counter |
| Agent.RunEnds | agent/core.py:114-136 | a final answer comes from the first reply without tool calls (every reply before it had some), and its content is the outcome. A ceiling stop has counter ≥ 5. A commit ends with "comment posted". Running out of replies used them all. Every other ending comes after a reply with tool calls. No turn before the last calls `post_comment`, so the run returns after the turn that reaches it |
| Agent.CallContinues | agent/core.py:87-112 | with tools that never raise, an allowed call other than `post_comment` counts one execution and lets the batch go on |
| Agent.ExactCeiling | agent/core.py:56-131 | with tools that never raise and one allowed non-`post_comment` call per reply, the run stops at the ceiling after exactly `5 - counter` tool turns, with the counter at 5 |
| Agent.AgentRun | agent/core.py:38-136 | from the initial state: the system and user messages stay first, only registered tools run, and with one allowed call per tool turn there are at most 5 tool turns |

## Left out

- `urlparse` (tools/github_tools.py:5): `FetchGithubIssue` takes the path part of the URL.
- The provider SDKs, `get_model_client` and the choice of provider by `model_type` (agent/core.py:23-36, 57-79): a scripted sequence of replies stands for the provider.
- `json.loads` of tool arguments (agent/core.py:86): arguments are a map from names to strings, so argument values of other JSON types are not modelled.
- `str()` of tool results (agent/core.py:111): a tool message holds the result itself (`Rendered`).
- The yielded progress lines: they are kept as abstract events, not as their texts.
- HTTP, `time.sleep` and `time.time` (tools/utils.py:35-58, tools/code_index.py:104, 129): responses, clock readings and waits are parameters or results.
- RS256 signing, base64/UTF-8 decoding, ISO timestamp parsing, and `int()` of the rate-limit headers (tools/utils.py:24, 44-45, 88, 134): these are library calls, so the expiry and the header values are integers.
- Utils.InstallationId: the source returns `data["id"]` whatever its JSON type and uses it as a dictionary key and in a URL; the model's installation ids are integers, so an `id` of another type is an error there.
- Utils.ParseTokenData: the source returns `token_data["token"]` whatever its JSON type and writes it into the `Authorization` header; the model's tokens are strings, so a `token` of another type is an error there. The expiry is an integer, as noted above.
- The `print` calls of `github_request` and `async_retry_on_429`, the `asyncio.sleep(0.1)` pacing of the indexing loop (tools/code_index.py:129), and the fresh assertion signed for every request: these have no effect on the results, and `GetIssueDetails`, `PostComment` and `FetchRepoFiles` use one `jwt` for both the installation lookup and the token exchange.
- Utils.GithubRequest: the source retries without bound; the model's attempts are bounded by `fuel`, and running out gives None.
- `threading.Lock` and `asyncio.to_thread` (tools/utils.py:13, 76, 107, 121-129): the cache is modelled sequentially.
- `fetch_file_content` (tools/utils.py:116-135): a file's content is a function of its path, None when the fetch fails.
- Embeddings, `safe_normalize`, cosine similarity and NaN filtering (tools/code_index.py:51-86): these are floating-point and foreign models, so a score is an integer and an invalid one is None. `issueEmbeddingValid` stands for the early `return []`.
- The llama_index `VectorStoreIndex` build and `retrieve_context`'s query (tools/code_index.py:133-172): the model stops at the list of documents.
- app.py, config.py, agent/agent_config/prompts.py and agent/agent_config/tool_schema.py: UI and configuration are not part of this model. The system prompt is an opaque message.
- Running out of scripted replies ends the run as `ScriptEnded`. The source would keep asking the provider.
- A tool's result depends only on its name, its arguments and the number of executions before it.
- `retrieve_context` is registered as a coroutine function and called without `await` (agent/core.py:89). The model treats its result as a value.
- Common.Lower: lower-cases ASCII letters only, not the whole of Unicode.
- Utils.TreeItems, Utils.InstallationId, Utils.ParseTokenData, GithubTools.IssueDetailsFromResponse, GithubTools.PostCommentFromResponse: each takes the decoded JSON body of a response; the exception `response.json()` raises on a body that is not valid JSON (tools/utils.py:68, 86, 111; tools/github_tools.py:26, 42) is not modelled.
- Tool exceptions are not caught at dispatch (agent/core.py:89): a raised tool ends the run as `Failed`.

## Findings

| source | as written | input that shows it | evidently intended | confidence | as-written member | corrected member |
|---|---|---|---|---|---|---|
| tools/code_index.py:101-102 | `getattr(e, 'response', None) and getattr(e.response, 'status_code', None)` evaluates to the response object itself when that object is falsy. A `requests.Response` is falsy for every status from 400 to 599, so `status == 429` is then false and the call is re-raised instead of retried. | an exception whose `response` is a `requests.Response` with status 429 | retry whenever the failure's response has status 429 | not executed | CodeIndex.AsWrittenRetryReraises429 | CodeIndex.CorrectedRetryWaitsOn429 |

`CodeIndex.Is429AsWritten` models the source's test, and `AsWrittenMissesRequests429` exhibits the response it misses. `CodeIndex.Is429` is the corrected test: it reads the status code whether or not the response is truthy. `Is429Corrected` shows the two agree on every truthy response. `AsyncRetryOn429` takes the test as a parameter. `AsWrittenRetryReraises429` runs it with the source's test, and the failure is re-raised after one call. `CorrectedRetryWaitsOn429` and `RetryWithDefaults` run it with the corrected one.

Within this repository, `fetch_repo_files` and `fetch_file_content` raise a plain `Exception`, which has no `response`, so those calls are re-raised on either reading. The difference appears with callees whose exceptions carry a `requests` response.
