# DomainRadar report pipeline in Dafny

DomainRadar gathers news for a list of domains (or topics, or RSS feeds).
For each one it asks a chat model for a structured report and ranks the
reports by score. Optionally it writes a cross-domain "deep analysis" for a
user persona, then stores and displays the result. This project models:

- the current engine, `Engine.Run`;
- the four older command-line variants:
  - the domain-radar command;
  - the news agent;
  - the topic radar;
  - the RSS agent;
- the storage layer's transactional saves and its content sanitiser;
- the search-provider factory;
- the display service's report listing, report mapping and task registry;
- the front end's translation script.

What each core file becomes:

- **Collaborators are oracles indexed by position.** These are the searcher, the page fetcher, the chat model, the rate limiter and the JSON decoder. `search(i)` answers for domain `i`; `generate(i)(j)` is attempt `j` of domain `i`'s report. A reply is cleaned (fences stripped) and then decoded.
- **The goroutine fan-out becomes a sequential loop** over `order`, the order the goroutines reach the mutex (`FanIn`). Every result is stated for any such order. Reports are then sorted in place by an insertion sort on an array (`Sorting`). Because `sort.Slice` is not stable, the contracts fix only "non-increasing score" and "a permutation of what was collected", never the order of ties.
- **The retry loops are methods with `while` loops.** Each is proved equal to a recursive specification (`GenerateSpec`, `DeepSpec`, `SummarizeSpec`). That specification records:
  - the result;
  - the number of model calls;
  - the attempt numbers after which the loop slept, so the delays `2 s · 2^i` can be stated.
- **Strings are byte sequences** (`Base.Bytes`), because Go's `len` and slicing count bytes. `Utf8` models `utf8.DecodeRune`, `utf8.ValidString` and the `range` loop over a string's runes, so the storage sanitiser can be stated exactly. The translation script works on JavaScript strings and uses Dafny `string`.
- **Stateful parts are classes:**
  - `Storage.Store` holds the tables, a statement log and the id counter;
  - `Display.DisplayService` holds its registry of tasks and every store made on it;
  - `I18n.Localizer` holds the current language, `localStorage` and the document's `lang`.

Where the code and its written description disagree, the model follows the code:

- The engine's deep-analysis loop sleeps after a rate-limited final attempt too; `DeepRateLimitedThroughout` records four sleeps.
- The deep analysis's title is not stored by `SaveDeepAnalysis`; only `UpdateRunTitle` writes it.

## Model

| member | source | states |
|---|---|---|
| Selection.ChooseContent | app/domain_radar/pkg/engine/engine.go:136-142 | the fetched text replaces the snippet only when the snippet is under the bound, the fetch succeeded and the text is strictly longer, and then always; the result is never shorter than the snippet |
| Selection.Candidate | app/domain_radar/pkg/engine/engine.go:134-154 | a kept article has 100 < length <= 5000, names the domain as its source and copies the result's title, url and date |
| Selection.SelectArticles | app/domain_radar/pkg/engine/engine.go:134-158 | the selection loop returns exactly the first six candidates in result order (`Selected`) |
| Selection.SelectStep | app/domain_radar/pkg/engine/engine.go:135-154 | one turn extends the candidates of the first `k` results to those of the first `k + 1`, adding at most one article |
| Selection.StopAtSix | app/domain_radar/pkg/engine/engine.go:155-157 | breaking at six articles, or running out of results, leaves exactly the selected articles |
| Selection.CandidatesGrow | app/domain_radar/pkg/engine/engine.go:134-158 | candidates of a prefix of the results are a prefix of all candidates, so stopping early keeps the first six |
| Selection.SelectedBounds | app/domain_radar/pkg/engine/engine.go:134-158 | at most six articles are kept, each of 101 to 5000 bytes and from the domain |
| Selection.CandidatesBounds | app/domain_radar/pkg/engine/engine.go:143-154 | every candidate, before the limit of six, has 101 to 5000 bytes and comes from the domain |
| Selection.CandidatesInOrder | app/domain_radar/pkg/engine/engine.go:134-158 | article `t` comes from result `idx[t]` and the indices strictly increase: search order is kept |
| Text.TrimPrefix | app/domain_radar/pkg/engine/engine.go:291-292 | with the prefix, input = prefix + result; without it, the input unchanged |
| Text.TrimSuffix | app/domain_radar/pkg/engine/engine.go:293 | with the suffix, input = result + suffix; without it, the input unchanged |
| Text.ContainsIffOccurs | app/domain_radar/pkg/engine/engine.go:280 | `strings.Contains` holds exactly when the text occurs at some offset |
| Text.ToLowerAscii | app/domain_radar/pkg/engine/engine.go:280 | the length is kept, no upper-case ASCII letter is left, and every other byte is kept as it is, so every byte of a multi-byte rune (128 and above) is untouched |
| Text.ToLowerAsciiIdempotent | app/domain_radar/pkg/engine/engine.go:280 | lower-casing an already lower-cased text changes nothing |
| Text.ToLowerAsciiIgnoresCase | app/domain_radar/pkg/engine/engine.go:280 | two texts that differ only in the case of ASCII letters lower-case to the same text |
| Text.Truncate | app/domain_radar/pkg/engine/engine.go:143-145 | `content[:n]` when longer than `n`: a prefix of at most `n` bytes, exactly `n` when cut, the input when not |
| Text.Join | app/domain_radar/cmd/domain_radar/main.go:222 | joining no parts is empty, one part is that part, and the length is the parts' lengths plus one separator between each two |
| Text.TrimSpaceIsSlice | app/domain_radar/pkg/engine/engine.go:290 | `strings.TrimSpace` keeps a contiguous piece of its input |
| Text.TrimSpaceTrims | app/domain_radar/pkg/engine/engine.go:290 | no white-space rune (Go's `unicode.IsSpace` set) is left at either end, and input without one is unchanged |
| Text.StripFencesShrinks | app/domain_radar/pkg/engine/engine.go:290-293 | the cleaned reply is a contiguous piece of the reply, never longer |
| Text.StripFencesUnfenced | app/domain_radar/pkg/engine/engine.go:290-293 | a reply without fences or surrounding white space is passed on unchanged |
| Text.StripFencesJsonFenced | app/domain_radar/pkg/engine/engine.go:290-293 | a "```json … ```" fenced body comes out as the body itself |
| Retry.Backoff | app/domain_radar/pkg/engine/engine.go:283 | each back-off lasts at least the base delay of 2 s |
| Retry.BackoffIncreases | app/domain_radar/pkg/engine/engine.go:283 | each back-off is twice the one before (`baseDelay * (1<<i)`), so later attempts back off longer |
| Retry.Delays | app/domain_radar/pkg/engine/engine.go:283 | the k-th sleep is the back-off of the attempt it follows, and when the attempts slept after increase (as every loop's schedule does) the sleeps strictly lengthen |
| Retry.ScheduleSleep | app/domain_radar/pkg/engine/engine.go:283 | sleeping after increasing attempts in `lo..hi-1` totals at most `Backoff(hi) - Backoff(lo)` seconds |
| Retry.SleepBounds | app/domain_radar/pkg/engine/engine.go:264-366 | whatever the attempts, generateDomainReport and summarizeContent sleep at most 2+4+8 s in all, the engine's deepInterpretReport at most 2+4+8+16 s |
| Retry.StepOf | app/domain_radar/pkg/engine/engine.go:269-302 | an attempt is limited exactly on a limiter error, failed exactly on a model error, and decoded only to the decoder's value of the cleaned reply |
| Retry.GenerateNext | app/domain_radar/pkg/engine/engine.go:268-306 | the loop goes round only before the fourth attempt, succeeds only with a decoded reply, and stops without a call exactly on a limiter error |
| Retry.GenerateSpec | app/domain_radar/pkg/engine/engine.go:268-307 | at most four model calls; back-offs follow strictly increasing attempts below the fourth, at most one per call |
| Retry.GenerateAttempt | app/domain_radar/pkg/engine/engine.go:269-305 | one pass of the loop body decides as `GenerateNext` of the attempt's step |
| Retry.GenerateWithRetry | app/domain_radar/pkg/engine/engine.go:268-307 | the loop's outcome (result, calls, back-offs) is `GenerateSpec` from attempt 0 |
| Retry.GenerateResultIsDecodedReply | app/domain_radar/pkg/engine/engine.go:296-305 | a success is what the decoder made of the cleaned reply of the last call |
| Retry.DeepNext | app/domain_radar/pkg/engine/engine.go:334-364 | the deep loop succeeds only with a decoded reply and stops without a call exactly on a limiter error |
| Retry.DeepSpec | app/domain_radar/pkg/engine/engine.go:334-365 | at most four calls; back-offs follow strictly increasing attempts, the last one included |
| Retry.DeepAttempt | app/domain_radar/pkg/engine/engine.go:335-363 | one pass of the deep loop body decides as `DeepNext` |
| Retry.DeepWithRetry | app/domain_radar/pkg/engine/engine.go:334-365 | the deep loop's outcome is `DeepSpec` from attempt 0 with no last error |
| Retry.DeepPass | app/domain_radar/pkg/engine/engine.go:334-364 | one attempt either ends with the specified outcome or hands over to the next attempt with its bookkeeping |
| Retry.DeepSpecStep | app/domain_radar/pkg/engine/engine.go:334-364 | attempt `i` of the deep specification either stops with the body's result or continues with attempt `i + 1` |
| Retry.DeepResultIsDecodedReply | app/domain_radar/pkg/engine/engine.go:353-363 | a deep-analysis success is the decoded reply of its last call |
| Retry.SummarizeNext | cmd/news_agent/main.go:198-269 | summarizeContent goes round only before the fourth attempt, succeeds only with a decoded reply and stops without a call exactly on a limiter error |
| Retry.SummarizeSpec | cmd/news_agent/main.go:198-270 | at most four calls, back-offs after strictly increasing attempts below the fourth |
| Retry.SummarizeAttempt | cmd/news_agent/main.go:199-268 | one pass of summarizeContent's body, cancellation included, decides as `SummarizeNext` |
| Retry.SummarizeWithRetry | src/cmd/domain_radar/main.go:225-298 | the loop's outcome is `SummarizeSpec` from attempt 0 |
| Retry.SummarizeResultIsDecodedReply | src/cmd/domain_radar/main.go:280-295 | a success is the decoded reply of its last call |
| Retry.SummarizeOnce | main.go:163-210 | at most one call and never a back-off; no call exactly on a limiter error; a success is the decoded cleaned reply |
| Retry.SummarizeOnceCall | main.go:163-210 | the RSS agent's straight-line summarizeContent gives `SummarizeOnce` |
| Retry.SummarizeOnceIsLastAttempt | main.go:163-210 | the single shot decides like the retrying loop's final attempt |
| Retry.SummarizeOnceIsFirstAttempt | main.go:163-210 | it also decides like the retrying loop whenever that loop's first attempt ends it |
| Retry.LimiterErrorStopsAtOnce | app/domain_radar/pkg/engine/engine.go:269-271 | a limiter error at any attempt `i` ends every loop there with that error and no further model call or sleep (wrapped as "limiter wait error" in summarizeContent), whatever the deep loop's last error |
| Retry.OtherErrorStopsAtOnce | app/domain_radar/pkg/engine/engine.go:279-287 | a model error at any attempt `i` that is not rate limiting ends every loop at that attempt with that error, after that one call and with no sleep |
| Retry.DeepNon429Stops | app/domain_radar/pkg/engine/engine.go:345-350 | in the engine's deep loop any model error without "429" (a "too many requests" one included) ends the loop at that attempt with that error |
| Retry.RateLimitedOnLastAttempt | app/domain_radar/pkg/engine/engine.go:280-287 | a model error on the fourth attempt, rate limited or not, is returned as it is after one call and no sleep, by generateDomainReport and summarizeContent |
| Retry.GenerateBackoffsRateLimited | app/domain_radar/pkg/engine/engine.go:279-301 | generateDomainReport sleeps after attempt `k` only when the limiter passed and the model failed with a rate-limiting message; never after an undecodable reply |
| Retry.DeepBackoffsRateLimited | app/domain_radar/pkg/engine/engine.go:344-362 | the deep loop sleeps after attempt `k` only when the model failed with a message containing "429" |
| Retry.SummarizeBackoffsRateLimited | src/cmd/domain_radar/main.go:225-298 | summarizeContent sleeps after attempt `k` only on a rate-limiting model error whose back-off is not cancelled |
| Retry.RateLimitedAnyCase | app/domain_radar/pkg/engine/engine.go:280 | a message containing "too many requests" in any mix of ASCII upper and lower case passes the rate-limit test |
| Retry.RetryAfterTwoRateLimits | app/domain_radar/pkg/engine/engine.go:280-284 | two "429" failures then a decodable reply give that value after three calls, having slept 2 s then 4 s, in all three loops |
| Retry.DecodeFailuresExhaust | app/domain_radar/pkg/engine/engine.go:296-302 | four undecodable replies end generateDomainReport with the fourth "json unmarshal" error and deepInterpretReport with "failed after retries" naming it, without sleeping |
| Retry.DeepRateLimitedThroughout | app/domain_radar/pkg/engine/engine.go:346-349 | four "429" replies make the deep loop sleep 2, 4, 8 and 16 s and fail with "failed after retries: <nil>" |
| Retry.RateLimitedAgain | app/domain_radar/pkg/engine/engine.go:346-349 | a "429" reply makes the deep loop sleep and go round without recording it as the last error |
| Retry.CancelledDuringBackoff | src/cmd/domain_radar/main.go:265-273 | cancellation during the back-off after any rate-limited attempt `i < 3` ends summarizeContent there with `ctx.Err()`, after that one call and no recorded sleep |
| Engine.GenerateDomainReport | app/domain_radar/pkg/engine/engine.go:247-308 | the retry loop's result with the domain name set on it (`GenerateReport`) |
| Engine.ProcessDomain | app/domain_radar/pkg/engine/engine.go:124-171 | one goroutine's outcome: nothing on a failed search, no kept article or a failed report (`DomainResult`) |
| Engine.DomainResultOrigin | app/domain_radar/pkg/engine/engine.go:126-171 | a domain's report names the domain and cites its 1 to 6 selected articles from a successful search |
| Engine.FencedReportDecodes | app/domain_radar/pkg/engine/engine.go:290-304 | a first reply fenced as "```json" decodes to its body's report, renamed after the domain |
| Engine.Record | app/domain_radar/pkg/engine/engine.go:174-187 | a report is saved when there is a store and a run, appended, counted, and announced with progress `10 + 70k/n` |
| Engine.FanOutStep | app/domain_radar/pkg/engine/engine.go:113-188 | one more goroutine turn keeps reports, progress calls and saves equal to their specifications over one more turn |
| Engine.StepEvents | app/domain_radar/pkg/engine/engine.go:181-186 | the progress calls after one more turn are the specified ones |
| Engine.StepCalls | app/domain_radar/pkg/engine/engine.go:174-178 | the store calls after one more turn are the saves of the reports so far |
| Engine.Progress | app/domain_radar/pkg/engine/engine.go:182-186 | one progress call per collected report |
| Engine.Saves | app/domain_radar/pkg/engine/engine.go:174-178 | no more saves than reports |
| Engine.FanOutUnfold | app/domain_radar/pkg/engine/engine.go:180-186 | one more turn appends its report, if any, and its progress call |
| Engine.OutcomesAreDomainResults | app/domain_radar/pkg/engine/engine.go:113-171 | every goroutine's outcome is its domain's result |
| Engine.FanOut | app/domain_radar/pkg/engine/engine.go:113-190 | the collected reports, the progress calls and the saves for any completion order |
| Engine.SortReports | app/domain_radar/pkg/engine/engine.go:198-200 | reports in non-increasing score, a permutation of the input |
| Engine.SummaryTextAppend | app/domain_radar/pkg/engine/engine.go:207-214 | the deep-analysis input is one block per report, in order |
| Engine.SummaryTextFirst | app/domain_radar/pkg/engine/engine.go:207-214 | the input starts with the best-scored report's block |
| Engine.DeepInterpret | app/domain_radar/pkg/engine/engine.go:207-228 | the deep step's analysis and store calls are `DeepStep` of the sorted reports |
| Engine.DeepStepCalls | app/domain_radar/pkg/engine/engine.go:207-228 | no persona, no analysis and no call; an analysis is a decoded reply to the summary; it is saved exactly with a store and run, and the run is retitled exactly when the title is not empty |
| Engine.Run | app/domain_radar/pkg/engine/engine.go:79-235 | the run's log is `RunSpec` of the completion order; on success the reports are sorted by score and a permutation of those collected |
| Engine.RunFails | app/domain_radar/pkg/engine/engine.go:85-87 | the run fails exactly when there is no domain or no goroutine brings a report, and then has no reports, no analysis, only CreateRun as call and no progress of 100 |
| Engine.ReportOrigin | app/domain_radar/pkg/engine/engine.go:166-180 | every collected report is some domain's report, named after it, citing its selected articles |
| Engine.ProgressValues | app/domain_radar/pkg/engine/engine.go:182-186 | the k-th progress call under the mutex reports `k + 1` domains done |
| Engine.DomainProgressBounds | app/domain_radar/pkg/engine/engine.go:183 | progress after k of n domains grows with k, from 10 to at most 80 |
| Engine.ProgressBounded | app/domain_radar/pkg/engine/engine.go:182-186 | the fan-out's progress values never go down and stay in 10..80 |
| Engine.RunSpecEvents | app/domain_radar/pkg/engine/engine.go:81-233 | the run's callbacks are "starting" 0, the domain calls, then 85 and "completed" 100 when reports exist |
| Engine.RunEventsMonotone | app/domain_radar/pkg/engine/engine.go:81-233 | those callbacks never go down and stay within 0..100 |
| Engine.RunProgressMonotone | app/domain_radar/pkg/engine/engine.go:81-233 | the progress a run reports never goes down and stays within 0..100 |
| Engine.SavesAre | app/domain_radar/pkg/engine/engine.go:174-178 | one SaveDomainReport per report, in order, exactly when there is a store and `runID > 0` |
| FanIn.Collected | app/domain_radar/pkg/engine/engine.go:180-181 | no more values are appended than goroutines ran |
| FanIn.CollectedUnfold | app/domain_radar/pkg/engine/engine.go:180-181 | one more turn appends its value, if it brings one |
| FanIn.CollectedAppend | app/domain_radar/pkg/engine/engine.go:180-181 | two stretches of turns collect one after the other |
| FanIn.CollectedPermutation | app/domain_radar/pkg/engine/engine.go:113-190 | the completion order decides the order of the reports, not which reports there are |
| FanIn.CollectedEmpty | app/domain_radar/pkg/engine/engine.go:193-195 | nothing is collected exactly when every goroutine gives up |
| FanIn.CollectedFrom | app/domain_radar/pkg/engine/engine.go:180-181 | a value is collected exactly when some goroutine brings it |
| FanIn.EveryValueCollected | app/domain_radar/pkg/engine/engine.go:113-190 | a domain that fails drops only its own report |
| Sorting.SortByKeyDesc | app/domain_radar/pkg/engine/engine.go:198-200 | in place: keys non-increasing and the array a permutation of the old one |
| Sorting.InsertLeft | app/domain_radar/pkg/engine/engine.go:198-200 | one more element inserted into the sorted prefix, a permutation |
| DomainRadarCli.GatherStep | app/domain_radar/cmd/domain_radar/main.go:190-201 | one turn saves, appends and counts, keeping `totalArticles` and the saves equal to their specifications |
| DomainRadarCli.Gather | app/domain_radar/cmd/domain_radar/main.go:120-206 | the reports collected for the completion order, their article count and one save per report when there is a store |
| DomainRadarCli.ReportSaves | app/domain_radar/cmd/domain_radar/main.go:190-196 | one save per report with a store, none without |
| DomainRadarCli.DeepInterpretCli | app/domain_radar/cmd/domain_radar/main.go:214-242 | the deep step's analysis and save as `CliDeep` |
| DomainRadarCli.CliDeepGating | app/domain_radar/cmd/domain_radar/main.go:215-240 | an analysis exists only with a persona and a report and is a decoded reply to the summary; it is saved exactly when it exists and there is a store |
| DomainRadarCli.RunCli | app/domain_radar/cmd/domain_radar/main.go:120-249 | the page shows the collected reports sorted by score, their article count and the gated analysis; the calls are the saves then the analysis save |
| DomainRadarCli.ArticleCountPermutation | app/domain_radar/cmd/domain_radar/main.go:198-201 | `totalArticles` does not depend on the completion order |
| DomainRadarCli.ArticleCountBounds | app/domain_radar/cmd/domain_radar/main.go:198-201 | with 1 to 6 articles each, the count lies between the number of reports and six times it |
| DomainRadarCli.PageCount | app/domain_radar/cmd/domain_radar/main.go:248 | the rendered count is that of the sorted reports, between one and six articles per report |
| Agents.Spawn | cmd/news_agent/main.go:98-165 | the goroutines started are those of the sources read, in order (`Jobs`) |
| Agents.SpawnFeed | main.go:89-134 | one goroutine per kept item of a source, in order |
| Agents.SortArticles | cmd/news_agent/main.go:170-172 | articles in non-increasing score, a permutation of those appended |
| Agents.Picked | main.go:89-99 | no more goroutines than items |
| Agents.FeedJobsMembers | main.go:83-99 | a source's goroutines are those of its kept items, none when it could not be read |
| Agents.PickedMembers | main.go:89-99 | an item of a source gets a goroutine exactly when it is kept |
| Agents.JobsMembers | main.go:82-136 | a goroutine is started exactly for a kept item of a source that could be read |
| Agents.PickedAll | cmd/news_agent/main.go:116-163 | with every item kept, the jobs are the items, in order |
| Agents.JobsGrow | cmd/news_agent/main.go:98-165 | later sources only add goroutines after those of earlier ones |
| TopicAgents.FinalTitle | cmd/news_agent/main.go:146-149 | the model's Chinese title when it is not empty, else the original title; the shown title is empty only when both are |
| TopicAgents.ProcessItem | cmd/news_agent/main.go:116-163 | one item's goroutine: content, summary, title, article (`ItemResult`) |
| TopicAgents.OutcomesAreItemResults | cmd/news_agent/main.go:116-163 | every goroutine's outcome is its item's result |
| TopicAgents.Gather | cmd/news_agent/main.go:151-160 | the articles appended in completion order |
| TopicAgents.RunNewsAgent | cmd/news_agent/main.go:98-172 | articles sorted by score and a permutation of those collected |
| TopicAgents.BuildDigest | src/cmd/domain_radar/main.go:187-191 | the builder's text is the numbered digest of the sorted articles |
| TopicAgents.DigestEntry | src/cmd/domain_radar/main.go:187-191 | entry `m + 1` is article `m`'s, after those before it: numbered from 1 in sorted order |
| TopicAgents.DeepInterpretTopics | src/cmd/domain_radar/main.go:183-199 | the deep analysis of the digest as `TopicDeep` |
| TopicAgents.TopicDeepGating | src/cmd/domain_radar/main.go:184-198 | an analysis exists only with a persona and an article, and is a decoded reply to the digest |
| TopicAgents.RunTopicRadar | src/cmd/domain_radar/main.go:106-199 | the sorted articles, a permutation of those collected, and the gated deep analysis of them |
| TopicAgents.TopicJobMembers | cmd/news_agent/main.go:110-116 | a search result gets a goroutine exactly when its topic's search succeeded, carrying that topic |
| TopicAgents.ItemContentRule | src/cmd/domain_radar/main.go:131-144 | fetched text replaces the snippet exactly when the snippet is under 200 bytes and the text is longer; the content is cut to 6000 bytes with no lower floor |
| TopicAgents.ArticleOrigin | cmd/news_agent/main.go:139-160 | an article is the model's decoded summary of its item, with the title fallback and the item's link, source and date |
| TopicAgents.ArticleDropped | cmd/news_agent/main.go:139-143 | an item brings nothing exactly when summarizing it fails |
| RssAgent.ProcessItem | main.go:99-134 | one item's goroutine (`ItemResult`) |
| RssAgent.OutcomesAreItemResults | main.go:99-134 | every goroutine's outcome is its item's result |
| RssAgent.Gather | main.go:122-131 | the articles appended in completion order |
| RssAgent.RunRssAgent | main.go:82-143 | articles sorted by score and a permutation of those collected |
| RssAgent.FeedJobMembers | main.go:82-99 | an item gets a goroutine exactly when its feed was parsed and it has no publish time or one within 24 h |
| RssAgent.ItemContentRule | main.go:103-113 | the fetched page whenever the fetch succeeds, even a shorter one, else the description, cut to 6000 bytes |
| RssAgent.ArticleOrigin | main.go:116-131 | an item brings nothing exactly when its one call fails; an article keeps the item's fields and the decoded summary |
| Utf8.DecodeRune | app/domain_radar/pkg/storage/postgres.go:90-93 | 1 to 4 bytes consumed, ASCII decodes to itself, and every decoded rune is a scalar value |
| Utf8.EncodeDecode | app/domain_radar/pkg/storage/postgres.go:98 | decoding the encoding of a scalar gives it back, whatever follows |
| Utf8.DecodeEncode | app/domain_radar/pkg/storage/postgres.go:98 | encoding a decoded rune gives back the bytes it came from |
| Utf8.EncodeRunesRoundTrip | app/domain_radar/pkg/storage/postgres.go:98 | `string(v)` of scalars is valid UTF-8 decoding to the same runes |
| Utf8.ValidIsEncoding | app/domain_radar/pkg/storage/postgres.go:90 | valid UTF-8 is the encoding of its runes |
| Utf8.Runes | app/domain_radar/pkg/storage/postgres.go:92 | a `range` loop visits no more runes than bytes |
| Utf8.RunesAreScalars | app/domain_radar/pkg/storage/postgres.go:92 | every rune the loop visits is a scalar value |
| Utf8.RemoveNul | app/domain_radar/pkg/storage/postgres.go:179-181 | removal never lengthens the text |
| Utf8.RemoveNulOfEncoding | app/domain_radar/pkg/storage/postgres.go:98-101 | removing NUL bytes from encoded scalars removes exactly the U+0000 runes |
| Utf8.DropNulRunesMembers | app/domain_radar/pkg/storage/postgres.go:101 | the runes left are those other than U+0000 |
| Utf8.RemoveNulRemoves | app/domain_radar/pkg/storage/postgres.go:179-181 | no NUL byte is left, and text without one is unchanged |
| Utf8.RemoveNulCounts | app/domain_radar/pkg/storage/postgres.go:179-181 | exactly the zero bytes are deleted |
| Utf8.DropRuneErrorsMembers | app/domain_radar/pkg/storage/postgres.go:92-96 | the filter keeps exactly the runes other than U+FFFD |
| Utf8.DropRuneErrorsStep | app/domain_radar/pkg/storage/postgres.go:92-96 | one turn of the loop keeps the decoded rune unless it is U+FFFD and resumes after it |
| Utf8.FilterRunes | app/domain_radar/pkg/storage/postgres.go:91-97 | the range loop builds the input's runes without U+FFFD |
| Utf8.Sanitize | app/domain_radar/pkg/storage/postgres.go:88-101 | the content stored: the filter for invalid UTF-8, then NUL removal (`StoredContent`) |
| Utf8.StoredContentIsClean | app/domain_radar/pkg/storage/postgres.go:88-101 | stored content has no NUL byte and is valid UTF-8 |
| Utf8.StoredContentKeepsClean | app/domain_radar/pkg/storage/postgres.go:90 | valid content without NUL bytes is stored unchanged |
| Utf8.StoredContentOfInvalid | app/domain_radar/pkg/storage/postgres.go:90-101 | for invalid input the stored runes are the input's, in order, without decoding errors, U+FFFD or U+0000 |
| Storage.RollbackError | app/domain_radar/pkg/storage/postgres.go:78-80 | the returned message starts with the statement's error message; it is exactly that message when the rollback succeeds, and that message, ": " and the rollback's message when it fails (`%w: %v`) |
| Storage.BuildArticleRows | app/domain_radar/pkg/storage/postgres.go:85-110 | the article builders, one per article (`ArticleRows`) |
| Storage.ArticleRowsFaithful | app/domain_radar/pkg/storage/postgres.go:103-109 | row k keeps article k's title, link, source and date under the report, with its sanitised content |
| Storage.StoredArticleClean | app/domain_radar/pkg/storage/postgres.go:88-109 | a stored content is clean, and a clean content is stored as given |
| Storage.EventRowsFaithful | app/domain_radar/pkg/storage/postgres.go:120-126 | one key-event row per key event, in order, under the report |
| Storage.GuideRowsFaithful | app/domain_radar/pkg/storage/postgres.go:161-167 | one action-guide row per guide, in order, under the analysis |
| Storage.RunTx | app/domain_radar/pkg/storage/postgres.go:62-135 | the statements and error of a save stepped through as the database answers (`TxStatements`, `TxError`) |
| Storage.TxShape | app/domain_radar/pkg/storage/postgres.go:62-135 | a save fails exactly when one of its statements fails; it begins, creates the parent, ends in commit exactly without failure and otherwise in rollback; each bulk insert carries all of a non-empty list |
| Storage.ReportBulks | app/domain_radar/pkg/storage/postgres.go:85-135 | a successful save issues a bulk insert for exactly the non-empty child lists |
| Storage.Store.constructor | app/domain_radar/pkg/storage/postgres.go:20-36 | an empty database holding the given users, with valid ids |
| Storage.BuildEventRows | app/domain_radar/pkg/storage/postgres.go:120-126 | the key-event builders, one per event (`EventRows`) |
| Storage.BuildGuideRows | app/domain_radar/pkg/storage/postgres.go:161-167 | the action-guide builders, one per guide (`GuideRows`) |
| Storage.Store.AddReport | app/domain_radar/pkg/storage/postgres.go:135 | the commit makes the report row and its child rows visible, nothing else |
| Storage.Store.AddAnalysis | app/domain_radar/pkg/storage/postgres.go:176 | the commit makes the analysis row and its guide rows visible, nothing else |
| Storage.RetitleRuns | app/domain_radar/pkg/storage/postgres.go:50-54 | the update's scan retitles every run with the id and tells whether one exists |
| Storage.Store.CreateRun | app/domain_radar/pkg/storage/postgres.go:42-48 | a new run row with a fresh positive id, or the error with id 0 and nothing created |
| Storage.Store.UpdateRunTitle | app/domain_radar/pkg/storage/postgres.go:50-54 | the run retitled, or the database error, or not found for a missing run |
| Storage.RetitledRuns | app/domain_radar/pkg/storage/postgres.go:50-54 | the run with the id gets the title and every other run is unchanged |
| Storage.RetitledKeepsIds | app/domain_radar/pkg/storage/postgres.go:50-54 | the update changes no run id |
| Storage.Store.UsersWithPersona | app/domain_radar/pkg/storage/postgres.go:56-60 | the users with a persona, or the error |
| Storage.PersonaUsersMembers | app/domain_radar/pkg/storage/postgres.go:56-60 | exactly the users whose persona is not empty |
| Storage.Store.SaveDomainReport | app/domain_radar/pkg/storage/postgres.go:62-136 | all or nothing: on success one report row plus its article and key-event rows; on error no table changes |
| Storage.Store.SaveDeepAnalysis | app/domain_radar/pkg/storage/postgres.go:138-177 | all or nothing: one analysis row plus one guide row per guide, or no change |
| SearchFactory.EmptyProvider | app/domain_radar/pkg/search/factory/factory.go:15-22 | an empty provider means Tavily when either key is set and "search provider not configured" otherwise |
| SearchFactory.TavilyKey | app/domain_radar/pkg/search/factory/factory.go:25-33 | the search section's key is preferred over the legacy one, and "tavily api key is missing" when both are empty |
| SearchFactory.SearxngURL | app/domain_radar/pkg/search/factory/factory.go:35-40 | an error exactly for an empty base URL, otherwise a client with the URL and timeout |
| SearchFactory.UnknownProvider | app/domain_radar/pkg/search/factory/factory.go:42-43 | any other provider is "unknown search provider: <name>" |
| SearchFactory.SearcherBuilt | app/domain_radar/pkg/search/factory/factory.go:13-45 | a searcher is built exactly for Tavily with a key or SearXNG with a URL; a Tavily client never has an empty key |
| Display.Int32 | app/display/internal/service/display.go:121-124 | `int32(x)` lies in the 32-bit range and keeps any value in it |
| Display.PageDefaults | app/display/internal/service/display.go:96-103 | a page below 1 becomes 1, a size below 1 becomes 10, others are kept, and normalising is idempotent |
| Display.ListReports | app/display/internal/service/display.go:95-125 | the use case's error is passed on; otherwise the summaries mapped one to one, in order, with the total as int32 |
| Display.MapDomain | app/display/internal/service/display.go:151-171 | one domain's reply, its articles copied in order (`DomainOf`) |
| Display.GetReport | app/display/internal/service/display.go:127-189 | the caller's or the use case's error is passed on; otherwise domains mapped in order and the deep analysis only when present |
| Display.Lifecycle | app/display/internal/service/display.go:267-291 | a task's stores start with running at 5 and are at least two |
| Display.TriggerRules | app/display/internal/service/display.go:235-262 | no engine is ENGINE_NOT_INIT before any caller check; no domains is NO_DOMAINS; a task starts exactly with engine, user and domains |
| Display.DisplayService.TriggerReport | app/display/internal/service/display.go:235-294 | the answer as `TriggerRules` states; a started task is stored pending at 0 "Initializing..." before the reply, a refused one changes nothing |
| Display.DisplayService.constructor | app/display/internal/service/display.go:71-76 | a service with the engine it was given, or none, and no task |
| Display.DisplayService.Store | app/display/internal/service/display.go:275 | the registry maps the id to the status and the store is recorded |
| Display.DisplayService.StoreAll | app/display/internal/service/display.go:275-290 | the statuses stored in order, the last one kept |
| Display.Tagged | app/display/internal/service/display.go:275-290 | one store per status, in order, all under one task id |
| Display.DisplayService.RunTask | app/display/internal/service/display.go:267-291 | the engine's run of the user's domains, every lifecycle status stored in order, the last one kept |
| Display.CallbacksAt | app/display/internal/service/display.go:277-284 | the k-th callback store is running with the k-th callback's progress and message |
| Display.LifecycleShape | app/display/internal/service/display.go:268-290 | running at 5, running at every callback, then failed or completed at 100; completed exactly without panic and error; the error text or "Internal Panic" otherwise |
| Display.LifecycleBounded | app/display/internal/service/display.go:275-290 | sorted callbacks in 0..100 make every stored progress lie in 0..100 and never go down after the first store |
| Display.LifecycleProgress | app/display/internal/service/display.go:275-290 | for the engine's run, every stored progress is in 0..100 and never goes down after the first store |
| Display.FirstCallback | app/display/internal/service/display.go:275-284 | the first callback, "starting" at 0, follows the running-at-5 store |
| Display.TaskOutcome | app/display/internal/service/display.go:286-290 | without panic, a task fails with "no domain reports generated" exactly when no domain brings a report, and completes otherwise |
| Display.DisplayService.GetTaskStatus | app/display/internal/service/display.go:296-307 | TASK_NOT_FOUND exactly for an unknown id, otherwise the last stored status |
| I18n.LookupFallback | app/display/internal/server/assets/i18n.js:107 | the current language's non-empty text, else the English one, else the key |
| I18n.IndexFrom | app/display/internal/server/assets/i18n.js:109 | where indexOf finds the placeholder: at or after the start, and an occurrence there |
| I18n.IndexFromFirst | app/display/internal/server/assets/i18n.js:109 | indexOf finds the first occurrence at or after the start, and none means none at all |
| I18n.ReplaceFirstOnly | app/display/internal/server/assets/i18n.js:109 | replace changes only the first placeholder, and text without one is unchanged |
| I18n.ReplaceLiteral | app/display/internal/server/assets/i18n.js:109 | a value without `$` is put in place of the first placeholder as it is |
| I18n.NoParams | app/display/internal/server/assets/i18n.js:106-111 | without parameters t returns the looked-up text |
| I18n.SubstitutedAppend | app/display/internal/server/assets/i18n.js:108-110 | parameters apply in order, each one replacing on the text the earlier ones produced |
| I18n.Localizer.T | app/display/internal/server/assets/i18n.js:106-111 | the lookup followed by the in-order replacements (`Translate`) |
| I18n.Localizer.SetLanguage | app/display/internal/server/assets/i18n.js:96-99 | the current language and the stored one both become the argument, and the document's lang follows |
| I18n.Localizer.ToggleLanguage | app/display/internal/server/assets/i18n.js:102-104 | the language is toggled, stored and shown |
| I18n.Localizer.UpdatePage | app/display/internal/server/assets/i18n.js:131 | the document's lang follows the current language and nothing else changes |
| I18n.Localizer.constructor | app/display/internal/server/assets/i18n.js:94 | the initial language is the stored one, or "zh" |
| I18n.ToggleTwice | app/display/internal/server/assets/i18n.js:102-104 | "en" goes to "zh" and anything else to "en"; twice from "en" or "zh" returns there |
| I18n.StoredLanguage | app/display/internal/server/assets/i18n.js:94-98 | nothing stored starts in "zh"; a stored non-empty language is the next start |
| I18n.HtmlLangChoice | app/display/internal/server/assets/i18n.js:131 | "zh-CN" exactly for "zh", "en" otherwise |

## Left out

- HTTP clients (Tavily, SearXNG), the readability fetch, the chat model and `json.Unmarshal` are oracles: `search(i)`, `fetch(i)`, per-attempt replies, and a decoder from bytes to a value or an error.
- The rate limiter is an oracle: each attempt carries the error `limiter.Wait` returns, if any.
- Goroutines, `sync.WaitGroup`, `sync.Mutex` and `sync.Map` are a sequential loop over the order in which goroutines reach the mutex; contracts hold for every such order.
- Engine.DomainProgress: `10 + int(float64(k)/float64(n)*70)` is taken with the exact quotient, `10 + 70k/n` rounded down; float rounding is not modelled.
- Wall time: `time.Sleep` is recorded as the attempt number after which a back-off happens, and `time.After` races as a per-attempt cancellation flag; the RSS agent's 24 h check is a boolean of the item.
- Text.ToLowerAscii: lowers ASCII letters only; since no non-ASCII rune lower-cases to a letter of "too many requests", the rate-limit test decides as `strings.ToLower` would.
- The searchers' `MaxResults` constants and query strings are not modelled, because the search results are an oracle.
- Engine.Run and the command-line variants record store calls as a trace; their errors are only logged in the code and the trace does not depend on them.
- Storage.Store: ids come from one counter shared by all tables, where the database has one sequence per table; ent's not-found error text is approximated.
- Configuration loading, `log.Fatal` paths, loggers, dependency injection and the HTML page generation are not part of this model.
- Display: JWT and profile resolution are the `caller` input, `uuid.New()` is the `taskID` parameter, and a panic is "panics after `k` callbacks" (`panicAfter`).
- Display.DisplayService.RunTask: `panicAfter` models only a panic raised in the task's own goroutine (in Run itself or its "starting", 85 % and "completed" callbacks), which the recover catches; a panic in one of the engine's per-domain goroutines, or in the progress callback they make, is not recovered and ends the whole process, which the model does not capture.
- Display.DisplayService.RunTask: a poller sees the progress drop from 5 to 0 when the engine's first callback arrives (`Display.FirstCallback`).
- Display: the HTTP codes of the kratos errors are kept as values but not checked against the transport layer.
- I18n: DOM updates other than the document's `lang`, inherited `Object.prototype` keys, and the translation table contents (a parameter); `for…in` is taken to visit the parameters in the order given; `window.currentLang` is a copy made once at load.
- The `return nil, lastErr` and "max retries exceeded" lines after the four-attempt loops are never reached; the specifications show every path returns inside the loop.
- `app/domain_radar/internal/storage/postgres.go`, the ent schemas and the display service's data, biz, repo and use-case layers are database plumbing and pass-throughs, and are not part of this model.
