# Bull-der-dash in Dafny

Bull-der-dash is a read-only dashboard for BullMQ queues kept in Redis. This project models its core:

- **Explorer** (`explorer.dfy`). This is the queue and job state classifier and aggregator.
  - `DiscoverQueues` finds queues by scanning for their `:id` sentinel keys.
  - `GetQueueStats` counts the nine state collections of each queue. It collects the job IDs those collections reference, scans for job hashes, and derives the orphaned count and the total.
  - `determineJobState` decides which state a job is in by probing eight collections in a fixed order.
  - `GetJob` loads and decodes a job hash.
  - `GetJobsByState` lists the summaries of one state's jobs.
  - `GetJobsAcrossStates` merges those listings over all nine states and keeps the first summary of every job ID.
- **Store** (`store.dfy`). The explorer works on an immutable snapshot of the Redis keyspace:
  - lists, sorted sets (members in score order), hashes and key types;
  - the replies a cursor scan yields for each pattern;
  - the set of reads that fail.

  Every read command returns a `Result`, and the snapshot names the (command, key) reads that fail. Repeating a read repeats its outcome.
- **HttpMetrics** (`http_metrics.dfy`), modelling the server's `main.go`:
  - the route label a request path is counted under;
  - the response-writer wrapper that remembers the status code, starting at 200;
  - the instrumentation that records one observation per counted request;
  - the clamp on the metrics poll interval.
- **Config** (`config.dfy`). Loads the settings from environment variables, with their defaults, and reads the comma-separated sentinel address list.
- **RedisCli** (`redis_cli.dfy`). The interactive Redis client:
  - how an input line becomes a command: blank lines are skipped, the command name is case-insensitive, the number of fields is checked, and QUIT/EXIT end the session;
  - the session loop;
  - `truncate` and `parseInt`.

`text.dfy` and `numeric.dfy` model the parts of Go's `strings`, `strconv` and `fmt` packages that the code relies on:
- `Split`, `Join`, `TrimSpace`, `Fields`, `ToUpper`, `HasPrefix` and `TrimPrefix`;
- `strconv.Atoi`;
- `fmt.Sscanf` with `%d`;
- decimal formatting.

`wrappers.dfy` holds `Option` and `Result`.

Where the code departs from BullMQ conventions or from its evident intent, the model follows the code:
- Discovery returns one name per sentinel key in scan order. It does not remove repeated names.
- `determineJobState` never probes the `stalled` set, so a job that is only stalled is `unknown`.
- A stored field that fails to decode makes `GetJob` fail. The job is not returned with that field at its zero value. In a listing, such a job is skipped.
- The job listings have no free-text search filter.
- `GetQueueStats`, `GetJob`, `determineJobState` and `GetJobsByState` build their keys with the literal prefix `bull`. Only discovery takes the configured prefix.

## Model

| member | source | states |
|---|---|---|
| Explorer.KeyInjective | internal/explorer/explorer.go:271 | Within one queue, different job IDs address different job hashes. |
| Explorer.DiscoverQueues | internal/explorer/explorer.go:23-55 | If every scan reply succeeds, the result is the queue name of every sentinel key, in scan order, with repeats kept. The cursor loop stops when the cursor returns to 0. If any reply fails, the call fails with that read error and returns no partial list. |
| Explorer.AppendQueueNames | internal/explorer/explorer.go:36-42 | Handling one batch extends the names of the keys seen so far by the names of the batch's keys. |
| Explorer.QueueNamesAppend | internal/explorer/explorer.go:36-42 | The names of two runs of keys are the names of each run, one after the other. |
| Explorer.QueueNameShape | internal/explorer/explorer.go:38-41 | A key `p:q:rest`, where `p` and `q` have no colon, names queue `q`. A key with fewer than two colons names no queue. |
| Explorer.QueueNameSplitsKey | internal/explorer/explorer.go:38-41 | Every name found is the second colon-separated component of its key: the key is `p:name:rest`, and neither `p` nor the name has a colon. |
| Store.ScanFromFails | internal/explorer/explorer.go:30-34 | A scan fails exactly when one of its replies fails, and the error names the SCAN of that pattern. |
| Store.ScanAllKeys | internal/explorer/explorer.go:30-48 | A scan that succeeds yields the keys of all its replies, in order. |
| Store.ScanStep | internal/explorer/explorer.go:185-219 | A failed scan reply adds no keys. A successful reply adds its keys, then whatever the following replies add. A returned cursor of 0 means no replies are left. |
| Store.LPosOf | internal/explorer/explorer.go:360-372 | LPOS succeeds only with an index that holds the member. When the read itself works, it fails only if the member is absent. |
| Store.ZScoreOf | internal/explorer/explorer.go:375-397 | ZSCORE succeeds exactly when the read works and the member is in the set. |
| Store.FirstLimit | internal/explorer/explorer.go:415-441 | Range `0..limit-1` is the first `limit` elements for a positive limit. Limit 0 gives the whole collection, and a negative limit `-k` drops the last `k` elements. |
| Explorer.CountOf | internal/explorer/explorer.go:117-126 | A count read that fails counts as 0. Otherwise the count is the size of the list or sorted set. |
| Explorer.ReferencedIDsMembers | internal/explorer/explorer.go:133-182 | An ID is referenced exactly when some collection whose range read succeeds holds it. Collections whose range read fails contribute nothing. |
| Explorer.ReferencedIDsBound | internal/explorer/explorer.go:133-182 | There are never more distinct referenced IDs than entries read. |
| Explorer.ReferencedJobIDs | internal/explorer/explorer.go:131-182 | The loops over the nine collections build exactly the set of referenced IDs. |
| Explorer.AddMembers | internal/explorer/explorer.go:134-138 | Marking the IDs of one range read gives the earlier set plus every ID the read returned. |
| Explorer.JobHashCount | internal/explorer/explorer.go:191-214 | At most one job hash is counted per scanned key. |
| Explorer.JobHashCountAppend | internal/explorer/explorer.go:185-220 | Counting two runs of keys one after the other adds their counts. |
| Explorer.CountJobHashes | internal/explorer/explorer.go:185-220 | The scan loop counts the keys that are job hashes. A key counts when its suffix is not reserved, its type is `hash`, and it has a `name` field. Only the keys of the replies before the first failed reply are counted, because a failed reply ends the count. |
| Explorer.CountBatch | internal/explorer/explorer.go:191-214 | Handling one batch adds the number of its keys that are job hashes to the running count. |
| Explorer.CheckKey | internal/explorer/explorer.go:192-211 | A key passes exactly when it is a job hash. Its suffix after `bull:<queue>:` is not reserved, TYPE answers `hash` and HEXISTS finds `name`. The first check that fails, or whose read fails, rejects the key. |
| Explorer.Orphaned | internal/explorer/explorer.go:222-226 | The orphaned count is the excess of job hashes over referenced IDs, or 0 when there is none. It never exceeds the number of job hashes. |
| Explorer.StatsFor | internal/explorer/explorer.go:228-241 | The entry carries the queue's name. Its total is the sum of the nine counts and the orphaned count. |
| Explorer.QueueStatsOf | internal/explorer/explorer.go:113-242 | The statistics computed for one queue are `StatsFor` of that queue. |
| Explorer.GetQueueStats | internal/explorer/explorer.go:104-262 | The call always succeeds. It returns one entry per queue, in order, and each entry is that queue's `StatsFor`. |
| Explorer.StatsCounts | internal/explorer/explorer.go:117-126 | Each of the nine count fields is the count of its own collection. |
| Explorer.FailedCountIsZero | internal/explorer/explorer.go:117-126 | When one collection's count read fails, that count becomes 0 and every other count is unchanged. The orphaned count is unchanged, and the total drops by exactly the lost count. |
| Explorer.SuffixesDistinct | internal/explorer/explorer.go:117-126 | The nine state collections have distinct key suffixes. |
| Explorer.CountOfOther | internal/explorer/explorer.go:117-126 | A failing count read on one collection leaves every other collection's count unchanged. |
| Explorer.TotalLosesOneCount | internal/explorer/explorer.go:240 | Two consistent entries that differ only in one count, which is 0 in the second, have totals that differ by that count. |
| Explorer.ReferencedIDsIgnoreCountReads | internal/explorer/explorer.go:133-182 | The referenced IDs depend only on the contents and the range reads, not on the count reads. |
| Explorer.JobHashCountIgnoresCountReads | internal/explorer/explorer.go:191-214 | The job-hash count depends only on the TYPE and HEXISTS reads, not on the count reads. |
| Explorer.OrphanedIgnoresCountReads | internal/explorer/explorer.go:117-126 | Count reads that fail never change the orphaned count. |
| Explorer.HitsMeansMember | internal/explorer/explorer.go:360-397 | A probe hits exactly when its LPOS or ZSCORE read works and the collection holds the ID. |
| Explorer.FirstHitIsFirst | internal/explorer/explorer.go:356-400 | When probe `i` is the first probe that hits, the state is probe `i`'s state. |
| Explorer.FirstHitMiss | internal/explorer/explorer.go:399 | When no probe hits, the state is `unknown`. |
| Explorer.FirstHitFound | internal/explorer/explorer.go:356-400 | Any state other than `unknown` is the state of a probe that hits, and no earlier probe hits. |
| Explorer.DetermineJobStateSpec | internal/explorer/explorer.go:356-400 | The state is `unknown` exactly when none of the eight probes hits. Otherwise it is the state of the first probe, in the order active, waiting, paused, prioritized, waiting-children, failed, completed, delayed, that hits. |
| Explorer.FirstHitIndex | internal/explorer/explorer.go:356-400 | If any probe hits, there is a first probe that hits. |
| Explorer.FirstHitSpec | internal/explorer/explorer.go:356-400 | For any probe order whose states are never `unknown`: the answer is `unknown` exactly when no probe hits, and otherwise it is the state of the first probe that hits. |
| Explorer.PrecedenceStates | internal/explorer/explorer.go:359-392 | No probe reports `unknown`. The first six probes are the active, waiting, paused, prioritized, waiting-children and failed checks, all made before the completed check. |
| Explorer.FailedBeatsCompleted | internal/explorer/explorer.go:384-392 | A job held by the failed set is never reported as completed, delayed or unknown. |
| Explorer.StalledNotProbed | internal/explorer/explorer.go:356-400 | The contents of the stalled set never change the state. |
| Explorer.StateDependsOnHitsOnly | internal/explorer/explorer.go:356-400 | Two snapshots on which the same probes hit give the same state. |
| Explorer.DetermineJobStateNeverEmpty | internal/explorer/explorer.go:458-461 | The classifier never answers the empty string, so a listing row takes the requested state only when the answer is `unknown`. |
| Explorer.ObjectField | internal/explorer/explorer.go:291-302 | Decoding `data` or `opts` succeeds exactly when the field is absent, or holds a JSON object or null. An absent field leaves the map nil. |
| Explorer.AnyField | internal/explorer/explorer.go:303-308 | Decoding `progress` or `returnvalue` succeeds exactly when the field is absent or holds any JSON value. An absent field leaves the value nil. |
| Explorer.IntField | internal/explorer/explorer.go:309-320 | A numeric field decodes exactly when it is absent or `%d` reads a 64-bit integer from it. The value is the one read, or 0 when the field is absent. |
| Explorer.StringsField | internal/explorer/explorer.go:324-329 | `stacktrace` decodes exactly when it is absent, or holds JSON null or an array of strings and nulls. An absent field leaves the list empty. |
| Explorer.DecodeJob | internal/explorer/explorer.go:282-347 | A decoded job carries the requested ID, queue and state. |
| Explorer.GetJob | internal/explorer/explorer.go:265-353 | A failed HGETALL is passed on unchanged. An empty hash is "job not found" for that ID. A loaded job carries the requested ID and queue, and the classifier's state. |
| Explorer.WellFormedFields | internal/explorer/explorer.go:287-347 | A hash decodes exactly when each of its nine structured fields does. `name`, `failedReason` and unknown fields never fail. |
| Explorer.DecodeJobSucceedsIff | internal/explorer/explorer.go:287-347 | Decoding succeeds exactly when every field of the hash decodes. |
| Explorer.IntFieldOk | internal/explorer/explorer.go:309-320 | A numeric field decodes exactly when the field passes its own check. |
| Explorer.GetJobSucceedsIff | internal/explorer/explorer.go:272-347 | After a successful HGETALL, loading succeeds exactly when the hash is non-empty and every field decodes. |
| Explorer.GetJobFields | internal/explorer/explorer.go:282-347 | Each field of a loaded job is the stored value. `data` and `opts` are the decoded object, or nil for JSON null. `progress` and `returnvalue` are the decoded JSON. `stacktrace` is the decoded list of strings. The numbers are the values `%d` reads. An absent field gives the Go zero value, and `delay` is always 0. |
| Explorer.StateCollection | internal/explorer/explorer.go:413-444 | Exactly the nine listing states have a collection to read. Any other state is an "unknown state" error. |
| Explorer.UnixSeconds | internal/explorer/explorer.go:479 | Milliseconds become whole seconds, truncated toward zero as Go's integer division does. |
| Explorer.SummaryOf | internal/explorer/explorer.go:453-484 | A listed ID gives a row exactly when its job loads. The row has that ID and queue, and the classifier's state, or the requested state when the classifier says `unknown`. Its name, attempts and failure reason are the job's. Its timestamp is the job's milliseconds as whole seconds. Its data and opts are the encoded JSON, or empty when nil. |
| Explorer.Summarize | internal/explorer/explorer.go:454-484 | The row built for one listed ID is `SummaryOf` that ID: none when the job fails to load. |
| Explorer.FilterMapSpec | internal/explorer/explorer.go:453-485 | Filtering keeps the surviving results in input order and drops exactly the inputs that give none. |
| Explorer.SummariesSpec | internal/explorer/explorer.go:451-485 | The rows are the summaries of the listed IDs whose jobs load, in listing order. Every ID left out is one whose job fails to load. |
| Explorer.SummarizeAll | internal/explorer/explorer.go:451-487 | The loop over the listed IDs returns `Summaries` of those IDs. |
| Explorer.GetJobsByState | internal/explorer/explorer.go:403-488 | The method returns `JobsByState`. That is an "unknown state" error for a state that is not listed, the read error when the range read fails, and otherwise the rows of the IDs in range `0..limit-1`. |
| Explorer.JobsByStateReads | internal/explorer/explorer.go:413-449 | The call fails with "unknown state" exactly for states that are not listed. When the range read works, the rows are those of the first `limit` IDs, or of all IDs when the limit is 0. |
| Explorer.FirstIDs | internal/explorer/explorer.go:413-441 | A range read from 0 to `limit-1` that succeeds gives the first `limit` IDs, or all IDs when the limit is 0. |
| Explorer.ListingsFailureSticks | internal/explorer/explorer.go:506-510 | Once one state's listing fails, the whole merge is that failure. |
| Explorer.IdSetAppend | internal/explorer/explorer.go:511-516 | Appending a row adds its ID to the IDs seen. |
| Explorer.AppendUnseen | internal/explorer/explorer.go:511-517 | The inner loop extends the de-duplicated merge by one state's rows and keeps the seen set equal to its IDs. |
| Explorer.DedupeSnoc | internal/explorer/explorer.go:511-516 | One more row leaves the merge as it was when its ID is already there, and is appended to it otherwise. |
| Explorer.GetJobsAcrossStates | internal/explorer/explorer.go:491-521 | The method returns the nine listings in state order with only the first row of each ID kept, or the first listing error. |
| Explorer.VisitStates | internal/explorer/explorer.go:504-520 | For any list of states, the loop returns their listings merged in order with only the first row of each ID kept, or the first listing error. |
| Explorer.FirstWithId | internal/explorer/explorer.go:511-516 | The first row with an ID is a row of the input with that ID. |
| Explorer.DedupeDistinct | internal/explorer/explorer.go:511-516 | No two rows of the merged result share an ID. |
| Explorer.DedupeIds | internal/explorer/explorer.go:511-516 | No ID is lost: the merged result has exactly the IDs of its input. |
| Explorer.FirstWithIdAppend | internal/explorer/explorer.go:511-516 | Appending rows never changes which row comes first for an ID already present. |
| Explorer.FirstWithIdNew | internal/explorer/explorer.go:511-516 | A row whose ID is new becomes the first row with that ID. |
| Explorer.DedupeKeepsFirst | internal/explorer/explorer.go:511-516 | Every row kept is the first row of the input with its ID. |
| HttpMetrics.NormalizePath | main.go:47-68 | A path is counted exactly when its label is one of the eight route labels. An uncounted path has the empty label. |
| HttpMetrics.NormalizePathCounts | main.go:47-68 | A path is counted exactly when it is one of the five exact routes, one of the four health or readiness aliases, or starts with `/queue/`. |
| HttpMetrics.ExactRoutesKeepTheirLabel | main.go:49-60 | Each exact route is its own label. `/queue/jobs` is matched before the prefix rule. |
| HttpMetrics.NotUnderQueue | main.go:55 | A path whose second character is not `q` is not under `/queue/`. |
| HttpMetrics.QueuePathsCollapse | main.go:55-56 | Every other path under `/queue/` is counted as `/queue/:name`. |
| HttpMetrics.AliasesShareLabel | main.go:61-64 | `/healthz` is counted as `/health`, and `/readyz` as `/ready`. |
| HttpMetrics.NormalizePathIdempotent | main.go:47-68 | A label normalises to itself. |
| HttpMetrics.StatusRecorder.constructor | main.go:35 | A new recorder holds status 200 and has forwarded nothing. |
| HttpMetrics.StatusRecorder.WriteHeader | main.go:27-30 | Writing a code records it as the status and forwards it to the wrapped writer. The recorded status stays the last code forwarded. |
| HttpMetrics.InstrumentRequest | main.go:32-45 | A request is observed exactly when its path is counted. The observation carries the request method, the path's label, and the last status written (200 if none) in decimal. |
| HttpMetrics.PollSeconds | main.go:122-125 | The interval is the configured value when it is at least 1, and 1 otherwise. |
| Config.GetEnv | internal/config/config.go:43-48 | A non-empty value is returned as it is. An unset or empty variable gives the fallback, so a non-empty fallback always gives a non-empty result. |
| Config.EmptyIsUnset | internal/config/config.go:43-48 | A variable set to the empty string reads exactly like an unset one. |
| Config.GetEnvInt | internal/config/config.go:50-57 | The value `strconv.Atoi` reads from the variable. A variable that is unset, empty or not an integer gives the fallback. |
| Config.GetEnvIntFormatInt | internal/config/config.go:50-57 | A variable holding any formatted 64-bit integer reads back as that integer. |
| Numeric.AtoiFormatInt | internal/config/config.go:52 | `strconv.Atoi` reads back every formatted 64-bit integer. |
| Numeric.ScanIntFormatInt | internal/explorer/explorer.go:309-314 | `%d` reads back a formatted 64-bit integer even when non-digit text follows it. |
| Numeric.AtoiThenScanInt | internal/explorer/explorer.go:309-314 | Any text that `strconv.Atoi` accepts, `%d` reads to the same value. |
| Config.TrimmedParts | internal/config/config.go:66-71 | The kept pieces are never more than the pieces. |
| Config.GetEnvList | internal/config/config.go:59-73 | The loop returns the trimmed, non-empty comma-separated pieces in order. A blank value gives the empty list. |
| Config.TrimmedPartsClean | internal/config/config.go:66-71 | Trimmed pieces of comma-free text are clean: non-empty, no white space at either end, and no comma. |
| Config.EnvListBlank | internal/config/config.go:60-63 | A blank or all-white-space value gives the empty list. |
| Config.EnvListClean | internal/config/config.go:59-73 | Every element of the list is clean. |
| Config.EnvListLength | internal/config/config.go:59-73 | The list has at most one element more than the value has commas. |
| Config.TrimmedPartsOfClean | internal/config/config.go:66-71 | Clean pieces are kept as they are. |
| Config.EnvListOfJoin | internal/config/config.go:59-73 | Joining clean elements with commas and reading the variable back gives the same elements in the same order. |
| Config.LoadNeverEmpty | internal/config/config.go:26-41 | The Redis address, server port, queue prefix and log level are never empty. |
| Config.LoadDefaults | internal/config/config.go:26-41 | The empty environment gives address `127.0.0.1:6379`, DB 0, port `8080`, prefix `bull`, poll 10 and log level `info`. It gives empty credentials and master, and an empty sentinel list. |
| Config.LoadSentinelAddrsClean | internal/config/config.go:33 | The sentinel addresses are always clean. |
| RedisCli.Repl | cmd/redis-cli/main.go:42-232 | The loop dispatches, in order, the command of every non-blank line. It stops after the first QUIT or EXIT. |
| RedisCli.BlankLinesSkipped | cmd/redis-cli/main.go:49-52 | A line is skipped exactly when it is empty or all white space. |
| RedisCli.CommandCaseInsensitive | cmd/redis-cli/main.go:54-55 | Writing the command name in lower or upper case dispatches to the same command. |
| RedisCli.UsageIff | cmd/redis-cli/main.go:61-65 | The usage message is shown exactly when a one-argument command (KEYS, GET, HGETALL, LLEN, SCARD, SMEMBERS, TYPE or QUEUE-STATS) has fewer than 2 fields, or LRANGE has fewer than 4. It names the upper-cased command. |
| RedisCli.StoreCallsHaveArguments | cmd/redis-cli/main.go:61-222 | Redis is called only for a recognised command with the fields it needs. The key, pattern or queue is the second field, and LRANGE's bounds are `parseInt` of the third and fourth fields. |
| RedisCli.QuitIff | cmd/redis-cli/main.go:224-226 | The session ends exactly on QUIT or EXIT, in any case. |
| RedisCli.UnknownIff | cmd/redis-cli/main.go:228-230 | Exactly the unrecognised names get the unknown-command message, which echoes the upper-cased name. |
| RedisCli.QuitIsLast | cmd/redis-cli/main.go:224-226 | Quit, when dispatched, is the last command. |
| RedisCli.SessionQuitIsLast | cmd/redis-cli/main.go:224-226 | In a session, Quit is the last command and the only Quit. |
| RedisCli.DispatchedLength | cmd/redis-cli/main.go:43-52 | At most one command is dispatched per classified line. |
| RedisCli.SessionLength | cmd/redis-cli/main.go:43-52 | A session dispatches at most one command per input line. |
| RedisCli.StopsAtQuit | cmd/redis-cli/main.go:224-226 | Lines that follow a Quit are not classified. |
| RedisCli.SessionStopsAtQuit | cmd/redis-cli/main.go:224-226 | Once QUIT or EXIT has been dispatched, later input lines are never read. |
| RedisCli.DispatchedAppend | cmd/redis-cli/main.go:43-52 | Without a Quit, the dispatched commands of two runs of lines are those of each run, one after the other. |
| RedisCli.SessionAppend | cmd/redis-cli/main.go:43-52 | Without a Quit, a session over two runs of input lines is the two sessions one after the other. |
| RedisCli.Truncate | cmd/redis-cli/main.go:261-266 | A value of at most `maxLen` bytes is kept. A longer one becomes its first `maxLen` bytes followed by `...`. |
| RedisCli.TruncateBounds | cmd/redis-cli/main.go:261-266 | The result is at most `maxLen`+3 bytes long and starts with the input's first bytes. |
| RedisCli.TruncateIdempotent | cmd/redis-cli/main.go:261-266 | Truncating twice gives the same as truncating once. |
| RedisCli.TruncateCanLengthen | cmd/redis-cli/main.go:261-266 | A value one or two bytes over the limit comes out longer than it went in. |
| RedisCli.ParseIntNoNumber | cmd/redis-cli/main.go:268-272 | `parseInt` gives 0 when, after leading blanks and an optional sign, the text does not start with a digit. |
| RedisCli.ParseIntFormatInt | cmd/redis-cli/main.go:268-272 | `parseInt` reads back a formatted 64-bit integer, whatever non-digit text follows it. |
| RedisCli.MapAppend | cmd/redis-cli/main.go:43-52 | Classifying two runs of lines gives the classifications of each run, one after the other. |

## Left out

- Redis itself: the network, timeouts, the `context` arguments and the client library. Reads are taken from an immutable snapshot. Concurrent writers, which could change the keyspace between two reads, are not modelled.
- Transient read failures: whether a read fails depends only on its command and key. The model does not capture a read that fails once and succeeds when repeated, or the reverse. Examples are a classifier probe that fails for one listed job but not for the next, or a job that fails to load in one state's listing and loads in a later one.
- Redis glob matching: a scan's replies are given for each pattern in the snapshot, and it is not checked that the keys match the pattern.
- Sorted-set scores: members are kept in score order, and ZSCORE's value is replaced by the member's rank. No caller uses the score.
- `ZRangeWithScores` on `delayed` and `stalled`: a member that is not a string cannot occur in the model.
- JSON: `encoding/json` is a parameter (`Codec`). Its parser and encoder are not modelled. `json.Marshal` of a decoded map is assumed never to fail.
- Prometheus metrics, timers and durations (`metrics.*`, `time.Now`, `time.Since`): they have no effect on results. The histogram is modelled only as the labels an observation carries.
- The nil-versus-empty slice distinction in Go results: both are the empty sequence.
- Explorer.GetQueueStats: counts are unbounded naturals. The model does not wrap 64-bit counters, and no realistic keyspace reaches that size.
- Explorer.UnixSeconds: the result is seconds. Building a `time.Time` from them is not modelled.
- HttpMetrics.InstrumentRequest: the handler is given as the status codes it writes. Its response body, and a handler that writes no header but writes a body, are not modelled (both leave the status at 200, as in the model).
- The `main` function of the server: signal handling, the HTTP server and mux, shutdown, and the poller's ticker and logging. Only the poll clamp is modelled.
- The web handlers, templates and the load-generator script are not part of this model.
- RedisCli: command-line flags, the connection test, everything printed, and the Redis calls each command makes are not modelled. That includes the legacy QUEUE-STATS reads, which use SCARD for failed and completed. A line is modelled by the command it dispatches to.
- RedisCli.Repl: `bufio.Scanner`'s 64 KiB line limit is not modelled. Input is a sequence of lines.
- RedisCli.Truncate: `maxLen` is a natural number. Go would panic on a negative one, and the program passes only 100.
- Text.ToUpper: Unicode upper-casing is modelled for ASCII and for the two non-ASCII runes whose upper case is ASCII. Other runes are left as they are. This does not change which command names are recognised, because every name is ASCII.
