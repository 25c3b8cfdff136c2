# jig-mcp: verified model of the audit log, metrics, dispatch, SSE and stdio cores

jig-mcp is a server that lets MCP clients call tools. Most of it is plumbing around processes and HTTP; four
stateful cores decide whether it keeps its promises, and this project models those in Dafny 4.11 and proves
properties of every run of them. Check everything with `dafny verify dfyconfig.toml`.

The environment is nondeterministic: which system calls fail, how goroutines interleave, in which order a Go map
is iterated, which ready case a `select` takes, what a tool returns and when the process dies are all parameters
or steps that the theorems quantify over.

## What is modelled

- **Audit log** (`AuditStore`, `AuditRetention`, `AuditFaults`, `AuditWriter`). The directory is a map from slot number (0 for
  `audit.jsonl`, i for `audit.jsonl.i`) to the lines in it. `AuditWriter` is the writer object with its handle
  fields and the in-place chain of renames; `AuditStore` is the same operations as functions of a value, which the
  class is proved against. `AuditRetention` is what a failure-free run of them leaves on disk, described by a greedy
  cut of the unbounded history into files: the directory is exactly the last `maxFiles + 1` pieces. `AuditFaults` is
  what survives when system calls fail: slot by slot in one rotation, line by line in one write, and over whole runs.
- **Readers of the log** (`Bufio`, `Metrics`, `Restart`, `TailRead`, `RecentCalls`, `Strings`, `Timestamp`). The
  line scanner with its buffer limit, the counters and their seeding at start-up, the dashboard's tail read over
  bytes, and what that shows of everything ever recorded.
- **Tool calls** (`Dispatch`, `Server`, `RestartWitness`). `Dispatch` interleaves the steps of any number of calls,
  with process restarts on the same directory; `Server` is one call from start to finish in sequential form, on the
  real writer, registry and counter objects, with deferred release and recovery, and simulated by the steps of
  `Dispatch`; `RestartWitness` builds runs, among them ones whose counters do not survive a restart.
- **SSE sessions** (`Sse`, `SseHub`). Sessions, POST handlers that outlive the map entry, and the shutdown sweep,
  as interleaved steps; `SseHub` runs the source's sweep and drain loops against arbitrary schedules of the others.
- **Stdio** (`Protocol`, `Stdio`, `StdioServer`). A goroutine per scanned line, output written byte by byte under
  the mutex.
- **Data transformations** (`Auth`, `ToolLoading`, `QueryMerge`, `OutputNormalization`).

`Seqs` and `Json` hold shared vocabulary.

## Where the code differs from what it is meant to do

Each item is stated as an exact condition, for all inputs, in the lemmas named; where it says so, further lemmas
give inputs or runs on which the condition fails.

- A very large `JIG_LOG_MAX_SIZE_MB`, which README.md:185 of the repository recommends for switching rotation off,
  overflows 64 bits from 2^43 MB on; from there to 2^44 - 1 MB every write rotates and each file keeps one line
  (`LimitIsExactIff`, `LimitNotPositiveIff`, `HugeLimitKeepsOneLinePerFile`). When rotation does start is
  `RotatedIff`.
- Counters are meant to survive restarts. They do if and only if, at the start, no rotated file held a line and no
  line of the current file was longer than the scanner's 64 KiB buffer; the scanner stops at such a line
  (`SeedReproducesIff`, `MetricsSurviveRestartsIff`). In terms of the lines written: they were short and, but for
  the last, stayed below the rotation limit (`ReadableIff`, `MetricsSurviveWhileShort`). Any list of entries is
  recorded by some run that then restarts (`RecordedThenRestarted`), so with any log settings there are runs that
  lose calls for either reason (`RotationLosesCalls`, `LongLineLosesCalls`, `CountersCanBeLost`).
- The dashboard shows no entry of a non-empty log exactly when the file exceeds 64 KiB and its last line has 64 KiB
  or more (`NoTailIff`, `ShowsNothingIff`).
- A POST can be answered 202 although its response never reaches the client: the buffer accepts messages after the
  session's handler has returned. A response reaches the client of such a session exactly if it had been
  acknowledged when the handler returned and was not then still buffered (`ExitStepExists`, `ReachesClientIff`,
  `ExitFreezes`); `AcknowledgedButLost` is a run on which one is lost.
- A `tools/call` whose tool yields JSON `null` produces a response with neither result nor error (`ResponseShape`),
  and a server lists `null` instead of an empty list exactly when it has no tools (`ListingOnTheWire`).

## Model

| member | source | states |
|---|---|---|
| `AuditStore.LimitIsExactIff` | internal/audit/audit.go:35-42 | the threshold used is the configured number of megabytes exactly below 2^43 MB |
| `AuditStore.SettingsUsed` | internal/audit/audit.go:34-52 | unset, unparsable and non-positive settings give 50 MB and 3 files; a positive file count is used as it is |
| `AuditStore.LimitNotPositiveIff` | internal/audit/audit.go:35-42 | the wrapped threshold is not positive exactly when the setting modulo 2^44 MB is 0 or at least 2^43 MB |
| `AuditRetention.ConfiguredDiskBound` | internal/audit/audit.go:35-52 | for a setting that does not wrap, and any file-count setting, the directory bound in terms of the configured megabytes |
| `AuditRetention.RotateMovesUp` | internal/audit/audit.go:143-185 | without failures a rotation drops slot maxFiles, moves every other slot up by exactly one, and leaves an empty open current file |
| `AuditRetention.RunIsLastChunks` | internal/audit/audit.go:143-249 | after any failure-free run of writes, closes and initialisations the directory is the last maxFiles + 1 pieces of the greedy cut of the whole history, slot by slot |
| `AuditRetention.Retention` | internal/audit/audit.go:143-249 | the files, oldest first, are a whole-line suffix of everything written; once a line is gone the rotated files alone hold at least maxFiles times the limit |
| `AuditRetention.DiskBound` | internal/audit/audit.go:155-176 | slots are contiguous, none is above maxFiles, and no file exceeds limit - 1 plus the longest line |
| `AuditRetention.TotalDiskBound` | internal/audit/audit.go:242-246 | the directory holds at most (maxFiles + 1)(limit - 1 + longest line) bytes |
| `AuditRetention.SizeIsBytes` | internal/audit/audit.go:242 | the size compared with the limit is the number of bytes in the file |
| `AuditRetention.RotatedIff` | internal/audit/audit.go:241-244 | a rotated file exists exactly when all lines but the last already reached the limit |
| `AuditRetention.WrappedLimitKeepsOneLinePerFile` | internal/audit/audit.go:35-42 | with a wrapped, non-positive limit every file holds at most one line |
| `AuditRetention.HugeLimitKeepsOneLinePerFile` | internal/audit/audit.go:35-42 | any setting from 2^43 to 2^44 - 1 MB keeps one line per file |
| `AuditFaults.ShiftKeepsSubsequence` | internal/audit/audit.go:164-171 | the descending renames keep the oldest-to-newest reading a subsequence whichever of them fail |
| `AuditFaults.RotateSlot` | internal/audit/audit.go:155-176 | whichever calls fail, a rotated slot holds afterwards what was moved up into it, or else what stayed because its own removal or rename failed |
| `AuditFaults.RotateCurrent` | internal/audit/audit.go:173-184 | the current file is empty after a successful rename and untouched after a failed one, and open exactly if reopening works |
| `AuditFaults.CurrentSurvives` | internal/audit/audit.go:173-184 | what the current file held is afterwards in slot 1, or still in slot 0 if its rename failed |
| `AuditFaults.LostIff` | internal/audit/audit.go:155-176 | a file is lost by a rotation exactly if it was the oldest and its removal worked, or it stayed in place and the file below was renamed onto it |
| `AuditFaults.RotateKeepsSubsequence` | internal/audit/audit.go:158-184 | a whole rotation keeps the oldest-to-newest reading a subsequence, whichever of its removal, renames and reopening fail |
| `AuditFaults.WriteCurrent` | internal/audit/audit.go:201-248 | a write ends the current file with its line exactly if there is a handle, also after a rotation, and the write works; a failing Stat only prevents the rotation |
| `AuditFaults.WriteKeepsCurrent` | internal/audit/audit.go:201-248 | whichever calls fail, afterwards the directory reads at its end as what the current file held, followed by the line if it landed |
| `AuditFaults.AnyFaultsKeepSubsequence` | internal/audit/audit.go:190-249 | for every run with any failing calls the directory reads as an order-preserving, duplicate-free subsequence of the lines that reached the disk |
| `AuditFaults.LandedOfHistory` | internal/audit/audit.go:190-249 | the lines that reached the disk are a subsequence of those submitted, and all of them when nothing fails |
| `AuditFaults.LastLandedIsKept` | internal/audit/audit.go:190-249 | with a positive limit, whatever fails over a whole run, the last line that reached the disk is the last line held |
| `AuditFaults.RetentionUnlessRenamesFail` | internal/audit/audit.go:143-249 | as long as no rename fails, whatever else does, the directory reads as the end of the lines that reached the disk, and once one is gone the rotated files hold at least maxFiles times the limit |
| `AuditWriter.AuditWriter.Init` | internal/audit/audit.go:66-125 | a successful initialisation opens and creates the current file and records the handles; a failed one changes nothing |
| `AuditWriter.AuditWriter.RotateFiles` | internal/audit/audit.go:143-185 | the in-place loop of renames computes the specified rotation under any failures |
| `AuditWriter.AuditWriter.Write` | internal/audit/audit.go:190-249 | lazy reopening, rotation at the limit and the append give the specified store, and the object stays the outcome of its run |
| `AuditWriter.AuditWriter.Close` | internal/audit/audit.go:263-279 | handles and recorded directory are dropped, files untouched |
| `AuditWriter.AuditWriter.Retained` | internal/audit/audit.go:143-249 | at any moment the object's files satisfy the retention and failure theorems, the latter in terms of the lines that reached the disk |
| `Bufio.Scanner.Scan` | internal/dashboard/dashboard.go:94-95 | each call yields the next token of the scan, or stops for good at the end or at an overlong line |
| `Bufio.ScanWholeLines` | internal/dashboard/dashboard.go:94-97 | scanning whole lines yields their texts up to the first line longer than the buffer |
| `Bufio.TextOfLine` | internal/dashboard/dashboard.go:94-97 | a token is the line without its newline, or without its carriage return and newline |
| `Bufio.ScanUnfinished` | internal/dashboard/dashboard.go:94-97 | a last line without a newline is yielded too, exactly if it is shorter than the buffer |
| `Metrics.MetricsStore.RecordMetric` | internal/dashboard/dashboard.go:34-44 | the tool's count and milliseconds are incremented, starting from zero for a new tool |
| `Metrics.MetricsStore.GetMetrics` | internal/dashboard/dashboard.go:47-62 | per tool, the count, and an average that times the count gives the total |
| `Metrics.MetricsStore.SeedMetricsFromLog` | internal/dashboard/dashboard.go:66-107 | every scanned line that parses is folded into the counters, other lines and a missing file change nothing |
| `Metrics.TallyCounts` | internal/dashboard/dashboard.go:34-44 | recording calls one by one leaves, for exactly the tools called, their number of calls and summed durations |
| `Metrics.SameBagSameTally` | internal/dashboard/dashboard.go:34-44 | the counters do not depend on the order of recording |
| `Metrics.ReadRecorded` | internal/audit/audit.go:344-349 | reading back recorded entries gives what readers see of them, everything but the caller, up to the first that overflows the scanner |
| `Restart.CurrentFile` | internal/dashboard/dashboard.go:81-89 | the current file is a suffix of the history, and all of it exactly when slot 1 holds nothing |
| `Restart.RotatedLineIff` | internal/audit/audit.go:241-244 | slot 1 holds a line exactly when at least two lines were written and all but the last had reached the limit |
| `Restart.SeedReproducesIff` | internal/dashboard/dashboard.go:66-107 | seeding reproduces the counters of everything recorded if and only if slot 1 holds nothing and every line of the current file fits the scanner |
| `Restart.ReadableIff` | internal/dashboard/dashboard.go:66-107 | the directory is fully readable at a start exactly when every line written fits the scanner and all but the last stay below the limit |
| `Restart.SeededThenCalls` | internal/dashboard/dashboard.go:66-107 | seeding and then handling calls counts the lines read followed by those calls |
| `TailRead.GetAuditLogs` | internal/dashboard/dashboard.go:488-558 | the seek, scan, sort and cut give the specified entries, and a missing file gives none |
| `TailRead.ReadTail` | internal/dashboard/dashboard.go:531-547 | the loop parses every token after a partial first one |
| `TailRead.TailIsWholeLines` | internal/dashboard/dashboard.go:516-547 | the tokens looked at are exactly the whole lines starting strictly after the seek position, or all lines of a short file |
| `TailRead.StableSortSorts` | internal/dashboard/dashboard.go:550-552 | the sort is newest first, a permutation, and keeps the order of equal timestamps |
| `TailRead.StableSortUnique` | internal/dashboard/dashboard.go:550-552 | any stable descending sort gives the same result |
| `TailRead.ShowsNewest` | internal/dashboard/dashboard.go:516-557 | of whole lines, the first min(limit, n) of the sorted parsed tail are shown and none left out is newer than one shown |
| `TailRead.ShowsNewestInTime` | internal/dashboard/dashboard.go:550-556 | with genuine timestamps the same holds of the moments they denote |
| `TailRead.NoTailIff` | internal/dashboard/dashboard.go:516-540 | the tail holds no whole line exactly when the file exceeds 64 KiB and its last line has 64 KiB or more |
| `TailRead.ShownOfRecorded` | internal/dashboard/dashboard.go:516-557 | of recorded entries the whole lines of the tail are the last ones, and the first limit of their visible parts in stable newest-first order are shown |
| `TailRead.ShowsNothingIff` | internal/dashboard/dashboard.go:516-557 | asked for some entries of a file of recorded entries, the dashboard shows none exactly when there are none or the tail holds no whole line in the sense above |
| `RecentCalls.NewestOfAll` | internal/dashboard/dashboard.go:516-557 | without log failures and with timestamps in write order, no entry ever recorded, in whatever file or dropped, is newer than an entry shown of the current file; min(limit, whole lines of the tail) are shown |
| `Timestamp.FormatShape` | internal/audit/audit.go:331 | a timestamp has the fields at the fixed positions of RFC 3339 |
| `Timestamp.FormatComparesFields` | internal/audit/audit.go:331 | string order of formatted timestamps is order by the first differing field |
| `Timestamp.StringOrderIsTimeOrder` | internal/audit/audit.go:331 | for UTC times in years 0 to 9999 string order is chronological order to the second |
| `Dispatch.SemaphoreSafe` | internal/server/request.go:109-164 | in every reachable state tokens are the calls past the acquire and not released, within capacity; each exit released what it acquired, rejected calls hold nothing and never ran their tool, and all finished means none held |
| `Dispatch.MetricsAgree` | internal/server/request.go:156-162 | in every reachable state, per tool, audit lines equal the metric count plus the calls between audit and metric, and likewise milliseconds |
| `Dispatch.QuietMetrics` | internal/server/request.go:159-162 | with no call in between, the counters are those of the lines read at the start and written since |
| `Dispatch.MetricsSurviveRestartsIff` | cmd/jig-mcp/main.go:288-325 | across any restarts without log failures the counters at a quiet moment are those of every call ever recorded if and only if the log was fully readable at the last start |
| `Dispatch.MetricsSurviveWhileShort` | cmd/jig-mcp/main.go:288-325 | the same in terms of the lines earlier processes wrote: each fits the scanner, and all but the last stay below the limit |
| `RestartWitness.RecordedThenRestarted` | cmd/jig-mcp/main.go:288-325 | for any entries of registered tools some run records exactly them and restarts, and its counters are right if and only if the lines meet that condition |
| `RestartWitness.RotationLosesCalls` | internal/audit/audit.go:241-244 | for any sound encoding and any short entry there is a quiet run without failures whose short lines rotate and whose counters miss recorded calls |
| `RestartWitness.LongLineLosesCalls` | internal/dashboard/dashboard.go:94-97 | for any entry whose line is longer than the scanner's buffer there is a quiet run recording only it whose counters miss it |
| `RestartWitness.CountersCanBeLost` | internal/dashboard/dashboard.go:64-107 | with any log settings, for a concrete sound encoding, both kinds of run exist |
| `Dispatch.FilesHoldLastRecorded` | internal/audit/audit.go:344-349 | whatever calls and restarts happen, without log failures the files read as the last lines recorded |
| `Dispatch.LedgerStep` | internal/server/request.go:109-164 | each step keeps: lines audited are the entries of calls past the audit, counts are the seed plus the entries of calls past the metric |
| `Dispatch.SemaphoreStep` | internal/server/request.go:134-150 | each step keeps the token count, the capacity bound and each call's record of acquiring, releasing and running |
| `Server.RedactArguments` | internal/audit/audit.go:282-304 | exactly the arguments the schema marks sensitive are masked, in any iteration order |
| `Server.DescribeResult` | internal/audit/audit.go:308-342 | success unless the result says isError; failures carry the first content text or a fixed text |
| `Server.Server.MarkedStayOut` | internal/audit/audit.go:282-304 | calls that differ only in arguments the schema marks sensitive have the same log entry |
| `Server.Server.EntryShows` | internal/audit/audit.go:328-338 | the entry carries tool, caller, time and milliseconds, and every argument, the marked ones masked and the others unchanged |
| `Server.Server.EntryTellsFailure` | internal/audit/audit.go:308-342 | a call is logged as failed exactly if its result has isError true, then with the text of the first content item or, without one, a fixed text |
| `Server.Server.Record` | internal/audit/audit.go:307-350 | one line is written, encoding the entry the three rows above describe |
| `Server.Server.HandleToolCall` | internal/server/request.go:97-165 | on every path tokens are as before; log and counters change together and only when the handler returned; each path has its reply |
| `Server.Server.HandleAsSteps` | internal/server/request.go:97-165 | from any state of the interleaved model agreeing with the object, the steps of the call lead to one agreeing with the object after the call |
| `Server.CallAlone` | internal/server/request.go:97-165 | with a semaphore or without, the interleaved steps of a refused, panicking or returning call, run alone, are enabled in turn, leave the tokens as they were, and add one audit line and one count exactly if the handler returned |
| `Sse.Queue` | internal/sse/sse.go:153-158 | enqueued is delivered followed by buffered, at most 100 buffered |
| `Sse.NoticeStep` | internal/sse/sse.go:52-56 | in each step of the sweep that offers the shutdown notice it is enqueued exactly if fewer than 100 messages are buffered |
| `Sse.NoticedOnce` | internal/sse/sse.go:46-60 | every session is offered the notice as often as it is closed or about to be, hence at most once |
| `Sse.Delivery` | internal/sse/sse.go:153-176 | a handler that left through done was offered the notice in exactly one step and closed in a later one; it has delivered in order everything enqueued up to the close, the notice among it exactly if fewer than 100 messages were buffered in that step |
| `Sse.CloseOnce` | internal/sse/sse.go:46-60 | done is closed at most once, sessions in the map are open outside the sweep's close and delete, and the map is empty when the sweep's loop is over |
| `Sse.NotFoundIff` | internal/sse/sse.go:191-198 | a POST is answered 404 exactly if its session is not in the map when it is looked up |
| `Sse.AnswerFinal` | internal/sse/sse.go:179-237 | a POST is answered once |
| `Sse.AcknowledgedOnce` | internal/sse/sse.go:231-236 | a response is enqueued once if its POST was acknowledged and never otherwise, so it is delivered at most once |
| `Sse.ExitFreezes` | internal/sse/sse.go:134-140 | after a handler returns nothing more is delivered and the buffer only grows |
| `Sse.ExitStepExists` | internal/sse/sse.go:161-176 | a handler that has returned did so by finding its buffer empty after `done` or by its context ending |
| `Sse.ReachesClientIff` | internal/sse/sse.go:153-176 | at any time after a handler has returned, delivered are exactly the responses acknowledged when it returned and not then buffered; a handler returning from its drain loop leaves none buffered |
| `Sse.AcknowledgedButLost` | internal/sse/sse.go:191-237 | a run in which an acknowledged response never reaches the client |
| `Sse.PotentialStep` | internal/sse/sse.go:162-172 | for a closed or removed session, buffered messages plus unanswered POSTs that looked it up never grow, and shrink with every message taken |
| `Sse.DrainEnds` | internal/sse/sse.go:162-172 | every run takes at most that many messages from then on, one for each buffered message and each such POST, so the drain loop ends under every schedule |
| `Sse.DrainedLeaves` | internal/sse/sse.go:169-170 | with nothing left a draining handler can only leave, and no POST can give it more |
| `SseHub.Hub.CloseAllSessions` | internal/sse/sse.go:46-60 | in any visiting order and against any schedule the sweep offers each session it found the notice, which its buffer takes exactly if it has room, closes it exactly once, closes no other, and leaves the map empty |
| `SseHub.Hub.DrainLoop` | internal/sse/sse.go:162-172 | the loop ends against any schedule and leaves having delivered everything enqueued |
| `Protocol.ResponseShape` | internal/server/request.go:53-94 | version and id are on every response, an error appears exactly for unknown methods, and exactly one of result and error unless a tool call yields nil |
| `Protocol.ListingOnTheWire` | internal/server/request.go:69-79 | a tools/list result carries name, description and input schema of each tool of the listing in its order, and null exactly if there are none |
| `Protocol.OtherAnswers` | internal/server/request.go:58-92 | the handshake names protocol version and server, ping is answered by an empty object, an unknown method by code -32601 and its name |
| `Stdio.OutputStep` | cmd/jig-mcp/main.go:220-222 | each step keeps stdout equal to the completed lines followed by what the mutex holder has written so far |
| `Stdio.ExactlyOnce` | cmd/jig-mcp/main.go:191-224 | when all goroutines are done stdout is whole lines, one per answered input line, each echoing its id; a line that decodes to a request with a non-null id is left out only if its response does not encode, and every other line is |
| `Stdio.AllWantedAnswered` | cmd/jig-mcp/main.go:199-219 | if every response encodes, answered are exactly the lines that decode to a request whose id is there and not null |
| `Stdio.ReadsUntilLongLine` | cmd/jig-mcp/main.go:188-191 | of whole input lines exactly those before the first longer than 1 MiB are read |
| `StdioServer.Server.RunStdioServer` | cmd/jig-mcp/main.go:188-225 | one goroutine is started per scanned line, goroutine i on line i, whatever runs in between |
| `StdioServer.Server.Served` | cmd/jig-mcp/main.go:188-225 | once they have all returned the object's stdout satisfies the theorem |
| `Auth.TokenRegistry.InitTokenRegistry` | internal/auth/auth.go:68-100 | the plural setting wins, replaces the entries only if some parse, and otherwise the singular one gives a default entry |
| `Auth.TokenRegistry.Lookup` | internal/auth/auth.go:104-114 | the owner of the first entry with the token, or nothing |
| `Auth.IgnoredIff` | internal/auth/auth.go:72-80 | a segment gives no entry exactly if it has no colon, or nothing but space before or after its first one |
| `Auth.TokenListRoundTrip` | internal/auth/auth.go:69-92 | well-formed entries with any padding, and any malformed or blank segments between them, parse back to the same list |
| `Auth.ParsingNormalises` | internal/auth/auth.go:71-82 | every parsed entry is well-formed and writing entries plainly and parsing again changes nothing |
| `ToolLoading.ValidatePlatformConfig` | internal/config/config.go:71-91 | accepted exactly if command and arguments have none of the eight single metacharacters and no dollar before a parenthesis or brace, and the command no blank or tab |
| `ToolLoading.ValidateToolConfig` | internal/config/config.go:95-105 | the verdict is independent of the order in which platforms are visited |
| `ToolLoading.LoadManifests` | internal/config/config.go:122-174 | exactly the valid, enabled manifests are loaded, in order and with their kind |
| `ToolLoading.LoadedIff` | internal/config/config.go:152-170 | a manifest gives a tool exactly if it has an http section, an enabled terminal section, or platforms and no terminal section, and its platforms are accepted; its kind follows in that order |
| `ToolLoading.ProbeScripts` | internal/config/config.go:180-275 | exactly the scripts with complete metadata and a name no manifest took, in order |
| `ToolLoading.ScriptRunsItself` | internal/config/config.go:233-270 | a script gives a tool exactly if its metadata is complete; the tool shows that metadata and runs that script on the platforms of its extension |
| `ToolLoading.LoadTools` | cmd/jig-mcp/main.go:135-163 | each name resolves to the last loaded manifest of that name, else the last qualifying script, and every key is its tool's name |
| `ToolLoading.Registry.RegisterTool` | internal/tools/registry.go:59-63 | one binding is added or replaced |
| `ToolLoading.ListTools` | internal/server/request.go:69-79 | collecting in any iteration order and sorting gives the listing |
| `ToolLoading.AnySortGivesListing` | internal/server/request.go:74-76 | so does any outcome of an unstable sort |
| `ToolLoading.ListingUnique` | internal/server/request.go:69-79 | there is only one strictly increasing listing of a registry |
| `ToolLoading.ListsWhatResolves` | internal/server/request.go:123-132 | the listing names exactly the tools a call resolves, each with the description and schema of its configuration |
| `QueryMerge.BuildQuery` | internal/tools/http.go:74-135 | whatever the orders of the three maps, each key has the value of the layering |
| `QueryMerge.LayeringDetermines` | internal/tools/http.go:82-132 | the layering determines the whole query |
| `QueryMerge.Precedence` | internal/tools/http.go:82-132 | the values of a key: other arguments on GET, else `query_params`, whose lists follow the manifest's value or else the URL's values, else the manifest, else the URL |
| `QueryMerge.LowerLayersShowIff` | internal/tools/http.go:82-132 | URL and manifest make a difference to a key exactly when neither an argument nor a scalar of `query_params` decides it and they give it different values |
| `OutputNormalization.NormalizeOutput` | internal/tools/external.go:92-149 | the checks in source order, with the early return, compute the normal form |
| `OutputNormalization.NormalizedIsWellFormed` | internal/tools/external.go:121-149 | every JSON object becomes a result with a content list whose images carry non-empty valid base64; other values pass through |
| `OutputNormalization.NormalizeIdempotent` | internal/tools/external.go:92-149 | normalising twice is normalising once, and unchanged objects are exactly the well-formed results |
| `OutputNormalization.UnusableFails` | internal/tools/external.go:129-147 | an image without non-empty valid base64 fails the result, marked isError, with the reason of the first such image |
| `OutputNormalization.UsableUnchangedIff` | internal/tools/external.go:121-149 | an object is returned as it is exactly if it has a content list without such images |
| `OutputNormalization.ContentPreserved` | internal/tools/external.go:107-127 | a lone text, image or resource item becomes the only content item, or fails if it is such an image; any other object without a content list is rendered as text |

## Left out

- Process execution, Docker wrapping, pipes, HTTP client and server machinery: a tool is an arbitrary choice of return value or panic.
- Resource limits (`internal/rlimit`): system calls only.
- JSON, YAML, URL and base64 decoding, number formatting and environment expansion are function parameters; where a theorem needs an encoder to be inverted by its decoder, that is a `Sound` precondition.
- Changing the log directory, size limit or file count during a run: they are fixed, so files above a lowered count are not considered.
- `audit.Init`'s parsing of settings: a setting is unset, unparsable or a number.
- A log write is all-or-nothing: partial writes of a line are not modelled.
- Rate limiting of write warnings: it affects only the program's own log.
- Counters are unbounded: wrap-around of the 64-bit millisecond sum is not modelled.
- Waiting for in-flight tools at shutdown and its grace period: real time.
- The endpoint event and the keep-alive comments of SSE streams: they change no modelled state. Timers are choices a step may take.
- Session identifiers are fresh by numbering; a collision of random identifiers is not modelled.
- Header merging of HTTP tools: keys are canonicalised by the library, so the outcome can depend on iteration order when two spellings coincide.
- The URL prefix allowlist, request bodies and response handling of HTTP tools, and the terminal tool.
- Authentication middleware: the identity a call's context carries is a parameter.
- A panic after the handler returned and before its audit line is written: a step of `Dispatch`, but not a path of the sequential `Server`.
- The timeout around `/message` (internal/sse/sse.go:265-269): a client may get its 503 while the handler still runs; `Sse` says what the handler itself answers.
- Removing and swapping registered tools: map deletion and assignment, done by no modelled operation.
- Dashboard HTML, tool details and concurrency figures; installers and scripts.
- Invalid UTF-8 in token settings: strings are sequences of code points.
