# GlideWay scan core in Dafny

GlideWay is a desktop security toolkit: a Go back end (Wails bindings) and a Vue front end with Pinia stores. This project models its scanning core and proves properties of the model:

- **Wordlist enumerator and path-scan pipeline** (`apps/dirsearch/dirsearch.go`, module `Dirsearch`). This covers:
  - the dictionary parsing (split on `"\n"`, `TrimSpace`, drop blank and `#` lines);
  - the fail-fast checks of `ScanDir`;
  - the batching producer;
  - a worker and the `actualScanned` counter of `processPath`;
  - the change-only progress sampler;
  - the result loop with `handleResult`.
- **Banner service classifier and port enumeration** (`apps/scanner/scanner.go`, module `Scanner`). `probeService` reads the first line, trims and lowercases it, and takes the first matching substring rule. `ScanPorts` walks ports 1..65535.
- **Job controllers.** These are:
  - the port-scan controller and the reject-if-running dirsearch controller of `func.go` (module `Func`);
  - the reject-if-running controller with speed of `func_dirsearch.go` (module `FuncDirsearch`);
  - the replace-if-running `App` of `apps/dirsearch/app.go` (module `DirsearchApp`).

  The nullable "current job" pointer is a field of type `Func.ScanControl?` or `DirsearchJobs.DirsearchControl?`. The worker callbacks and the end of the scan goroutine are explicit method calls, and the `runtime.EventsEmit` calls append to an `events` log. `func.go` and `func_dirsearch.go` declare the job record and the path payload with the same fields, and all three controllers emit the same finish events. These are declared once (module `DirsearchJobs`).
- **Front-end Pinia stores** (`frontend/src/stores/dirsearchStore.js`, `gitdorkerStore.js`, `scannerStore.js`, modules `DirsearchStore`, `GitdorkerStore`, `ScannerStore`). Each store is a class whose actions assign its fields.

Shared modules:
- `Text`: Go's `strings.TrimSpace`, `Split`, `HasPrefix`, `Contains` and `ToLower` on `seq<char>`.
- `Int32`: Go's `int32` wrap-around.
- `Js`: JavaScript values, truthiness and property access.
- `Wrappers`: `Option`.

Inputs from the environment become parameters of the model. These are:
- whether a file read, a dial or a plugin creation succeeds;
- the bytes a peer sends;
- the ticks of the progress goroutine;
- the loop index at which a stop or a cancel is observed;
- what each receive of a `select` takes.

## Model

| member | source | states |
|---|---|---|
| Dirsearch.Keep | apps/dirsearch/dirsearch.go:48 | definition only: a trimmed line is kept iff it is non-empty and does not start with '#'; its properties are KeptWellFormed and KeptIncludes |
| Dirsearch.WellFormedPath | apps/dirsearch/dirsearch.go:47-48 | definition only: what a kept entry looks like (non-empty, no white space at either end, no leading '#'); used by KeptWellFormed |
| Dirsearch.Kept | apps/dirsearch/dirsearch.go:46-50 | definition only: the reference list of trimmed, kept lines in line order that ParseWordlist is proved against; its properties are KeptWellFormed, KeptIncludes, KeptSource and KeptLength |
| Dirsearch.Wordlist | apps/dirsearch/dirsearch.go:46-50 | definition only: the wordlist of a file's content, Kept of its split on newlines |
| Dirsearch.ParseWordlist | apps/dirsearch/dirsearch.go:44-51 | the loop's path list is the reference wordlist of the file: the split lines, trimmed, that are non-empty and do not start with `#`, in file order; every entry is well formed |
| Dirsearch.KeptWellFormed | apps/dirsearch/dirsearch.go:47-48 | every kept entry is non-empty, neither starts nor ends with white space, and does not start with `#` |
| Dirsearch.KeptIncludes | apps/dirsearch/dirsearch.go:46-50 | every line whose trimmed form passes the filter contributes that trimmed form to the list |
| Dirsearch.KeptSource | apps/dirsearch/dirsearch.go:46-50 | every list entry is the trimmed form of some line, and that form passes the filter |
| Dirsearch.KeptLength | apps/dirsearch/dirsearch.go:46-51 | the list has at most one entry per line, and exactly one per line iff every trimmed line passes the filter |
| Dirsearch.TrimLeftSpaces | apps/dirsearch/dirsearch.go:47 | left-trimming white space followed by a non-space-led text yields that text |
| Dirsearch.IndentedCommentDropped | apps/dirsearch/dirsearch.go:47-48 | trimming happens before the `#` test, so a comment line is dropped however it is indented |
| Dirsearch.Setup | apps/dirsearch/dirsearch.go:36-59 | a read failure is an error with no progress report; an empty wordlist is an error before any plugin or callback; otherwise the first and only report is (0, number of paths), then the plugin-creation outcome decides the error |
| Dirsearch.ProducedCount | apps/dirsearch/dirsearch.go:147-175 | definition only: how many paths the producer sends, cut at the last whole batch by a stop and at the cancelled send by a cancel; its properties are ProducedCountBounds and Produce |
| Dirsearch.ProducedCountBounds | apps/dirsearch/dirsearch.go:147-175 | the producer never sends more than the list, sends all of it iff neither a stop nor a cancel comes before its end, and a stop alone cuts it at a whole number of batches |
| Dirsearch.SendBatch | apps/dirsearch/dirsearch.go:157-163 | one send loop delivers the batch in order after what was sent before, and is cut short exactly when ctx.Done wins a send |
| Dirsearch.Produce | apps/dirsearch/dirsearch.go:147-175 | the sent sequence is always a prefix of the path list, of the length fixed by where the stop or the cancel falls |
| Dirsearch.ProduceUninterrupted | apps/dirsearch/dirsearch.go:147-175 | without stop or cancel the sent sequence is the whole list in order |
| Dirsearch.Processed | apps/dirsearch/dirsearch.go:118-136 | definition only: the number of paths a worker hands to processPath before it halts |
| Dirsearch.StepError | apps/dirsearch/dirsearch.go:236-249 | definition only: the error processPath returns for a step, context.Canceled's message when cancelled inside it |
| Dirsearch.ForwardedError | apps/dirsearch/dirsearch.go:127-133 | definition only: an error is forwarded unless it contains "context canceled" |
| Dirsearch.Forwarded | apps/dirsearch/dirsearch.go:118-136 | definition only: the errors a worker forwards, in order, until it halts; its property is ForwardedNeverCancellation |
| Dirsearch.ForwardedNeverCancellation | apps/dirsearch/dirsearch.go:126-133 | no error containing "context canceled" reaches errorChan, and there is at most one forwarded error per processed path |
| Dirsearch.PathScan.constructor | apps/dirsearch/dirsearch.go:30-32 | the counter starts at 0 |
| Dirsearch.PathScan.Reset | apps/dirsearch/dirsearch.go:36 | ScanDir resets the counter to 0 |
| Dirsearch.PathScan.ProcessPath | apps/dirsearch/dirsearch.go:236-249 | the counter goes up by exactly one (as an int32) whether the path is cancelled, fails or succeeds; a cancelled path returns "context canceled", otherwise the plugin's error |
| Dirsearch.PathScan.Worker | apps/dirsearch/dirsearch.go:114-136 | after a worker the counter has grown (mod 2^32) by the number of paths it handed to processPath before stopping, and it forwarded exactly the non-cancellation errors, in order |
| Dirsearch.LastReported | apps/dirsearch/dirsearch.go:183-197 | definition only: lastReported after the ticks, the last counter value loaded on a tick that was not stopped, -1 before any |
| Dirsearch.Sampled | apps/dirsearch/dirsearch.go:183-197 | definition only: the reference reports of the sampler that Sample is proved against; its properties are SampledChangesOnly, SampledPrefix and FirstTickReported |
| Dirsearch.SampledChangesOnly | apps/dirsearch/dirsearch.go:183-197 | every report carries the total, no two consecutive reports carry the same count, and the last report carries the last count loaded |
| Dirsearch.SampledPrefix | apps/dirsearch/dirsearch.go:183-197 | the reports of an earlier moment are a prefix of the later reports |
| Dirsearch.FirstTickReported | apps/dirsearch/dirsearch.go:183-196 | because lastReported starts at -1, the first tick that loads a count reports it |
| Dirsearch.Sample | apps/dirsearch/dirsearch.go:179-200 | the sampler loop's reports are the change-only reports of the ticks |
| Dirsearch.HeaderGet | apps/dirsearch/dirsearch.go:258 | Header.Get gives the first value stored under the key, or "" when there is none |
| Dirsearch.HandleResult | apps/dirsearch/dirsearch.go:252-263 | URL, Path, StatusCode and Header are copied, ContentLength is the size and ContentType is the Content-Type header |
| Dirsearch.ExitIndex | apps/dirsearch/dirsearch.go:214-232 | the result loop keeps going until the first ctx.Done or closed results channel, and only until then |
| Dirsearch.ChannelCloser.constructor | apps/dirsearch/dirsearch.go:76-86 | fresh channels: no Once has run and no channel is closed |
| Dirsearch.ChannelCloser.ClosePathOnce | apps/dirsearch/dirsearch.go:101-103 | the Once-guarded close of pathChan closes it only if its Once has not run, and touches no other channel |
| Dirsearch.ChannelCloser.CloseOutputsOnce | apps/dirsearch/dirsearch.go:105-108 | the Once-guarded close of results and errorChan closes both only if the guarding Once has not run; as written that Once is the one that closed pathChan |
| Dirsearch.ChannelCloser.Cleanup | apps/dirsearch/dirsearch.go:99-109 | cleanup closes pathChan if still open; as written it never closes results or errorChan |
| Dirsearch.ClosesAsWritten | apps/dirsearch/dirsearch.go:86-109 | whatever order the producer's exit, cleanup and the workers' end come in, pathChan is closed once iff the producer or cleanup ran, and results and errorChan are never closed |
| Dirsearch.ClosesCorrected | apps/dirsearch/dirsearch.go:202-211 | with a Once of their own, closed also by the waiter after wg.Wait, results and errorChan are closed exactly once iff the workers finished or cleanup ran, and never twice |
| Dirsearch.FoundResults | apps/dirsearch/dirsearch.go:222-228 | definition only: the non-nil results among the received events, in order |
| Dirsearch.MapHandle | apps/dirsearch/dirsearch.go:222-230 | handleResult applied to each result in order, one path info per result |
| Dirsearch.DeliverResults | apps/dirsearch/dirsearch.go:213-232 | the path callback runs once per non-nil result received before the loop returns, in order; the loop returns context.Canceled on ctx.Done and nil on a closed results channel |
| Scanner.Classify | apps/scanner/scanner.go:43-74 | definition only: the keyword switch over the lowercased banner with the unknown fallback; its properties are ClassifyIsTable, ClassifyFirstMatchWins, ClassifyUnknown and ClassifyProtocol |
| Scanner.ClassifyBy | apps/scanner/scanner.go:48-74 | definition only: a rule table read from the front, the independent reading of the switch that ClassifyIsTable ties to Classify |
| Scanner.FirstMatch | apps/scanner/scanner.go:48-74 | picks the first rule, in table order, whose keyword occurs in the banner; none when no keyword occurs |
| Scanner.ClassifyIsTable | apps/scanner/scanner.go:48-74 | the switch is the rule table ssh, ftp, http, smtp, mysql, redis, mongodb, postgresql read from the front, with unknown as the fallback |
| Scanner.ClassifyFirstMatchWins | apps/scanner/scanner.go:48-74 | a banner gets rule i's service and protocol iff rule i's keyword occurs in it and no earlier keyword does |
| Scanner.ClassifyUnknown | apps/scanner/scanner.go:43-44 | a banner is unknown/unknown iff no keyword occurs in it; that is a result, not an error |
| Scanner.ClassifyProtocol | apps/scanner/scanner.go:49-72 | the protocol equals the service for every rule except http, which gives HTTP with HTTP/1.1 |
| Scanner.IsHttpPort | apps/scanner/scanner.go:31 | definition only: ports 80, 443, 8080 and 8443 get the HTTP request; used in ProbeService's contract |
| Scanner.ReadLine | apps/scanner/scanner.go:36-40 | ReadString('\n') yields the data up to and including the first newline, and fails iff no newline arrives |
| Scanner.ProbeService | apps/scanner/scanner.go:20-76 | a dial or read failure gives ("unknown", "", "unknown"); an HTTP request is written only for ports 80, 443, 8080 and 8443; otherwise the banner is the first line trimmed and lowercased, classified in that form and returned in that form |
| Scanner.CaseInsensitive | apps/scanner/scanner.go:42-47 | lowercasing the peer's bytes first does not change the probe's result |
| Scanner.ContainsTrimmed | apps/scanner/scanner.go:42 | a keyword that neither starts nor ends with white space survives trimming |
| Scanner.ContainsLowerPrefix | apps/scanner/scanner.go:47-49 | an occurrence in the raw banner is an occurrence in the lowercased one, and so is every prefix of it |
| Scanner.SshGreeting | apps/scanner/scanner.go:42-51 | a first line containing "SSH-2.0" is identified as SSH |
| Scanner.DottedCapitalIBanner | apps/scanner/scanner.go:42-64 | the banner "RED\u0130S" (capital I with dot above) is identified as Redis, because Go lowercases U+0130 to 'i' |
| Scanner.RedisBanner | apps/scanner/scanner.go:36-64 | the line "redis" reaches the redis case, since none of the five earlier keywords occurs in it |
| Scanner.ReadLineSingle | apps/scanner/scanner.go:36-40 | data whose only newline is its last character is read whole as the first line |
| Scanner.MissingLetter | apps/scanner/scanner.go:49-64 | a keyword with a letter the banner lacks does not occur in the banner |
| Scanner.InfoFor | apps/scanner/scanner.go:102-109 | definition only: the PortInfo of an open port, its port with probeService's service, banner and protocol; used by Reports and ScanPorts |
| Scanner.OpenPorts | apps/scanner/scanner.go:87-113 | the reported ports lie in the range and their connect succeeded |
| Scanner.OpenPortsIncreasing | apps/scanner/scanner.go:87 | the reported ports are strictly increasing, so none is reported twice |
| Scanner.OpenPortsComplete | apps/scanner/scanner.go:96-113 | every port in the range whose connect succeeded is reported |
| Scanner.OpenPortsExactly | apps/scanner/scanner.go:87-113 | a port is reported iff it is in the range and its connect succeeded |
| Scanner.Reports | apps/scanner/scanner.go:102-112 | one callback per open port, each carrying its port, listed in port order |
| Scanner.ScanPorts | apps/scanner/scanner.go:82-118 | every port 1..65535 is attempted exactly once, in order, and the callbacks are probeService's result for each open port |
| Text.IsSpace | apps/dirsearch/dirsearch.go:47 | definition only: unicode.IsSpace, membership in the Unicode White_Space set, as TrimSpace uses it |
| Text.TrimSpace | apps/dirsearch/dirsearch.go:47 | the result is the middle of the string with all leading and trailing white space removed; it neither starts nor ends with white space |
| Text.TrimKeepsInner | apps/scanner/scanner.go:42 | a part of the string that starts and ends with non-space characters survives trimming whole |
| Text.HasPrefix | apps/dirsearch/dirsearch.go:48 | definition only: strings.HasPrefix, the string starts with the prefix |
| Text.Contains | apps/scanner/scanner.go:49 | definition only: strings.Contains, a prefix match at some position scanning from the left; its properties are ContainsAt and ContainsWitness |
| Text.ContainsAt | apps/scanner/scanner.go:49 | strings.Contains holds whenever the text occurs at some offset |
| Text.ContainsWitness | apps/scanner/scanner.go:49 | when strings.Contains holds, the text occurs at some offset |
| Text.Split | apps/dirsearch/dirsearch.go:46 | strings.Split yields at least one piece, none containing the separator |
| Text.JoinSplit | apps/dirsearch/dirsearch.go:46 | joining the pieces of a split with the separator gives the content back, so no character is lost or added |
| Text.LowerChar | apps/scanner/scanner.go:47 | definition only: unicode.ToLower on ASCII capitals, U+0130 and U+212A, the identity elsewhere; its properties are Scanner.LowerCharFacts and CaseInsensitive |
| Text.ToLower | apps/scanner/scanner.go:47 | lowercasing keeps the length and maps each code point on its own: ASCII capitals, U+0130 and U+212A to their ASCII lower case, the rest unchanged |
| Int32.Wrap | func.go:41 | an int32 conversion lands in the int32 range and leaves values already in it unchanged |
| Int32.WrapAdd | func.go:89 | adding after wrapping is the same as wrapping after adding |
| Int32.Inc | apps/dirsearch/dirsearch.go:237 | atomic.AddInt32 by one stays in range and adds one below the maximum |
| Int32.IncTimesWrap | apps/dirsearch/dirsearch.go:237 | n atomic increments equal one wrapped addition of n |
| Js.Truthy | frontend/src/stores/dirsearchStore.js:40 | definition only: JavaScript truthiness, false exactly for null, undefined, false, 0 and "", as the stores' `if (!value)` tests use it |
| Js.IsTerminal | frontend/src/stores/dirsearchStore.js:54 | definition only: the status is 'completed', 'cancelled' or 'error', the stores' three strict-equality tests |
| Js.Get | frontend/src/stores/dirsearchStore.js:90-94 | reading a property gives its value, and undefined for a missing one |
| DirsearchJobs.DirsearchControl.constructor | func_dirsearch.go:55-59 | a new job is uncancelled with zero counters |
| DirsearchJobs.ToPathResult | func_dirsearch.go:94-100 | FullUrl is URL followed by Path; Path, StatusCode, ContentType and ContentLength are copied |
| DirsearchJobs.FoundPathPayload | apps/dirsearch/app.go:102-108 | end to end, a gobuster result reaches the UI with its size as the length and its Content-Type header as the type |
| DirsearchJobs.FinishEvents | func_dirsearch.go:130-142 | a finished scan emits one terminal status first; "cancelled" iff it was cancelled, "completed" iff ScanDir returned nil, and its error message iff it failed |
| Func.ScanControl.constructor | func.go:44-48 | a new scan job is uncancelled, counts 0 and keeps its total |
| Func.OutcomeStatus | func.go:119-142 | definition only: the status a finished port scan reports, "cancelled" on context.Canceled, "error" on another error, "completed" otherwise |
| Func.PortFinishEvents | func.go:114-149 | after the worker returns, nothing is emitted when no job is current; otherwise the status and a final progress come last, the error is sent iff the scan failed, and scan-complete iff it finished, with the current job's count; a panic sends "Internal error occurred" |
| Func.PortScanController.constructor | func.go:21-24 | no scan is current at start |
| Func.PortScanController.ScanPorts | func.go:32-51 | fails exactly when the context is missing; otherwise it never rejects and replaces the current job by a fresh one with count 0 and total endPort - startPort + 1 as an int32 |
| Func.PortScanController.BeginScan | func.go:72-78 | the goroutine first emits "running" and the start port against the total |
| Func.PortScanController.OnPortInfo | func.go:80-112 | without a job the callback is ignored; a progress item adds one to the current job's count, whichever job that is; any other item is forwarded as port-found with the count unchanged |
| Func.PortScanController.OnScanFinished | func.go:61-70 | the deferred reset clears the current job even if a newer scan installed it, and emits "idle" last |
| Func.PortScanController.StopScan | func.go:155-169 | never fails; with a job it cancels it and reports "stopping"; when idle nothing changes |
| Func.PortScanController.GetScanStatus | func.go:171-179 | "running" iff a job exists, "idle" iff none |
| Func.PortScanController.GetScanProgress | func.go:181-196 | zeros and "idle" when idle, otherwise the job's count, total and "running" |
| Func.SupersededScan | func.go:40-51 | a superseded scan's callback counts on the new job and its reset clears the new, uncancelled job, so the controller reports idle |
| Func.DirsearchController.constructor | func.go:220-223 | no dirsearch is current at start |
| Func.DirsearchController.StartDirsearch | func.go:226-244 | fails without a context; fails with "already running" and leaves the job as it is when one exists; otherwise installs a fresh job with zero counters |
| Func.DirsearchController.OnPathFound | func.go:266-282 | only while a job exists, one path-found event with the converted payload |
| Func.DirsearchController.OnProgress | func.go:284-299 | only while a job exists, both counters are overwritten (as int32) and the values are reported |
| Func.DirsearchController.OnScanFinished | func.go:246-256 | for any outcome the terminal status comes first, then the job is cleared and "idle" is sent |
| Func.DirsearchController.StopDirsearch | func.go:321-343 | fails with "no dirsearch is running" when idle; otherwise cancels the job, keeps its counters and reports "stopping" |
| Func.DirsearchController.GetDirsearchStatus | func.go:346-354 | "running" iff a job exists |
| Func.DirsearchController.GetDirsearchProgress | func.go:357-372 | (0, 0) when idle, otherwise the stored counters |
| Func.RejectWhileRunning | func.go:234-256 | a second start while running is refused and keeps the counters; once the job is stopped and its goroutine has ended with context.Canceled, a start succeeds again |
| FuncDirsearch.DirsearchController.constructor | func_dirsearch.go:35-38 | no dirsearch is current at start |
| FuncDirsearch.DirsearchController.StartDirsearch | func_dirsearch.go:41-59 | a missing context is refused with no change; a running job gives "already running" and stays; otherwise a fresh job with zero counters |
| FuncDirsearch.DirsearchController.OnPathFound | func_dirsearch.go:86-102 | only while a job exists, one path-found event |
| FuncDirsearch.DirsearchController.OnProgress | func_dirsearch.go:104-127 | ignored without a job; otherwise stores both counters (as int32) and reports them with the measured speed |
| FuncDirsearch.DirsearchController.OnScanFinished | func_dirsearch.go:66-76 | whatever the outcome, the job is cleared and the status returns to idle |
| FuncDirsearch.DirsearchController.StopDirsearch | func_dirsearch.go:149-172 | when running, cancels the job and returns nil, reporting speed 0; when idle, "no dirsearch is running" |
| FuncDirsearch.DirsearchController.GetDirsearchStatus | func_dirsearch.go:175-183 | "running" iff a job exists |
| FuncDirsearch.DirsearchController.GetDirsearchProgress | func_dirsearch.go:186-203 | zeros when idle, otherwise the stored counters; the speed is always 0 |
| FuncDirsearch.StopThenFinish | func_dirsearch.go:149-183 | a stopped job stays current until its goroutine ends, which then reports "cancelled" and "idle"; a later stop fails |
| DirsearchApp.App.constructor | apps/dirsearch/app.go:18-20 | a new App has no context and no job |
| DirsearchApp.App.Startup | apps/dirsearch/app.go:23-25 | stores the context and changes nothing else |
| DirsearchApp.App.StartDirsearch | apps/dirsearch/app.go:48-67 | without a context it fails with no change; otherwise it never rejects, drops any existing job without cancelling it and installs a fresh one with zero counters |
| DirsearchApp.App.OnPathFound | apps/dirsearch/app.go:94-110 | only while a job exists, one path-found event |
| DirsearchApp.App.OnProgress | apps/dirsearch/app.go:112-135 | only while some job exists, its counters are overwritten and reported with the speed |
| DirsearchApp.App.OnScanFinished | apps/dirsearch/app.go:74-84 | any run's exit clears the current job, including a replacement installed after it |
| DirsearchApp.App.StopDirsearch | apps/dirsearch/app.go:157-180 | errors when idle; when running it cancels the job and returns nil |
| DirsearchApp.SupersededRun | apps/dirsearch/app.go:56-83 | two starts leave the first job orphaned and uncancelled; the first run's exit with a ScanDir error clears the second job, and a stop then fails |
| DirsearchStore.Percent | frontend/src/stores/dirsearchStore.js:19-23 | 0 without a positive total; otherwise 100 * scanned / total rounded half up, capped at 99, so it never reads 100; it reads 99 iff the ratio is at least 98.5% |
| DirsearchStore.DirsearchStore.constructor | frontend/src/stores/dirsearchStore.js:4-15 | the initial state: nothing found, zero counters, no progress bar, not scanning, no sort order, idle |
| DirsearchStore.DirsearchStore.ScanProgress | frontend/src/stores/dirsearchStore.js:19-23 | the getter is the capped percentage of the current counters and stays below 100 |
| DirsearchStore.DirsearchStore.ResetScan | frontend/src/stores/dirsearchStore.js:28-35 | clears results, both counters and the running flag, sets "idle", and keeps the progress bar and sort order |
| DirsearchStore.DirsearchStore.SetIsScanning | frontend/src/stores/dirsearchStore.js:38-49 | a truthy value sets "scanning" and shows the bar; a falsy one changes only "scanning" into "cancelled" |
| DirsearchStore.DirsearchStore.SetScanStatus | frontend/src/stores/dirsearchStore.js:52-58 | a completed, cancelled or error status clears the running flag; any other status leaves it |
| DirsearchStore.DirsearchStore.SetShowProgress | frontend/src/stores/dirsearchStore.js:61-66 | can show the progress bar, never hide it |
| DirsearchStore.DirsearchStore.SetScannedPaths | frontend/src/stores/dirsearchStore.js:69-73 | any number is stored, any other value ignored |
| DirsearchStore.DirsearchStore.SetTotalPaths | frontend/src/stores/dirsearchStore.js:76-80 | only a positive number is stored |
| DirsearchStore.DirsearchStore.ClearFoundPaths | frontend/src/stores/dirsearchStore.js:83-85 | empties the results and nothing else |
| DirsearchStore.DirsearchStore.AddPath | frontend/src/stores/dirsearchStore.js:88-96 | throws iff the argument is null or undefined, then changing nothing; otherwise appends exactly one record of the five fields at the end and changes nothing else |
| DirsearchStore.DirsearchStore.SetSortConfig | frontend/src/stores/dirsearchStore.js:99-107 | throws iff the argument is null or undefined, then changing nothing; otherwise both fields are set when prop and order are both truthy, and both cleared when either is falsy |
| DirsearchStore.DirsearchStore.SetComplete | frontend/src/stores/dirsearchStore.js:110-114 | ends the scan as completed and not running |
| DirsearchStore.DirsearchStore.ExportResults | frontend/src/stores/dirsearchStore.js:117-123 | reports the scanned count and the found paths without changing the state |
| DirsearchStore.CompletedNotCancelled | frontend/src/stores/dirsearchStore.js:38-58 | a completed scan stays completed when the running flag is then cleared; a running one becomes cancelled |
| DirsearchStore.ProgressBarSticks | frontend/src/stores/dirsearchStore.js:28-80 | once shown, the bar survives a reset and a request to hide it; a zero total is ignored, so progress reads 0 |
| GitdorkerStore.GitdorkerStore.constructor | frontend/src/stores/gitdorkerStore.js:4-11 | empty keywords and token, no results, idle |
| GitdorkerStore.GitdorkerStore.ResetSearch | frontend/src/stores/gitdorkerStore.js:14-18 | results to null, not searching, "idle"; keywords and token kept |
| GitdorkerStore.GitdorkerStore.SetIsSearching | frontend/src/stores/gitdorkerStore.js:20-29 | a truthy value sets "searching"; a falsy one changes only "searching" into "cancelled" |
| GitdorkerStore.GitdorkerStore.SetSearchStatus | frontend/src/stores/gitdorkerStore.js:31-36 | a terminal status clears the running flag; any other leaves it |
| GitdorkerStore.GitdorkerStore.SetSearchResults | frontend/src/stores/gitdorkerStore.js:38-40 | replaces the results and nothing else |
| GitdorkerStore.GitdorkerStore.SetKeywords | frontend/src/stores/gitdorkerStore.js:42-45 | sets exactly the main and sub keywords |
| GitdorkerStore.GitdorkerStore.SetToken | frontend/src/stores/gitdorkerStore.js:47-49 | sets exactly the token |
| GitdorkerStore.GitdorkerStore.ExportResults | frontend/src/stores/gitdorkerStore.js:51-58 | reports the keywords and results, not the token, changing nothing |
| GitdorkerStore.ErrorThenStop | frontend/src/stores/gitdorkerStore.js:14-36 | a failed search stays failed when the running flag is cleared, and a reset keeps the keywords |
| ScannerStore.ScannerStore.constructor | frontend/src/stores/scannerStore.js:4-10 | no ports, zero count, no bar, not complete, empty target |
| ScannerStore.ScannerStore.ResetScan | frontend/src/stores/scannerStore.js:12-18 | empties the ports, zeroes the count, clears both flags and keeps the target |
| ScannerStore.ScannerStore.SetTarget | frontend/src/stores/scannerStore.js:19-21 | changes only the target |
| ScannerStore.ScannerStore.AddPort | frontend/src/stores/scannerStore.js:22-25 | appends the port and counts it, so the count keeps equal to the number of listed ports |
| ScannerStore.ScannerStore.SetScanComplete | frontend/src/stores/scannerStore.js:26-28 | sets exactly scanComplete |
| ScannerStore.ScannerStore.SetShowProgress | frontend/src/stores/scannerStore.js:29-31 | sets exactly showProgress |
| ScannerStore.RescanSameTarget | frontend/src/stores/scannerStore.js:12-25 | a rescan drops earlier ports but keeps the target, and lists and counts each port added after it |

## Left out

- Goroutines, channels (apart from how often `ScanDir` closes them), `sync.WaitGroup`, the semaphore, the 100 ms ticker, atomics and mutexes are not modelled. Each goroutine is a sequential method over an input sequence. The controllers' concurrent callbacks are method calls in some chosen order, one after another.
- The closing of `ScanDir`'s channels is modelled only as counts of closes (`Dirsearch.ClosesAsWritten`, `Dirsearch.ClosesCorrected`); see Findings. `DeliverResults` and the controllers take the closed `results` channel and the "completed" outcome as possible, as in the corrected form.
- `isStopped` is set only inside `cleanup`, and the result loop returns right after that. The loop's two `isStopped` tests (apps/dirsearch/dirsearch.go:220,227) are therefore always false, and the model omits them.
- Network I/O: `net.DialTimeout`, the read deadline, `bufio` reads and gobuster's `ProcessWord` requests. Their outcomes are inputs (`PortEnv`, `WorkerStep`).
- File reading (`os.ReadFile`). The content or the failure is an input of `Dirsearch.Setup`.
- Status-code matching, URL encoding and retries inside gobuster. These are not in the modelled code.
- `Dirsearch.Setup`: plugin creation is one success flag. The count of `maxThreads` instances is not modelled, and neither are two invalid thread counts, which `ScanDir` does not check. A negative `maxThreads` panics in `make(chan …, maxThreads*20)` (apps/dirsearch/dirsearch.go:76) after the (0, n) progress report, and the controllers turn the panic into "error". A `maxThreads` of 0 leaves the producer blocked on an unbuffered `pathChan` with no worker to read it.
- Dirsearch.PathScan.Worker: the errorChan send drops an error when the buffer is full. The model forwards every non-cancellation error as if the buffer had room.
- The printing of errors, start and end messages (`fmt.Printf`) is left out.
- Speed in `func_dirsearch.go` and `apps/dirsearch/app.go` is a `float64` computed from the clock. It arrives as a `real` parameter of `OnProgress`, and the `lastScanned`/`lastTimestamp` closure variables are not modelled.
- `runtime.EventsEmit` is an appended event log. Event payload maps are datatypes with the same fields.
- `scanner.ScanPortsCombined` (called at func.go:80) is not part of this model. Its callbacks and its outcome are inputs.
- The `a == nil` half of the nil checks is not modelled: an App is always an object. Only a missing context is.
- The `cancel != nil` test in the stop methods is not modelled, because every job is created with a cancel function.
- Between OnPortInfo's unlock and its use of `currentScan` (func.go:86-89) there is a race; an interleaving there is not modelled. The model reads the current job at the moment of the callback.
- Text.ToLower: maps the ASCII capitals, U+0130 and U+212A, the only code points Go lowercases to an ASCII letter, so the classification agrees with Go's. Other non-ASCII capitals keep their case, so a returned banner can differ from Go's in those letters.
- Strings are sequences of decoded code points. Go's `strings` functions work on bytes, and `ToLower` turns invalid UTF-8 into U+FFFD; a peer sending invalid UTF-8 is not modelled.
- Scanner.ScanPorts: the callbacks are listed in port order. The source runs one goroutine per port, so they arrive in the order the probes complete.
- DirsearchStore.DirsearchStore.ExportResults: returns a copy of the found paths. JavaScript returns the store's live array, so a later `addPath` also shows in an earlier export.
- DirsearchStore.Percent: JavaScript numbers are modelled as integers. Floats, `NaN` and `Infinity` are not, and `Math.round` of the ratio is computed exactly rather than in floating point.
- The stores' `exportResults` return a `Date` timestamp. It is left out of the exported value.
- Reflection dispatch (util/functionRegistry.go, util/plugins.go, `ExecuteFunction` in app.go) is not part of this model.
- The Wails bootstrap (main.go, AppManager.go, the front end's main.js and router) is not part of this model.
- `OpenFileDialog`, the gonmap prototype in test/main.go and the gitdorker package are not part of this model.

## Findings

| source | as written | input that shows it | evidently intended | confidence | as-written member | corrected member |
|---|---|---|---|---|---|---|
| apps/dirsearch/dirsearch.go:99-109 | one `closeOnce` guards both the `pathChan` close and the `results`/`errorChan` close, so whichever closes `pathChan` uses it up and `results` is never closed; nothing else closes it, so the result loop returns only on `ctx.Done` and a finished scan never reports "completed" | events `[ProducerReturned, WorkersReturned]`: every path sent and every worker returned, yet `results` has no close, so `ScanDir` blocks until cancelled and the job stays "running" | `results` and `errorChan` are closed once the workers are done (after `wg.Wait`) and at most once, so the result loop returns nil | medium, not executed | Dirsearch.ClosesAsWritten | Dirsearch.ClosesCorrected |
