# web-process-runner, modelled in Dafny

web-process-runner is a small PHP service. It starts the executable scripts of a
configured directory on request over HTTP, records their output and exit status,
and answers questions about them.

Every request path has the form `/<key>/<command>/<param>`:

- `run/<script>` starts `<scripts>/<script>` and answers with a fresh job id.
- `info/<id>` returns the job's record.
- `signal/<id>[/<sig>]` sends a signal to a running job.
- `ping` answers ok.

A request for `favicon.ico` gets an empty 404 whatever the key; any other path whose key is wrong gets 403. Once the service is shutting down, every request gets 503.

Two classes form the core, and this project models both:

- **`JobManager`** (`jobs.dfy`, module `Jobs`) keeps the job table. The model is a class over a `map` from job id to record. It has the methods of the PHP class (`newJob`, `endJob`, `shutdown`) and the three closures that `newJob` registers on the process (stdout, stderr, exit), each as a method. The periodic retention sweep is a method too. A ghost `Valid()` invariant ties a row's state to its process handle, its end time and its exit code, and every method keeps it.
- **`HTTPHandler`** (`http.dfy`, module `Http`) turns a request into a response. `Dispatch` is the decision that `doHandleHTTPRequest` makes, written as a pure function. Its result is one of:
  - a response;
  - an effect on the job table (start a job, or signal a job);
  - the fault of calling a method on a null process handle.

  `HttpHandler.HandleRequest` carries the effect out on a `JobManager`. It maps the fault to the 500 of the catch block in `handleHTTPRequest`.

Supporting modules:

- `php_strings.dfy` (`PhpStrings`): the PHP built-ins that the handler and the log listeners rely on:
  - `trim` with one character;
  - `explode`, with and without a limit;
  - `implode`;
  - the single pass of `str_replace`;
  - the `preg_replace` that collapses runs of `/`.
- `uuid.dfy` (`Uuid`): `genUUID`'s formatting of eight random numbers.
- `line_buffer.dfy` (`LineBuffer`): the log listeners that `newJob` attaches when logging is on. They split output into lines.
- `wrappers.dfy`: `Option`.

The clock, the random number source, the file system's "exists and is executable" test and the process itself are inputs:

- `now`: the value of `time()`;
- a sequence of `mt_rand` draws;
- a `runnable` predicate;
- a `Process` value, which records the signals it has been sent.

The path clean-up is not a traversal filter, and the model shows this rather than claiming otherwise. The clean-up is the two `str_replace` calls followed by the slash collapse. Each replacement runs once, left to right, so `...../x` comes out as `../x`:

- `Http.TraversalSurvivesNormalise` proves this for that string.
- `Http.TraversalEndToEnd` proves that, for any non-empty key holding neither `/` nor `.`, `/<key>/run/...../x` starts `<scripts>/../x` whenever that file is executable.

For the same reason, the refusal of the bootstrap script `firstRun.sh` can be bypassed, because `run` compares the parameter with that name literally. The clean-up turns `..../firstRun.sh` into `./firstRun.sh`, which is a different string but names the same file. `Http.FirstRunBypass` proves that this parameter survives the clean-up and that `run` then starts `<scripts>/./firstRun.sh`. The model keeps the code's behaviour in both cases.

## Model

| member | source | states |
|---|---|---|
| Jobs.JobManager.constructor | src/JobManager.php:12-16 | The table starts empty and the retention period is the configured `jobHistory`. |
| Jobs.JobManager.JobIds | src/JobManager.php:46-48 | `getJobs` lists exactly the ids for which `hasJob` holds. |
| Jobs.JobManager.HasJob | src/JobManager.php:50-52 | `hasJob` is membership of the id in the table. It has no contract of its own; `JobIds` and `GetJob` state what depends on it. |
| Jobs.JobManager.GetJob | src/JobManager.php:54-56 | `getJob` is null exactly when `hasJob` is false. Otherwise it is the stored record. |
| Jobs.JobManager.NewJob | src/JobManager.php:65-72 | The id is the first generated candidate not already in use. The table gains exactly that id, as a running record: empty output, no exit code, no end time, start time now, and a fresh handle for the command. Every other row is unchanged and the row invariant is kept. |
| Jobs.Candidates | src/JobManager.php:66-67 | The candidates the retry loop tries are `genUUID` applied to successive draws, each 36 characters long. |
| Jobs.FirstFree | src/JobManager.php:67 | The retry loop stops at the first free candidate: every candidate before it is taken. |
| Jobs.NewId | src/JobManager.php:65-67 | The id handed out is not in use and is 36 characters long. It is the formatting of a draw, and every earlier draw formatted to an id already taken: the retry loop stops at the first free one. |
| Jobs.Fresh | src/JobManager.php:68-72 | The stored record is consistent and running, with empty output, started now, and holding a handle for the command that has not been signalled. |
| Jobs.JobManager.OnStdout | src/JobManager.php:78-80 | A stdout chunk is appended to that job's `stdout`. Nothing else changes. |
| Jobs.JobManager.OnStderr | src/JobManager.php:81-83 | A stderr chunk is appended to that job's `stderr`. Nothing else changes. |
| Jobs.JobManager.OnExit | src/JobManager.php:109-116 | The exit closure as written. With an exit code it writes the end time, releases the handle, stores the code and sets `ended`. With a null code (a signal-killed process) the logging call at line 110 throws, `ok` is false and the table is unchanged. The invariant is kept either way. |
| Jobs.AfterExit | src/JobManager.php:109-116 | What the closure leaves in a row: the `Exited` row when a code is reported, the row unchanged when the code is null. No contract of its own; `OnExit` and `SignalKilledJobStaysOpen` state its use. |
| Jobs.SignalKilledJobStaysOpen | src/JobManager.php:110 | A running job killed by a signal is, after its exit closure, still not `ended`, still holds its handle, has no end time, and is kept by the sweep at every cutoff. |
| Jobs.Exited | src/JobManager.php:112-115 | An exited row is `ended`, with end time now, the reported code and no handle. Its output and start time are kept. |
| Jobs.ExitedConsistent | src/JobManager.php:109-116 | The intended effect of the exit closure, for every exit code including null, keeps a row consistent and moves its state forward to `ended`. |
| Jobs.Terminated | src/JobManager.php:60-61 | `endJob` sets `terminating` and sends SIGTERM to the handle when there is one. Every other field is kept. |
| Jobs.TerminatedConsistent | src/JobManager.php:58-63 | `endJob` keeps any row consistent. It moves the state forward exactly when the job has not ended: on an ended row it writes `terminating` back. |
| Jobs.JobManager.EndJob | src/JobManager.php:58-63 | An unknown id leaves the table alone. A known id gets the `Terminated` row. The call fails exactly when the row's handle is already null, which is where PHP raises an error. |
| Jobs.JobManager.Shutdown | src/JobManager.php:36-44 | Every running job, and only those, is terminated with SIGTERM. No id is added or removed, every row's state moves forward, and the invariant is kept. |
| Jobs.JobManager.Sweep | src/JobManager.php:21-32 | After the timer body runs, the table is `Swept(old table, now - jobHistory)`. |
| Jobs.Swept | src/JobManager.php:21-32 | The table a sweep leaves: the expired ids removed. Its contract says only that no id is added; `SweptExactly` states which ids go and that kept rows are unchanged. |
| Jobs.SweptExactly | src/JobManager.php:22-31 | The sweep removes an id exactly when its job ended before the cutoff; PHP's loose `!= null` treats an end time of 0 as unset. Kept rows are unchanged, and a job that has not ended is never removed. |
| Jobs.JobManager.SignalProcess | src/HTTPHandler.php:112 | `terminate($signal)` delivers the signal to that job's process. The record, its state included, is otherwise unchanged. |
| Uuid.Format | src/JobManager.php:121-123 | `genUUID` prints 36 characters. |
| Uuid.FormatShape | src/JobManager.php:122 | There are hyphens at positions 8, 13, 18 and 23, and upper-case hexadecimal digits everywhere else. |
| Uuid.FormatFields | src/JobManager.php:122 | Each draw is printed, as four digits, at a fixed offset. |
| Uuid.Hex4RoundTrip | src/JobManager.php:122 | `%04X` loses nothing: reading the four digits back gives the number. |
| Uuid.VersionAndVariant | src/JobManager.php:122 | Within the ranges `genUUID` asks of `mt_rand`, the version digit is `4` and the variant digit is one of `8`, `9`, `A` and `B`. |
| Uuid.FormatInjective | src/JobManager.php:121-123 | Different draws never print the same id. |
| LineBuffer.Feed | src/JobManager.php:91-95 | One `data` event gives the completed lines, each with its terminator, followed by the kept rest: exactly the old buffer plus the chunk. Neither the lines nor the rest contain a line break, and no line is logged unless one arrived. |
| LineBuffer.FeedJoined | src/JobManager.php:93-94 | The same decomposition stated with `implode`. |
| LineBuffer.FeedAllPreservesText | src/JobManager.php:90-105 | Over any stream of chunks, nothing is lost, duplicated or reordered. The logged lines, then what is still buffered, equal the starting buffer followed by every chunk. |
| LineBuffer.Tagged | src/JobManager.php:95 | Each line is logged once, in order, at the listener's level (stdout at INFO, stderr at ERROR at line 103). |
| LineBuffer.LineLogger.constructor | src/JobManager.php:86-87 | The buffer starts empty and nothing is logged yet. |
| LineBuffer.LineLogger.OnData | src/JobManager.php:90-97 | The `data` closure leaves the buffer at `Feed`'s rest and logs `Feed`'s lines, in order, after those already logged. |
| PhpStrings.Trim | src/HTTPHandler.php:49 | `trim($path, '/')` neither starts nor ends with `/`. |
| PhpStrings.TrimStripsOnly | src/HTTPHandler.php:49 | `trim` returns a contiguous part of its input, and everything it cut off is `/`. |
| PhpStrings.Split | src/JobManager.php:93 | `explode` gives at least one piece, none holding the separator, and `implode` of the pieces gives the input back. |
| PhpStrings.SplitAtMost | src/HTTPHandler.php:56 | `explode` with a limit gives 1 to `limit` pieces that join back to the input. Only the last piece may hold the separator, and only when the limit is reached. |
| PhpStrings.Replace | src/HTTPHandler.php:53 | Without an occurrence of the pattern, `str_replace` changes nothing. With a replacement no longer than the pattern, it never lengthens the text. |
| PhpStrings.ReplaceFirst | src/HTTPHandler.php:53 | At the first occurrence of the pattern, the text before it is copied, the occurrence becomes the replacement, and the scan resumes after it without rescanning what it inserted. Together with the no-occurrence clause of `Replace`, this determines `str_replace`. |
| PhpStrings.Collapse | src/HTTPHandler.php:53 | After `preg_replace('#/+#', '/')` no two slashes are adjacent. The non-slash characters are kept in order and the first character is kept. Text with no run of slashes is returned unchanged. |
| PhpStrings.CollapseAfter | src/HTTPHandler.php:53 | Text up to the first slash is copied, one slash stands for the whole run that starts there, and the collapse continues after the run. Together with `Collapse`'s contract, this determines the replacement. |
| PhpStrings.CollapseRun | src/HTTPHandler.php:53 | A run of slashes at the front becomes a single slash. |
| Http.Normalise | src/HTTPHandler.php:53 | The cleaned path has no run of slashes and is no longer than the input. |
| Http.Parse | src/HTTPHandler.php:56-60 | `explode('/', $path, 3)` read into token, command and parameter. It has no contract of its own; `ParseRoundTrip` and `UnparseRoundTrip` state what it computes, in both directions. |
| Http.Assemble | src/HTTPHandler.php:58-60 | `$bits[0]`, then `$bits[1]` and `$bits[2]` when set. Stated through `ParseRoundTrip`, which joins the three parts back to the path. |
| Http.ParseRoundTrip | src/HTTPHandler.php:56-60 | Token, command and parameter, joined with `/`, give the cleaned path back. The token and the command hold no slash, and a parameter only follows a command. |
| Http.UnparseRoundTrip | src/HTTPHandler.php:56-60 | A well-formed request is read back from its own path unchanged. |
| Http.SignalTarget | src/HTTPHandler.php:103-105 | The job id is the text before the first `/`, or the whole parameter when there is none. The signal is SIGTERM (15) exactly when there is no `/`. Otherwise it is the text between the first and the second `/`, or up to the end, and anything after a second `/` is ignored. |
| Http.SnapshotOf | src/HTTPHandler.php:92-95 | `info` reports every field of the record except the handle. |
| Http.ShutdownAnswers503 | src/HTTPHandler.php:45-47 | While shutting down, every request gets 503, whatever its path, key or table. |
| Http.WrongTokenForbidden | src/HTTPHandler.php:62-64 | A path other than the favicon whose token is not the key gets 403 while the service is up, whatever the command. |
| Http.EffectsNeedKey | src/HTTPHandler.php:45-64 | A job is started or signalled, or a fault occurs, only while the service is up and the token is the key. |
| Http.FirstRunReserved | src/HTTPHandler.php:70 | `run/firstRun.sh`, with the name written exactly so, gets 404 whether or not the script exists and is executable. `Http.FirstRunBypass` shows another spelling of the same file getting through. |
| Http.RunStartsScript | src/HTTPHandler.php:66-89 | `run` starts `<scripts>/<param>` exactly when a non-empty parameter (PHP `empty`: not "" and not "0") is given, is not `firstRun.sh` and is executable. Otherwise it gets 404. |
| Http.InfoReports | src/HTTPHandler.php:90-98 | `info` on an unknown id gets 404. On a known id it gets 200 and the record without its handle. |
| Http.SignalOutcomes | src/HTTPHandler.php:100-119 | On any table, `signal` on an unknown job gets 404, and on a job that is not running 403 "Process has ended". A running job with a handle is sent the signal. A running job whose handle is null gives the fault of calling `terminate` on null. |
| Http.MissingParamNotFound | src/HTTPHandler.php:90-126 | `info` and `signal` with no parameter, `""` or `"0"` (PHP `empty`) fall through to 404. |
| Http.PingAlwaysOk | src/HTTPHandler.php:121-123 | `ping` gets 200, whatever follows it. |
| Http.UnknownCommandNotFound | src/HTTPHandler.php:126 | Any other command, or none, gets 404. |
| Http.Route | src/HTTPHandler.php:66-126 | The command handlers once the key is accepted. It has no contract of its own; its behaviour is stated by `RunStartsScript`, `FirstRunReserved`, `InfoReports`, `SignalOutcomes`, `MissingParamNotFound`, `PingAlwaysOk`, `UnknownCommandNotFound` and `RouteNoFault`. |
| Http.Dispatch | src/HTTPHandler.php:44-127 | `doHandleHTTPRequest` as a decision. It has no contract of its own; its behaviour is stated by `ShutdownAnswers503`, `WrongTokenForbidden`, `EffectsNeedKey`, `NoFaultOnConsistentTable` and `TraversalEndToEnd`, and by the `Route` lemmas once the key is accepted. |
| Http.NoFaultOnConsistentTable | src/HTTPHandler.php:32-42 | On a table that keeps the row invariant, the null-handle error cannot happen, and a signal only goes to a job that has a process. Within the model, which has no failure to spawn a process and does not check the signal text, no request gets the 500 of the catch block. |
| Http.RouteNoFault | src/HTTPHandler.php:66-126 | The same guarantee for the command handlers alone. |
| Http.TraversalSurvivesNormalise | src/HTTPHandler.php:53 | The clean-up turns `...../x` into `../x`: it does not remove every `../`. |
| Http.TraversalReachesRun | src/HTTPHandler.php:66-72 | `run` with parameter `../x` starts `<scripts>/../x` whenever that is executable. |
| Http.FirstRunBypass | src/HTTPHandler.php:53-72 | The clean-up turns `..../firstRun.sh` into `./firstRun.sh`, and `run` starts `<scripts>/./firstRun.sh` whenever it is executable: the literal check does not reserve the script. |
| Http.DotSlashSurvives | src/HTTPHandler.php:53 | For any name without `/`, the clean-up turns `..../<name>` into `./<name>`. |
| Http.TraversalEndToEnd | src/HTTPHandler.php:44-72 | For any non-empty key without `/` or `.`, the raw path `/<key>/run/...../x` starts `<scripts>/../x`, a file outside the scripts directory, whenever it is executable. |
| Http.HttpHandler.constructor | src/HTTPHandler.php:16-22 | The handler starts with the shutdown flag cleared. |
| Http.HttpHandler.Shutdown | src/HTTPHandler.php:24-26 | `shutdown()` raises the flag. |
| Http.Performed | src/HTTPHandler.php:66-123 | The response and new table each effect yields. It is the specification `Perform` and `HandleRequest` are proved against, and has no contract of its own. |
| Http.HttpHandler.Perform | src/HTTPHandler.php:66-123 | Each effect is carried out on the job table as `Performed` describes. `run` inserts the `newJob` record and answers 200 with its id, `signal` delivers the signal and answers 200 whatever its text, and a reply leaves the table alone. The row invariant is kept. |
| Http.HttpHandler.HandleRequest | src/HTTPHandler.php:32-127 | A request is answered, and the table changed, exactly as `Dispatch` decides. On a valid table the status is never 500, within a model that has no failure to spawn a process and delivers any signal text. The invariant is kept. |

## Left out

- I/O and presentation are not modelled:
  - the JSON encoding of response bodies, and the `Content-Type` headers;
  - the logger (`doLog`) and its messages;
  - the `print_r` of the request;
  - the request data written to a new job's stdin (src/HTTPHandler.php:74-86).

  A response is modelled as a status and a body value.
- The event loop, the 10-second timer period, the HTTP server object (`getHTTPServer`), `run.php`, `config.php` and `src/Logger.php` are not part of this model. `Sweep` is the timer's body, run at the time `now` it is given.
- `mt_rand` and `time()` are inputs. `Process::start`, and any failure of `new Process` or `start`, are not modelled: a started job is a record holding a `Process` value.
- Http.HttpHandler.HandleRequest: its "never 500" holds only because two causes of error are not modelled: failures to spawn a process, as the two items below describe, and the signal text (see the `Http.HttpHandler.Perform` line).
  - If `$process->start()` throws (src/JobManager.php:75), the exception leaves `newJob` and the request is answered 500 (src/HTTPHandler.php:35-40). The `running` row it leaves behind never ends and is never swept.
  - If `new Process` throws (src/JobManager.php:71), the row stays `running` with a null handle. `Valid()` rules that state out, but in PHP a later `signal` then gives 500 and `shutdown` raises an error.
- Http.NoFaultOnConsistentTable: for the same reasons, its "no 500" covers the decision only. It says nothing about a process failing to start or a signal text being refused.
- Http.HttpHandler.Perform: the signal text from the path (src/HTTPHandler.php:105, 112) is handed to `terminate`, and so to `proc_terminate`, unchecked. `proc_terminate` takes an integer, and that library code is not part of this model.
  - Under PHP 8, a text that is not an integer, such as `KILL`, raises a `TypeError`, and the catch block answers 500.
  - Under PHP 7 the call only warns, and the operating system refuses a number that is not a valid signal without an error; the request gets 200.
  - The model always records the signal on the process and answers 200.
- Jobs.JobManager.JobIds: it returns the ids as a set. `getJobs` returns them as a list in insertion order, but no caller in the source reads that order.
- Jobs.JobManager.NewJob: it requires that a free id occurs among the given candidates. The unbounded retry loop of src/JobManager.php:67 is modelled over a finite list of draws that contains one.
- Http.HttpHandler.HandleRequest: it requires, as `NewJob` does, that the draws contain a free id, even for requests that start no job.
- Jobs.JobManager.OnExit: with a null exit code it returns `ok` false and leaves the table unchanged; where the `TypeError` goes next is not modelled. Nothing in run.php catches it around `$loop->run()` (run.php:73), so it may stop the service.
- Jobs.JobManager.OnStdout: it requires the job to be in the table. In PHP, a callback for a row that the sweep has already removed would recreate a partial row. The same holds for `OnStderr` and `OnExit`.
- Jobs.JobManager.EndJob: the error PHP raises on a null handle is reported as `ok == false`. The propagation of the exception is not modelled. `Shutdown` only calls `EndJob` on running rows, which always hold a handle.
- The `$log` argument of `newJob` is not modelled as wiring. The HTTP handler never sets it. The two listeners are modelled on their own as `LineBuffer.LineLogger` objects, one per level.
- Http.Dispatch: the key, the command and `firstRun.sh` are compared with plain string equality. PHP's loose `!=` compares two numeric strings as numbers, for example `"1e3"` and `"1000"`. So with a numeric key, some other numeric tokens would also be accepted; that case is not modelled. The default key of config.php:7, a string of zeros, is numeric, so with it the token `0` is accepted as well.
- Http.TraversalEndToEnd: it is proved only for non-empty keys holding neither `/` nor `.` (with the empty key, `//run/...../x` is refused with 403), and for the one path shape `...../x`.
- Signals are not interpreted. A `Process` records the signals it was sent, and a signal name from the path is kept as text.

## Findings

| source | as written | input that shows it | evidently intended | confidence | as-written member | corrected member |
|---|---|---|---|---|---|---|
| src/JobManager.php:110 | The exit closure first logs `$exitCode` through `doLog(String ...$message)`, which refuses null with a `TypeError`, so lines 112-115 never run | A running job whose process is killed by a signal, so ReactPHP reports a null exit code | The row gets its end time, drops its handle, stores the (null) code and becomes `ended`, so `info` reports it ended and the sweep can remove it | not executed | Jobs.SignalKilledJobStaysOpen | Jobs.ExitedConsistent |
