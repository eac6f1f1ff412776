/**
 * `HTTPHandler` (src/HTTPHandler.php): one request in, one response out.
 *
 * `Dispatch` is the decision `doHandleHTTPRequest` makes from the shutdown
 * flag, the path, the configured key and scripts directory, the job table
 * and the file system's "exists and is executable" test: either a response,
 * or one effect on the job table (start a job, signal a job), or a fault
 * (a method called on a null process handle). `HttpHandler.HandleRequest`
 * carries out the effect on a `JobManager` and maps a fault to the 500 of
 * `handleHTTPRequest`'s catch block.
 */
module Http {
  import opened Wrappers
  import opened PhpStrings
  import Uuid
  import opened Jobs

  /** What `info` reports: the record without its `process` field. */
  datatype Snapshot = Snapshot(
    state: JobState,
    stdout: string,
    stderr: string,
    exitCode: Option<int>,
    started: int,
    ended: Option<int>)

  /** The JSON document of a response (`success` is always "ok"). */
  datatype Body =
    | NoBody                      // favicon.ico: empty body, no Content-Type
    | ErrorBody(message: string)  // {"error": message}
    | OkBody                      // {"success": "ok"}
    | JobStarted(jobId: string)   // {"success": "ok", "jobID": jobId}
    | JobInfo(info: Snapshot)     // the snapshot plus {"success": "ok"}

  datatype Response = Response(status: int, body: Body)

  /** The outcome of the decision: a response, or an effect still to perform. */
  datatype Action =
    | Reply(response: Response)
    | Start(execFile: string)
    | Deliver(jobId: string, signal: Sig)
    | Fault

  /** The request path split into `token / command / param`. */
  datatype Request = Request(token: string, command: Option<string>, param: Option<string>)

  const Unavailable := Response(503, ErrorBody("Server shutting down."))
  const Forbidden := Response(403, ErrorBody("Forbidden."))
  const ProcessEnded := Response(403, ErrorBody("Process has ended"))
  const NotFound := Response(404, ErrorBody("File Not Found."))
  const InternalError := Response(500, ErrorBody("Internal server error."))
  const Favicon := Response(404, NoBody)
  const Ok := Response(200, OkBody)

  /** The bootstrap script's name, which `run` refuses. */
  const FirstRun := "firstRun.sh"

  function SnapshotOf(j: Job): (s: Snapshot)
    ensures s.state == j.state && s.stdout == j.stdout && s.stderr == j.stderr
    ensures s.exitCode == j.exitCode && s.started == j.started && s.ended == j.ended
  {
    Snapshot(j.state, j.stdout, j.stderr, j.exitCode, j.started, j.ended)
  }

  // ------------------------------------------------------------ the path

  /**
   * The clean-up of HTTPHandler.php:53: `str_replace('../', '/')`, then
   * `str_replace('./', '/')`, then runs of slashes collapsed to one.
   */
  function Normalise(path: string): (r: string)
    ensures !HasRun(r, '/')
    ensures |r| <= |path|
  {
    Collapse(Replace(Replace(path, "../", "/"), "./", "/"), '/')
  }

  /** `explode('/', $path, 3)` read into token, command and parameter. */
  function Parse(path: string): (req: Request)
  {
    Assemble(SplitAtMost(path, '/', 3))
  }

  /** `$bits[0]`, `$bits[1] ?? null`, `$bits[2] ?? null`. */
  function Assemble(bits: seq<string>): Request
    requires |bits| >= 1
  {
    Request(bits[0],
            if |bits| > 1 then Some(bits[1]) else None,
            if |bits| > 2 then Some(bits[2]) else None)
  }

  /** The path a request came from: the three parts joined again with slashes. */
  function Unparse(req: Request): string
  {
    req.token
      + (if req.command.Some? then "/" + req.command.value else "")
      + (if req.param.Some? then "/" + req.param.value else "")
  }

  /**
   * Splitting loses nothing: the parts, joined with `/`, give the path back.
   * The token and the command hold no slash; the parameter keeps any further ones;
   * a parameter is only present after a command.
   */
  lemma ParseRoundTrip(path: string)
    ensures Unparse(Parse(path)) == path
    ensures '/' !in Parse(path).token
    ensures Parse(path).command.Some? ==> '/' !in Parse(path).command.value
    ensures Parse(path).param.Some? ==> Parse(path).command.Some?
  {
    AssembleJoins(SplitAtMost(path, '/', 3));
  }

  lemma AssembleJoins(bits: seq<string>)
    requires 1 <= |bits| <= 3
    ensures Unparse(Assemble(bits)) == Join(bits, '/')
  {
    if |bits| == 1 {
      UnparseShapes(bits[0], "", "");
    } else if |bits| == 2 {
      JoinPair(bits);
      UnparseShapes(bits[0], bits[1], "");
    } else {
      JoinTriple(bits);
      UnparseShapes(bits[0], bits[1], bits[2]);
    }
  }

  /** The three shapes of a request path. */
  lemma UnparseShapes(x: string, y: string, z: string)
    ensures Unparse(Request(x, None, None)) == x
    ensures Unparse(Request(x, Some(y), None)) == x + "/" + y
    ensures Unparse(Request(x, Some(y), Some(z))) == x + "/" + y + "/" + z
  {
    assert x + "" + "" == x;
    assert x + ("/" + y) + "" == x + "/" + y;
    assert x + ("/" + y) + ("/" + z) == x + "/" + y + "/" + z;
  }

  lemma JoinPair(bits: seq<string>)
    requires |bits| == 2
    ensures Join(bits, '/') == bits[0] + "/" + bits[1]
  {
    assert Join(bits[1..], '/') == bits[1];
  }

  lemma JoinTriple(bits: seq<string>)
    requires |bits| == 3
    ensures Join(bits, '/') == bits[0] + "/" + bits[1] + "/" + bits[2]
  {
    var rest := bits[1..];
    JoinPair(rest);
    assert rest[0] == bits[1] && rest[1] == bits[2];
  }

  /** The other direction: a well-formed request is read back from its path unchanged. */
  lemma UnparseRoundTrip(req: Request)
    requires '/' !in req.token
    requires req.command.Some? ==> '/' !in req.command.value
    requires req.param.Some? ==> req.command.Some?
    ensures Parse(Unparse(req)) == req
  {
    var t := req.token;
    if req.command.None? {
      assert Unparse(req) == t;
    } else if req.param.None? {
      var c := req.command.value;
      assert Unparse(req) == t + ['/'] + c;
      SplitFirst(t, '/', c, 3);
    } else {
      var c, p := req.command.value, req.param.value;
      assert Unparse(req) == t + ['/'] + (c + ['/'] + p);
      SplitFirst(t, '/', c + ['/'] + p, 3);
      SplitFirst(c, '/', p, 2);
    }
  }

  // ------------------------------------------------------------ routing

  /** `!empty($param)`: set, not "", and not "0" (PHP treats "0" as empty). */
  predicate Given(param: Option<string>)
  {
    param.Some? && param.value != "" && param.value != "0"
  }

  /**
   * `explode('/', $param)` for `signal`: the job id is the text before the
   * first `/` (all of it when there is none); the signal is the text between
   * the first and the second `/`, anything later ignored, and 15 (SIGTERM)
   * when there is no `/`.
   */
  function SignalTarget(param: string): (t: (string, Sig))
    ensures '/' !in t.0 && t.0 <= param
    ensures t.0 == param || param[|t.0|] == '/'
    ensures t.1 == Sigterm <==> '/' !in param
    ensures '/' in param ==> && t.1.Named? && '/' !in t.1.name
                             && t.0 + "/" + t.1.name <= param
                             && (|param| == |t.0| + 1 + |t.1.name| || param[|t.0| + 1 + |t.1.name|] == '/')
  {
    var bits := Split(param, '/');
    if |bits| > 1 then
      SplitHead(bits, param);
      (bits[0], Named(bits[1]))
    else
      (bits[0], Sigterm)
  }

  /** Where the first two pieces of `explode('/', s)` sit in `s`. */
  lemma SplitHead(bits: seq<string>, s: string)
    requires |bits| > 1 && Join(bits, '/') == s
    ensures bits[0] + "/" + bits[1] <= s && s[|bits[0]|] == '/'
    ensures |s| == |bits[0]| + 1 + |bits[1]| <==> |bits| == 2
    ensures |bits| > 2 ==> s[|bits[0]| + 1 + |bits[1]|] == '/'
  {
    var rest := Join(bits[1..], '/');
    assert s == bits[0] + "/" + rest;
    if |bits| > 2 {
      var more := Join(bits[2..], '/');
      assert rest == bits[1] + "/" + more by {
        assert bits[1..][1..] == bits[2..];
      }
      assert s == bits[0] + "/" + bits[1] + "/" + more;
    } else {
      assert rest == bits[1];
    }
  }

  /** The command handlers of HTTPHandler.php:66-126, once the token is accepted. */
  function Route(req: Request, scripts: string, jobs: map<string, Job>, runnable: string -> bool): Action
  {
    if req.command == Some("run") && Given(req.param) then
      var execFile := scripts + "/" + req.param.value;
      if req.param.value != FirstRun && runnable(execFile) then Start(execFile) else Reply(NotFound)
    else if req.command == Some("info") && Given(req.param) then
      if req.param.value in jobs then Reply(Response(200, JobInfo(SnapshotOf(jobs[req.param.value]))))
      else Reply(NotFound)
    else if req.command == Some("signal") && Given(req.param) then
      var (jobId, sig) := SignalTarget(req.param.value);
      if jobId !in jobs then Reply(NotFound)
      else if jobs[jobId].state != Running then Reply(ProcessEnded)
      else if jobs[jobId].process.None? then Fault
      else Deliver(jobId, sig)
    else if req.command == Some("ping") then Reply(Ok)
    else Reply(NotFound)
  }

  /** The request `doHandleHTTPRequest` sees once the path is trimmed and cleaned. */
  function RequestOf(rawPath: string): Request
  {
    Parse(Normalise(Trim(rawPath, '/')))
  }

  /** `doHandleHTTPRequest`, as a decision. */
  function Dispatch(shuttingDown: bool, key: string, scripts: string, rawPath: string,
                    jobs: map<string, Job>, runnable: string -> bool): Action
  {
    if shuttingDown then Reply(Unavailable)
    else if Trim(rawPath, '/') == "favicon.ico" then Reply(Favicon)
    else
      var req := RequestOf(rawPath);
      if req.token != key then Reply(Forbidden)
      else Route(req, scripts, jobs, runnable)
  }

  // ------------------------------------------------------------ what the decision guarantees

  /** While shutting down, every request gets 503 whatever its path and whatever the table holds. */
  lemma ShutdownAnswers503(key: string, scripts: string, rawPath: string, jobs: map<string, Job>,
                           runnable: string -> bool, key': string, scripts': string, rawPath': string,
                           jobs': map<string, Job>, runnable': string -> bool)
    ensures Dispatch(true, key, scripts, rawPath, jobs, runnable) == Reply(Unavailable)
    ensures Dispatch(true, key, scripts, rawPath, jobs, runnable)
         == Dispatch(true, key', scripts', rawPath', jobs', runnable')
  {
  }

  /** A wrong token gets 403 and no job operation, whatever the command. */
  lemma WrongTokenForbidden(key: string, scripts: string, rawPath: string, jobs: map<string, Job>,
                            runnable: string -> bool)
    requires Trim(rawPath, '/') != "favicon.ico"
    requires RequestOf(rawPath).token != key
    ensures Dispatch(false, key, scripts, rawPath, jobs, runnable) == Reply(Forbidden)
  {
  }

  /** A job is started or signalled only for a request that carries the key while the server is up. */
  lemma EffectsNeedKey(shuttingDown: bool, key: string, scripts: string, rawPath: string,
                       jobs: map<string, Job>, runnable: string -> bool)
    requires !Dispatch(shuttingDown, key, scripts, rawPath, jobs, runnable).Reply?
    ensures !shuttingDown && RequestOf(rawPath).token == key
  {
  }

  /** `run/firstRun.sh` is refused with 404 whether or not the script exists or is executable. */
  lemma FirstRunReserved(scripts: string, jobs: map<string, Job>, runnable: string -> bool, token: string)
    ensures Route(Request(token, Some("run"), Some(FirstRun)), scripts, jobs, runnable) == Reply(NotFound)
  {
  }

  /** `run` starts the named script exactly when a parameter is given, it is not the bootstrap script, and it is executable. */
  lemma RunStartsScript(req: Request, scripts: string, jobs: map<string, Job>, runnable: string -> bool)
    requires req.command == Some("run")
    ensures Route(req, scripts, jobs, runnable).Start? <==>
      Given(req.param) && req.param.value != FirstRun && runnable(scripts + "/" + req.param.value)
    ensures Route(req, scripts, jobs, runnable).Start? ==>
      Route(req, scripts, jobs, runnable).execFile == scripts + "/" + req.param.value
    ensures !Route(req, scripts, jobs, runnable).Start? ==> Route(req, scripts, jobs, runnable) == Reply(NotFound)
  {
  }

  /** `info` answers 404 for an unknown id and otherwise 200 with the record minus its handle. */
  lemma InfoReports(req: Request, scripts: string, jobs: map<string, Job>, runnable: string -> bool)
    requires req.command == Some("info") && Given(req.param)
    ensures req.param.value !in jobs ==> Route(req, scripts, jobs, runnable) == Reply(NotFound)
    ensures req.param.value in jobs ==>
      Route(req, scripts, jobs, runnable) == Reply(Response(200, JobInfo(SnapshotOf(jobs[req.param.value]))))
  {
  }

  /**
   * `signal`: unknown job 404; a job not `running` 403 "Process has ended";
   * a running job gets the signal (SIGTERM unless one is given), or, when
   * its handle is null, the fault of calling `terminate` on it.
   */
  lemma SignalOutcomes(req: Request, scripts: string, jobs: map<string, Job>, runnable: string -> bool)
    requires req.command == Some("signal") && Given(req.param)
    ensures var (jobId, sig) := SignalTarget(req.param.value);
      && (jobId !in jobs ==> Route(req, scripts, jobs, runnable) == Reply(NotFound))
      && (jobId in jobs && jobs[jobId].state != Running ==> Route(req, scripts, jobs, runnable) == Reply(ProcessEnded))
      && (jobId in jobs && jobs[jobId].state == Running && jobs[jobId].process.Some? ==>
            Route(req, scripts, jobs, runnable) == Deliver(jobId, sig))
      && (jobId in jobs && jobs[jobId].state == Running && jobs[jobId].process.None? ==>
            Route(req, scripts, jobs, runnable) == Fault)
  {
  }

  /** `info` and `signal` without a parameter, or with "" or "0", fall through to 404. */
  lemma MissingParamNotFound(req: Request, scripts: string, jobs: map<string, Job>, runnable: string -> bool)
    requires req.command == Some("info") || req.command == Some("signal")
    requires !Given(req.param)
    ensures Route(req, scripts, jobs, runnable) == Reply(NotFound)
  {
  }

  /** `ping` answers 200 whatever follows it. */
  lemma PingAlwaysOk(token: string, param: Option<string>, scripts: string, jobs: map<string, Job>,
                     runnable: string -> bool)
    ensures Route(Request(token, Some("ping"), param), scripts, jobs, runnable) == Reply(Ok)
  {
  }

  /** Any other command, or none, falls through to 404. */
  lemma UnknownCommandNotFound(req: Request, scripts: string, jobs: map<string, Job>, runnable: string -> bool)
    requires req.command !in {Some("run"), Some("info"), Some("signal"), Some("ping")}
    ensures Route(req, scripts, jobs, runnable) == Reply(NotFound)
  {
  }

  /**
   * An action that cannot end in the 500 of the catch block: not the fault,
   * no reply with status 500, and a signal only for a job that has a process.
   */
  predicate Safe(action: Action, jobs: map<string, Job>)
  {
    && action != Fault
    && (action.Reply? ==> action.response.status != 500)
    && (action.Deliver? ==> action.jobId in jobs && jobs[action.jobId].process.Some?)
  }

  /** On a consistent table the null-handle fault cannot arise, so no request gets 500. */
  lemma NoFaultOnConsistentTable(shuttingDown: bool, key: string, scripts: string, rawPath: string,
                                 jobs: map<string, Job>, runnable: string -> bool)
    requires forall id :: id in jobs ==> Consistent(jobs[id])
    ensures Safe(Dispatch(shuttingDown, key, scripts, rawPath, jobs, runnable), jobs)
  {
    if !shuttingDown && Trim(rawPath, '/') != "favicon.ico" {
      var req := RequestOf(rawPath);
      if req.token == key {
        RouteNoFault(req, scripts, jobs, runnable);
      }
    }
  }

  lemma RouteNoFault(req: Request, scripts: string, jobs: map<string, Job>, runnable: string -> bool)
    requires forall id :: id in jobs ==> Consistent(jobs[id])
    ensures Safe(Route(req, scripts, jobs, runnable), jobs)
  {
    if req.command == Some("signal") && Given(req.param) {
      var jobId := SignalTarget(req.param.value).0;
      if jobId in jobs {
        assert Consistent(jobs[jobId]);
      }
    }
  }

  /**
   * The clean-up is not a traversal filter: the replacements run once, in
   * order, so `...../` comes out as `../`.
   */
  lemma TraversalSurvivesNormalise()
    ensures Normalise("...../x") == "../x"
  {
    ReplacesOnce();
    assert Collapse("x", '/') == "x";
    assert Collapse("/x", '/') == "/x";
    assert Collapse("./x", '/') == "./x";
    assert Collapse("../x", '/') == "../x";
  }

  /** The two replacements, one after the other, on `...../x`. */
  lemma ReplacesOnce()
    ensures Replace("...../x", "../", "/") == ".../x"
    ensures Replace(".../x", "./", "/") == "../x"
  {
    assert Replace("x", "../", "/") == "x";
    assert Replace("../x", "../", "/") == "/x";
    assert Replace(".../x", "../", "/") == "./x";
    assert Replace("..../x", "../", "/") == "../x";
    assert Replace("x", "./", "/") == "x";
    assert Replace("./x", "./", "/") == "/x";
    assert Replace("../x", "./", "/") == "./x";
  }

  /**
   * ... and `run` accepts the result: with the path cleaned as above, a
   * script outside the scripts directory is started when one is executable there.
   */
  lemma TraversalReachesRun(key: string, scripts: string, jobs: map<string, Job>, runnable: string -> bool)
    requires runnable(scripts + "/../x")
    ensures Route(Request(key, Some("run"), Some("../x")), scripts, jobs, runnable) == Start(scripts + "/../x")
  {
    var param: string := "../x";
    assert Given(Some(param)) && param != FirstRun by {
      assert param[0] == '.' && |param| == 4;
    }
    assert scripts + "/" + param == scripts + "/../x";
  }

  /**
   * The whole request: for any key made of neither `/` nor `.`, the path
   * `/<key>/run/...../x` starts `scripts/../x`, a file outside the scripts
   * directory, whenever that file is executable.
   */
  lemma TraversalEndToEnd(key: string, scripts: string, jobs: map<string, Job>, runnable: string -> bool)
    requires key != [] && '/' !in key && '.' !in key
    requires runnable(scripts + "/../x")
    ensures Dispatch(false, key, scripts, "/" + key + "/run/...../x", jobs, runnable) == Start(scripts + "/../x")
  {
    var tail: string := "/run/...../x";
    var trimmed := key + tail;
    TrimOnce(key, tail);
    assert trimmed != "favicon.ico" by {
      assert trimmed[|key|] == '/';
    }
    var cleaned := key + "/run/../x";
    CleanedPath(key);
    KeyPathHasNoRun(key);
    assert Normalise(trimmed) == cleaned;
    KeyPathSplits(key);
    assert RequestOf("/" + key + tail) == Request(key, Some("run"), Some("../x"));
    TraversalReachesRun(key, scripts, jobs, runnable);
  }

  /** One leading slash in front of a key, and no trailing one, is all `trim` removes. */
  lemma TrimOnce(key: string, tail: string)
    requires key != [] && key[0] != '/'
    requires tail != [] && tail[|tail| - 1] != '/'
    ensures Trim("/" + key + tail, '/') == key + tail
  {
    var s := "/" + key + tail;
    assert s[1..] == key + tail;
    assert Leading(s[1..], '/') == 0;
    assert Leading(s, '/') == 1;
    assert Trailing(s[1..], '/') == 0;
  }

  lemma CleanedPath(key: string)
    requires '.' !in key
    ensures Replace(Replace(key + "/run/...../x", "../", "/"), "./", "/") == key + "/run/../x"
  {
    var head := key + "/run/";
    var dots: string := "...../x";
    var fewer: string := ".../x";
    var last: string := "../x";
    ReplacesOnce();
    PathPieces();
    Assoc(key, "/run/", dots);
    Assoc(key, "/run/", last);
    ReplaceSkipsPrefix(head, dots, "../", "/");
    ReplaceSkipsPrefix(head, fewer, "./", "/");
  }

  /** The literal pieces the example path is cut into. */
  lemma PathPieces()
    ensures "/run/...../x" == "/run/" + "...../x"
    ensures "/run/../x" == "/run/" + "../x"
    ensures "/run/../x" == ['/'] + ("run" + ['/'] + "../x")
  {
  }

  lemma KeyPathHasNoRun(key: string)
    requires '/' !in key
    ensures !HasRun(key + "/run/../x", '/')
  {
    var rest: string := "/run/../x";
    var s := key + rest;
    forall i | 0 <= i < |s| - 1
      ensures !(s[i] == '/' && s[i + 1] == '/')
    {
      if i >= |key| {
        assert s[i] == rest[i - |key|] && s[i + 1] == rest[i + 1 - |key|];
      } else {
        assert s[i] == key[i];
      }
    }
  }

  lemma KeyPathSplits(key: string)
    requires '/' !in key
    ensures SplitAtMost(key + "/run/../x", '/', 3) == [key, "run", "../x"]
  {
    var command: string := "run";
    var param: string := "../x";
    var rest := command + ['/'] + param;
    PathPieces();
    Assoc(key, ['/'], rest);
    SplitFirst(command, '/', param, 2);
    SplitFirst(key, '/', rest, 3);
    ListOfThree(key, command, param);
  }

  lemma ListOfThree(a: string, b: string, c: string)
    ensures [a] + ([b] + [c]) == [a, b, c]
  {
  }

  /**
   * The reservation of `firstRun.sh` compares the parameter literally, and
   * the clean-up leaves `./` in front of a name: `..../firstRun.sh` is
   * cleaned to `./firstRun.sh`, which `run` accepts and which names the
   * reserved script.
   */
  lemma FirstRunBypass(key: string, scripts: string, jobs: map<string, Job>, runnable: string -> bool)
    requires runnable(scripts + "/./" + FirstRun)
    ensures Normalise("..../" + FirstRun) == "./" + FirstRun
    ensures Route(Request(key, Some("run"), Some("./" + FirstRun)), scripts, jobs, runnable)
         == Start(scripts + "/./" + FirstRun)
  {
    var name := FirstRun;
    assert '/' !in name;
    DotSlashSurvives(name);
    var param := "./" + name;
    assert Given(Some(param)) && param != FirstRun by {
      assert param[0] == '.' && name[0] == 'f';
    }
    assert scripts + "/" + param == scripts + "/./" + name;
  }

  /** For a name without `/`, the clean-up turns `..../name` into `./name`. */
  lemma DotSlashSurvives(name: string)
    requires name != [] && '/' !in name
    ensures Normalise("..../" + name) == "./" + name
  {
    var dotsTwo: string := "..";
    var dotOne: string := ".";
    NoLastNoMatch("....", "../");
    NoLastNoMatch(name, "../");
    assert "..../" + name == dotsTwo + "../" + name;
    assert dotsTwo + "../"[..2] == "....";
    ReplaceFirst(dotsTwo, "../", name, "/");
    assert dotsTwo + "/" + name == "../" + name;
    NoLastNoMatch("..", "./");
    NoLastNoMatch(name, "./");
    assert "../" + name == dotOne + "./" + name;
    assert dotOne + "./"[..1] == "..";
    ReplaceFirst(dotOne, "./", name, "/");
    assert dotOne + "/" + name == "./" + name;
    DotSlashHasNoRun(name);
  }

  lemma DotSlashHasNoRun(name: string)
    requires name != [] && '/' !in name
    ensures !HasRun("./" + name, '/')
  {
    var s := "./" + name;
    forall i | 0 <= i < |s| - 1
      ensures !(s[i] == '/' && s[i + 1] == '/')
    {
      if i > 0 {
        assert s[i + 1] == name[i - 1];
      }
    }
  }

  // ------------------------------------------------------------ the handler object

  class HttpHandler {
    /** `$config['key']`. */
    const key: string
    /** `$config['scripts']`. */
    const scripts: string
    /** The `JobManager` shared with the rest of the service. */
    const jobs: JobManager
    /** `$shutdown`. */
    var shuttingDown: bool

    constructor (key: string, scripts: string, jobs: JobManager)
      ensures this.key == key && this.scripts == scripts && this.jobs == jobs && !shuttingDown
    {
      this.key := key;
      this.scripts := scripts;
      this.jobs := jobs;
      shuttingDown := false;
    }

    /** `shutdown()`: from now on every request is answered 503. */
    method Shutdown()
      modifies this
      ensures shuttingDown
    {
      shuttingDown := true;
    }

    /**
     * `handleHTTPRequest`: decide, then perform the effect. `runnable` is
     * `file_exists && is_executable`; `draws` are the `mt_rand` results the
     * id generator will consume; `now` is `time()`.
     */
    method HandleRequest(rawPath: string, runnable: string -> bool, draws: seq<Uuid.Draw>, now: int)
      returns (resp: Response)
      requires jobs.Valid()
      requires SomeFree(Candidates(draws), jobs.jobs.Keys)
      modifies jobs
      ensures jobs.Valid()
      ensures resp.status != 500
      ensures Performed(Dispatch(shuttingDown, key, scripts, rawPath, old(jobs.jobs), runnable),
                        old(jobs.jobs), draws, now, resp, jobs.jobs)
    {
      NoFaultOnConsistentTable(shuttingDown, key, scripts, rawPath, jobs.jobs, runnable);
      var action := Dispatch(shuttingDown, key, scripts, rawPath, jobs.jobs, runnable);
      resp := Perform(action, draws, now);
      assert resp.status != 500 by {
        assert action.Reply? ==> resp == action.response;
      }
    }

    /** The effect of a decision on the job table, and the response that reports it. */
    method Perform(action: Action, draws: seq<Uuid.Draw>, now: int) returns (resp: Response)
      requires jobs.Valid()
      requires SomeFree(Candidates(draws), jobs.jobs.Keys)
      requires action.Deliver? ==> action.jobId in jobs.jobs && jobs.jobs[action.jobId].process.Some?
      modifies jobs
      ensures jobs.Valid()
      ensures Performed(action, old(jobs.jobs), draws, now, resp, jobs.jobs)
    {
      match action {
        case Reply(r) =>
          resp := r;
        case Start(f) =>
          var id := jobs.NewJob(f, Candidates(draws), now);
          resp := Response(200, JobStarted(id));
        case Deliver(id, s) =>
          jobs.SignalProcess(id, s);
          resp := Ok;
        case Fault =>
          resp := InternalError;
      }
    }
  }

  /**
   * What carrying out `action` on table `before` yields: a reply leaves the
   * table alone; `run` answers 200 with the id `newJob` drew and inserts the
   * new record; `signal` answers 200 and delivers the signal, leaving the
   * state as it was; a fault answers 500 and changes nothing.
   */
  ghost predicate Performed(action: Action, before: map<string, Job>, draws: seq<Uuid.Draw>, now: int,
                            resp: Response, after: map<string, Job>)
  {
    match action
    case Reply(r) => resp == r && after == before
    case Start(f) =>
      SomeFree(Candidates(draws), before.Keys) &&
      var id := NewId(draws, before.Keys);
      resp == Response(200, JobStarted(id)) && after == before[id := Fresh(f, now)]
    case Deliver(id, s) =>
      id in before && before[id].process.Some? &&
      var j := before[id];
      resp == Ok && after == before[id := j.(process := Some(Signalled(j.process.value, s)))]
    case Fault => resp == InternalError && after == before
  }
}
