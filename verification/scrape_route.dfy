/**
 * The scrape API handler (`POST /api/scrape`): request validation, worker-script
 * selection, accumulation of the worker's output streams, interpretation of the
 * worker's exit and last stdout line, and the mapping to an HTTP status and JSON body.
 *
 * The worker process itself is abstract: its run is an `Outcome`, either a launch
 * failure or an exit code with the stream chunks it emitted in order. JSON parsing
 * is the partial function `parse`, a parameter.
 */
module ScrapeRoute {
  import opened Wrappers
  import opened Json
  import Text

  const MissingEmailMessage: string := "请提供邮箱地址"
  const FallbackMessage: string := "Failed to execute scraper script."
  const JobsdbPlatform: string := "jobsdb"
  const JobsdbScript: string := "jobsdb_scraper.py"
  const DefaultScript: string := "my_scraper.py"
  const VenvInterpreter: string := "venv/bin/python3"

  /** The destructured request body: `email` and `platform` may be absent or any JSON value. */
  datatype Request = Request(email: Option<Json>, platform: Option<Json>)

  /** The ambient process state the handler reads: working directory and `PYTHON_PATH`. */
  datatype Env = Env(cwd: string, pythonPath: Option<string>)

  /** A worker to start: interpreter and argument list. */
  datatype Launch = Launch(program: string, args: seq<Json>)

  datatype Response = Response(status: int, body: Json)

  /** What the handler decides before any process exists. */
  datatype Decision = Rejected(response: Response) | Spawn(launch: Launch)

  /** One chunk delivered by the worker's stdout or stderr `data` event. */
  datatype StreamEvent = Out(chunk: string) | Err(chunk: string)

  /** How the worker run ended: an `error` event at start-up, or a `close` event with its exit code. */
  datatype Outcome =
    | LaunchFailed(message: string)
    | Exited(code: Option<int>, events: seq<StreamEvent>)

  /** The settled `runScript` promise. */
  datatype Settled = Resolve(data: Json, error: Option<string>) | Reject(message: string)

  /** The two accumulated buffers and the status messages logged on the way. */
  datatype Streams = Streams(stdout: string, stderr: string, statusLog: seq<Json>)

  /** Node's `path.resolve(cwd, rel)` for a relative `rel` and a normalised absolute `cwd`. */
  function ResolvePath(cwd: string, rel: string): string {
    if cwd != [] && cwd[|cwd| - 1] == '/' then cwd + rel else cwd + "/" + rel
  }

  /** The script file for a platform: only the exact string `"jobsdb"` picks the real scraper. */
  function ScriptName(platform: Option<Json>): (name: string)
    ensures name == JobsdbScript <==> platform == Some(JStr(JobsdbPlatform))
    ensures name == JobsdbScript || name == DefaultScript
  {
    if platform == Some(JStr(JobsdbPlatform)) then JobsdbScript else DefaultScript
  }

  /** `PYTHON_PATH` when set and non-empty, else the project's virtualenv interpreter. */
  function Interpreter(env: Env): string {
    if env.pythonPath.Some? && env.pythonPath.value != "" then env.pythonPath.value
    else ResolvePath(env.cwd, VenvInterpreter)
  }

  /** Validation and worker selection. */
  function Validate(req: Request, env: Env): (d: Decision)
    ensures d.Rejected? <==> !TruthyOpt(req.email)
    ensures d.Rejected? ==> d.response == Response(400, ErrorBody(MissingEmailMessage))
    ensures d.Spawn? ==> d.launch.args == [JStr(ResolvePath(env.cwd, "scripts/" + ScriptName(req.platform))), req.email.value]
    ensures d.Spawn? && env.pythonPath.Some? && env.pythonPath.value != "" ==> d.launch.program == env.pythonPath.value
    ensures d.Spawn? && (env.pythonPath.None? || env.pythonPath.value == "") ==> d.launch.program == ResolvePath(env.cwd, VenvInterpreter)
  {
    if !TruthyOpt(req.email) then Rejected(Response(400, ErrorBody(MissingEmailMessage)))
    else
      var script := ResolvePath(env.cwd, "scripts/" + ScriptName(req.platform));
      Spawn(Launch(Interpreter(env), [JStr(script), req.email.value]))
  }

  /** A parsed line is logged when it is a non-null value whose `status` property is truthy. */
  predicate IsStatusMessage(m: Json) {
    TruthyOpt(Field(m, "status"))
  }

  /** The status messages among `lines`, in order; lines that do not parse are skipped. */
  function StatusLines(lines: seq<string>, parse: string -> Option<Json>): (msgs: seq<Json>)
    ensures |msgs| <= |lines|
    ensures forall i :: 0 <= i < |msgs| ==> IsStatusMessage(msgs[i])
    ensures forall i :: 0 <= i < |msgs| ==> exists k :: 0 <= k < |lines| && parse(lines[k]) == Some(msgs[i])
    ensures forall k :: 0 <= k < |lines| && parse(lines[k]).Some? && IsStatusMessage(parse(lines[k]).value)
              ==> parse(lines[k]).value in msgs
  {
    if lines == [] then []
    else
      var rest := StatusLines(lines[1..], parse);
      assert forall k :: 1 <= k < |lines| ==> lines[1..][k - 1] == lines[k];
      assert forall i :: 0 <= i < |rest| ==> exists k :: 0 <= k < |lines| && parse(lines[k]) == Some(rest[i]) by {
        forall i | 0 <= i < |rest| ensures exists k :: 0 <= k < |lines| && parse(lines[k]) == Some(rest[i]) {
          var k :| 0 <= k < |lines[1..]| && parse(lines[1..][k]) == Some(rest[i]);
          assert parse(lines[k + 1]) == Some(rest[i]);
        }
      }
      var p := parse(lines[0]);
      if p.Some? && IsStatusMessage(p.value) then [p.value] + rest else rest
  }

  /** One line is logged exactly when it parses to a status message. */
  lemma StatusLinesSingle(line: string, parse: string -> Option<Json>)
    ensures StatusLines([line], parse)
         == (if parse(line).Some? && IsStatusMessage(parse(line).value) then [parse(line).value] else [])
  {
    assert [line][1..] == [];
  }

  /**
   * Logging distributes over the lines: the messages of `a + b` are those of `a`
   * followed by those of `b`. With `StatusLinesSingle` this fixes the log of any
   * line sequence: every status line, in order, and nothing else.
   */
  lemma {:induction false} StatusLinesAppend(a: seq<string>, b: seq<string>, parse: string -> Option<Json>)
    ensures StatusLines(a + b, parse) == StatusLines(a, parse) + StatusLines(b, parse)
  {
    if a == [] {
      assert a + b == b;
    } else {
      assert (a + b)[1..] == a[1..] + b;
      StatusLinesAppend(a[1..], b, parse);
    }
  }

  /** The progress messages one stdout chunk yields: its trimmed text split on newlines. */
  function ChunkStatus(chunk: string, parse: string -> Option<Json>): seq<Json> {
    StatusLines(Text.Split(Text.JsTrim(chunk), '\n'), parse)
  }

  /** The stdout chunks of an event sequence, in order. */
  function OutChunks(events: seq<StreamEvent>): seq<string> {
    if events == [] then []
    else
      var last := events[|events| - 1];
      OutChunks(events[..|events| - 1]) + (if last.Out? then [last.chunk] else [])
  }

  /** The stderr chunks of an event sequence, in order. */
  function ErrChunks(events: seq<StreamEvent>): seq<string> {
    if events == [] then []
    else
      var last := events[|events| - 1];
      ErrChunks(events[..|events| - 1]) + (if last.Err? then [last.chunk] else [])
  }

  /** The `data` listeners: append each chunk to its buffer, logging stdout status messages. */
  function OnEvent(st: Streams, e: StreamEvent, parse: string -> Option<Json>): Streams {
    match e
    case Out(c) => st.(stdout := st.stdout + c, statusLog := st.statusLog + ChunkStatus(c, parse))
    case Err(c) => st.(stderr := st.stderr + c)
  }

  /** One event appends its chunk to its own buffer and logs only status messages. */
  lemma OnEventKeepsLog(st: Streams, e: StreamEvent, parse: string -> Option<Json>)
    requires forall i :: 0 <= i < |st.statusLog| ==> IsStatusMessage(st.statusLog[i])
    ensures var r := OnEvent(st, e, parse);
      r.stdout == st.stdout + (if e.Out? then e.chunk else "") &&
      r.stderr == st.stderr + (if e.Err? then e.chunk else "") &&
      forall i :: 0 <= i < |r.statusLog| ==> IsStatusMessage(r.statusLog[i])
  {
    if e.Out? {
      var log := ChunkStatus(e.chunk, parse);
      assert OnEvent(st, e, parse).statusLog == st.statusLog + log;
    } else {
      assert st.stderr + e.chunk == OnEvent(st, e, parse).stderr;
      assert st.stdout + "" == st.stdout;
    }
  }

  /**
   * The listeners run over every event of the run. Each buffer is the in-order
   * concatenation of its own stream's chunks, whatever the interleaving and
   * whatever the status parsing found.
   */
  function Drain(events: seq<StreamEvent>, parse: string -> Option<Json>): (st: Streams)
    ensures st.stdout == Text.Concat(OutChunks(events))
    ensures st.stderr == Text.Concat(ErrChunks(events))
    ensures forall i :: 0 <= i < |st.statusLog| ==> IsStatusMessage(st.statusLog[i])
  {
    if events == [] then Streams("", "", [])
    else
      var prev := Drain(events[..|events| - 1], parse);
      DrainStep(events);
      OnEventKeepsLog(prev, events[|events| - 1], parse);
      OnEvent(prev, events[|events| - 1], parse)
  }

  /** The buffers' contents after one more event: the chunk lands on its own stream's buffer. */
  lemma DrainStep(events: seq<StreamEvent>)
    requires events != []
    ensures var init := events[..|events| - 1];
      var last := events[|events| - 1];
      Text.Concat(OutChunks(events)) == Text.Concat(OutChunks(init)) + (if last.Out? then last.chunk else "") &&
      Text.Concat(ErrChunks(events)) == Text.Concat(ErrChunks(init)) + (if last.Err? then last.chunk else "")
  {
    var init := events[..|events| - 1];
    var last := events[|events| - 1];
    var o := if last.Out? then [last.chunk] else [];
    var e := if last.Err? then [last.chunk] else [];
    Text.ConcatAppend(OutChunks(init), o);
    Text.ConcatAppend(ErrChunks(init), e);
    assert Text.Concat(o) == (if last.Out? then last.chunk else "") by {
      if last.Out? { assert o[..0] == []; }
    }
    assert Text.Concat(e) == (if last.Err? then last.chunk else "") by {
      if last.Err? { assert e[..0] == []; }
    }
  }

  /** The line `runScript` parses at exit: the last `'\n'`-piece of the trimmed stdout. */
  function FinalLine(stdout: string): (line: string)
    ensures '\n' !in line
  {
    Text.LastPiece(Text.JsTrim(stdout), '\n')
  }

  /** `${code}` for the `close` event's code, which is `null` when a signal ended the worker. */
  function CodeText(code: Option<int>): string {
    match code
    case Some(n) => Text.IntToString(n)
    case None => "null"
  }

  /** The `close`/`error` listeners: how the `runScript` promise settles. */
  function Settle(o: Outcome, parse: string -> Option<Json>): (s: Settled)
    ensures s.Resolve? ==> s.error.None?
    ensures s.Resolve? <==> o.Exited? && o.code == Some(0) && parse(FinalLine(Drain(o.events, parse).stdout)).Some?
    ensures s.Resolve? ==> parse(FinalLine(Drain(o.events, parse).stdout)) == Some(s.data)
    ensures s.Reject? ==> s.message != ""
  {
    match o
    case LaunchFailed(m) => Reject("Failed to start script: " + m)
    case Exited(code, events) =>
      var st := Drain(events, parse);
      if code == Some(0) then
        match parse(FinalLine(st.stdout))
        case Some(j) => Resolve(j, None)
        case None => Reject("Invalid JSON output: " + st.stdout)
      else Reject("Script exited with code " + CodeText(code) + ": " + st.stderr)
  }

  /** The `try`/`catch` around `await runScript(email)`. */
  function Respond(s: Settled): (r: Response)
    ensures s.Resolve? && s.error.None? ==> r == Response(200, s.data)
    ensures s.Reject? && s.message != "" ==> r == Response(500, ErrorBody(s.message))
    ensures r.status == 200 || r.status == 500
  {
    match s
    case Resolve(data, error) =>
      if error.Some? && error.value != "" then Response(500, ErrorBody(error.value)) else Response(200, data)
    case Reject(message) =>
      Response(500, ErrorBody(if message != "" then message else FallbackMessage))
  }

  /** The stdout a run accumulated (empty for a launch failure). */
  function StdoutOf(o: Outcome, parse: string -> Option<Json>): string {
    if o.Exited? then Drain(o.events, parse).stdout else ""
  }

  /** The whole handler. `o` is consulted only when a worker is spawned. */
  function Post(req: Request, env: Env, o: Outcome, parse: string -> Option<Json>): (r: Response)
    ensures r.status == 400 <==> !TruthyOpt(req.email)
    ensures r.status == 200 || r.status == 400 || r.status == 500
    ensures r.status == 200 <==> TruthyOpt(req.email) && o.Exited? && o.code == Some(0) && parse(FinalLine(StdoutOf(o, parse))).Some?
    ensures r.status == 200 ==> parse(FinalLine(StdoutOf(o, parse))) == Some(r.body)
    ensures r.status != 200 ==> exists m :: m != "" && r.body == ErrorBody(m)
  {
    match Validate(req, env)
    case Rejected(resp) => resp
    case Spawn(_) => Respond(Settle(o, parse))
  }

  /** How a request ends: with a response, or with an exception the handler does not catch. */
  datatype Answer = Answered(response: Response) | Unhandled(message: string)

  /** The `TypeError` destructuring a `null` body throws. */
  const NullBodyMessage: string := "Cannot destructure property 'email' of 'body' as it is null."

  /**
   * The handler from the raw body: `request.json()` either fails with a message
   * or yields a value whose `email` and `platform` properties are read; both the
   * failure and a `null` body escape the handler, before its `try`.
   */
  function HandleRequest(body: Result<Json, string>, env: Env, o: Outcome, parse: string -> Option<Json>): (a: Answer)
    ensures body.Failure? ==> a == Unhandled(body.error)
    ensures body == Success(JNull) ==> a == Unhandled(NullBodyMessage)
    ensures body.Success? && !body.value.JNull? ==>
      a == Answered(Post(Request(Field(body.value, "email"), Field(body.value, "platform")), env, o, parse))
  {
    match body
    case Failure(m) => Unhandled(m)
    case Success(j) =>
      if j.JNull? then Unhandled(NullBodyMessage)
      else Answered(Post(Request(Field(j, "email"), Field(j, "platform")), env, o, parse))
  }

  /** A falsy email is rejected with 400 whatever the platform, and the outcome is never consulted. */
  lemma MissingEmailRejected(req: Request, env: Env, o1: Outcome, o2: Outcome, parse: string -> Option<Json>)
    requires !TruthyOpt(req.email)
    ensures Post(req, env, o1, parse) == Post(req, env, o2, parse) == Response(400, ErrorBody(MissingEmailMessage))
  {
  }

  /** A spawn failure is reported with the launcher's message. */
  lemma LaunchFailureReported(req: Request, env: Env, msg: string, parse: string -> Option<Json>)
    requires TruthyOpt(req.email)
    ensures Post(req, env, LaunchFailed(msg), parse) == Response(500, ErrorBody("Failed to start script: " + msg))
  {
  }

  /** A nonzero (or signal) exit is reported with the code and the whole of stderr. */
  lemma NonzeroExitReported(req: Request, env: Env, code: Option<int>, events: seq<StreamEvent>, parse: string -> Option<Json>)
    requires TruthyOpt(req.email) && code != Some(0)
    ensures Post(req, env, Exited(code, events), parse)
         == Response(500, ErrorBody("Script exited with code " + CodeText(code) + ": " + Text.Concat(ErrChunks(events))))
  {
  }

  /** Exit 0 with an unparsable last line is a 500 carrying the whole stdout. */
  lemma InvalidOutputReported(req: Request, env: Env, events: seq<StreamEvent>, parse: string -> Option<Json>)
    requires TruthyOpt(req.email)
    requires parse(FinalLine(Text.Concat(OutChunks(events)))).None?
    ensures Post(req, env, Exited(Some(0), events), parse)
         == Response(500, ErrorBody("Invalid JSON output: " + Text.Concat(OutChunks(events))))
  {
    var st := Drain(events, parse);
    assert Settle(Exited(Some(0), events), parse) == Reject("Invalid JSON output: " + st.stdout);
  }

  /** A line the interpreter can pick out whole: one line, starting and ending in a non-space. */
  predicate Framed(d: string) {
    d != "" && '\n' !in d && !Text.IsJsSpace(d[0]) && !Text.IsJsSpace(d[|d| - 1])
  }

  /** Trailing whitespace after a framed line does not reach into it. */
  lemma TrimRightKeepsFramed(x: string, d: string, w: string)
    requires Framed(d) && Text.AllOf(w, Text.IsJsSpace)
    ensures Text.TrimRight(x + d + w, Text.IsJsSpace) == x + d
  {
    Text.TrimRightIgnoresTail(x + d, w, Text.IsJsSpace);
  }

  /** A framed line followed only by whitespace is its own final line. */
  lemma FinalLineOfFramed(d: string, w: string)
    requires Framed(d) && Text.AllOf(w, Text.IsJsSpace)
    ensures FinalLine(d + w) == d
  {
    TrimRightKeepsFramed("", d, w);
    assert "" + d + w == d + w && "" + d == d;
    Text.SplitNoSeparator(d, '\n');
  }

  /** Text ending in a newline, followed by a newline-free `d`, has `d` as its last line. */
  lemma LastPieceAfterNewline(q: string, d: string)
    requires '\n' !in d && q != [] && q[|q| - 1] == '\n'
    ensures Text.LastPiece(q + d, '\n') == d
  {
    var q' := q[..|q| - 1];
    assert q + d == q' + ['\n'] + d;
    Text.LastPieceAfterSeparator(q', d, '\n');
  }

  /** Whatever lines precede a framed final line, the interpreter picks that line. */
  lemma FinalLineIgnoresPrefix(p: string, d: string, w: string)
    requires Framed(d) && Text.AllOf(w, Text.IsJsSpace)
    ensures FinalLine(p + "\n" + d + w) == d
  {
    var x := p + "\n";
    TrimRightKeepsFramed(x, d, w);
    assert Text.JsTrim(x + d + w) == Text.TrimLeft(x + d, Text.IsJsSpace);
    Text.TrimLeftConcat(x, d, Text.IsJsSpace);
    if Text.AllOf(x, Text.IsJsSpace) {
      assert Text.TrimLeft(x + d, Text.IsJsSpace) == d;
      Text.SplitNoSeparator(d, '\n');
    } else {
      Text.TrimLeftKeepsLast(x, Text.IsJsSpace);
      LastPieceAfterNewline(Text.TrimLeft(x, Text.IsJsSpace), d);
    }
  }

  /** A run that delivered its stdout in one chunk accumulated exactly that chunk. */
  lemma SingleChunk(s: string, parse: string -> Option<Json>)
    ensures Drain([Out(s)], parse).stdout == s
  {
    assert OutChunks([Out(s)]) == [s];
    assert Text.Concat([s]) == s;
  }

  /** Exit 0 with a parsable final line answers 200 with the parsed value. */
  lemma ParsedFinalLineAnswered(req: Request, env: Env, s: string, parse: string -> Option<Json>)
    requires TruthyOpt(req.email) && parse(FinalLine(s)).Some?
    ensures Post(req, env, Exited(Some(0), [Out(s)]), parse) == Response(200, parse(FinalLine(s)).value)
  {
    SingleChunk(s, parse);
  }

  /**
   * Log lines written before the final line do not change the response: a run that
   * printed any prefix and then a parsable framed line answers exactly like a run that
   * printed the framed line alone.
   */
  lemma PrependedLinesIgnored(req: Request, env: Env, p: string, d: string, parse: string -> Option<Json>)
    requires TruthyOpt(req.email) && Framed(d) && parse(d).Some?
    ensures Post(req, env, Exited(Some(0), [Out(p + "\n" + d + "\n")]), parse)
         == Post(req, env, Exited(Some(0), [Out(d)]), parse)
         == Response(200, parse(d).value)
  {
    assert Text.AllOf("\n", Text.IsJsSpace);
    FinalLineIgnoresPrefix(p, d, "\n");
    FinalLineOfFramed(d, "");
    assert d + "" == d;
    ParsedFinalLineAnswered(req, env, p + "\n" + d + "\n", parse);
    ParsedFinalLineAnswered(req, env, d, parse);
  }

  /**
   * Only the last line counts: an unparsable final line makes the run fail even when
   * an earlier line would have parsed.
   */
  lemma LastLineOnly(req: Request, env: Env, good: string, d: string, parse: string -> Option<Json>)
    requires TruthyOpt(req.email) && Framed(d) && parse(good).Some? && parse(d).None?
    ensures Post(req, env, Exited(Some(0), [Out(good + "\n" + d)]), parse).status == 500
  {
    assert Text.AllOf("", Text.IsJsSpace);
    FinalLineIgnoresPrefix(good, d, "");
    assert good + "\n" + d + "" == good + "\n" + d;
    SingleChunk(good + "\n" + d, parse);
  }

  /** Empty (or all-blank) stdout after exit 0 leaves the single line `""` to parse. */
  lemma BlankStdoutInvalid(req: Request, env: Env, blank: string, parse: string -> Option<Json>)
    requires TruthyOpt(req.email) && Text.AllOf(blank, Text.IsJsSpace) && parse("").None?
    ensures Post(req, env, Exited(Some(0), [Out(blank)]), parse) == Response(500, ErrorBody("Invalid JSON output: " + blank))
  {
    BlankFinalLine(blank);
    SingleChunk(blank, parse);
    var st := Drain([Out(blank)], parse);
    assert st.stdout == blank;
    assert parse(FinalLine(st.stdout)).None?;
    assert Settle(Exited(Some(0), [Out(blank)]), parse) == Reject("Invalid JSON output: " + blank);
  }

  /** Blank stdout trims to nothing, whose only line is `""`. */
  lemma BlankFinalLine(blank: string)
    requires Text.AllOf(blank, Text.IsJsSpace)
    ensures FinalLine(blank) == ""
  {
    Text.TrimRightIgnoresTail("", blank, Text.IsJsSpace);
    assert "" + blank == blank;
  }

  /** The response depends on the streams only through the two concatenated buffers. */
  lemma ChunkingIrrelevant(req: Request, env: Env, code: Option<int>, e1: seq<StreamEvent>, e2: seq<StreamEvent>, parse: string -> Option<Json>)
    requires Text.Concat(OutChunks(e1)) == Text.Concat(OutChunks(e2))
    requires Text.Concat(ErrChunks(e1)) == Text.Concat(ErrChunks(e2))
    ensures Post(req, env, Exited(code, e1), parse) == Post(req, env, Exited(code, e2), parse)
  {
    var d1, d2 := Drain(e1, parse), Drain(e2, parse);
    assert d1.stdout == d2.stdout && d1.stderr == d2.stderr;
    assert Settle(Exited(code, e1), parse) == Settle(Exited(code, e2), parse);
  }
}
