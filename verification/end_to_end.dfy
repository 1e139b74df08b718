/**
 * The pieces put together: what the scrape handler answers for each worker's
 * exit, and what the dashboard then shows. JSON serialising (`dumps`) and parsing
 * (`parse`) stay parameters; the lemmas ask only that the printed line is framed
 * (one line, no surrounding white space) and that parsing it gives the value back.
 */
module EndToEnd {
  import opened Wrappers
  import opened Json
  import Text
  import WorkerProtocol
  import ScrapeRoute
  import MockScraper
  import JobsdbScraper
  import Dashboard

  /** A worker's exit as the handler's listeners see it: its stdout, then its stderr, then the exit code. */
  function Observed(e: WorkerProtocol.Exit): ScrapeRoute.Outcome {
    ScrapeRoute.Exited(Some(e.code), [ScrapeRoute.Out(e.stdout), ScrapeRoute.Err(e.stderr)])
  }

  /** What `fetch` hands the dashboard for a handler response: `ok` for 2xx, the JSON body intact. */
  function Deliver(r: ScrapeRoute.Response): Dashboard.Fetched {
    Dashboard.Reply(200 <= r.status < 300, Success(r.body))
  }

  /** The printed value round-trips through the line it is printed on. */
  predicate PrintedFaithfully(v: Json, dumps: Json -> string, parse: string -> Option<Json>) {
    ScrapeRoute.Framed(dumps(v)) && parse(dumps(v)) == Some(v)
  }

  /** The handler reads exactly the stdout and stderr a worker wrote. */
  lemma ObservedStreams(e: WorkerProtocol.Exit, parse: string -> Option<Json>)
    ensures ScrapeRoute.StdoutOf(Observed(e), parse) == e.stdout
    ensures Text.Concat(ScrapeRoute.ErrChunks(Observed(e).events)) == e.stderr
  {
    var events := Observed(e).events;
    var first := events[..1];
    assert first == [ScrapeRoute.Out(e.stdout)] && events[..|events| - 1] == first && first[..0] == [];
    assert ScrapeRoute.OutChunks(first) == [e.stdout];
    assert ScrapeRoute.OutChunks(events) == [e.stdout];
    assert ScrapeRoute.ErrChunks(first) == [];
    assert ScrapeRoute.ErrChunks(events) == [e.stderr];
    assert Text.Concat([e.stdout]) == e.stdout by {
      assert [e.stdout][..0] == [];
    }
    assert Text.Concat([e.stderr]) == e.stderr by {
      assert [e.stderr][..0] == [];
    }
  }

  /** A framed line printed last is the line the handler parses, whatever was printed before it. */
  lemma LastPrintedLineRead(pre: string, d: string)
    requires pre == "" || pre[|pre| - 1] == '\n'
    requires ScrapeRoute.Framed(d)
    ensures ScrapeRoute.FinalLine(pre + WorkerProtocol.Line(d)) == d
  {
    assert Text.AllOf("\n", Text.IsJsSpace);
    if pre == "" {
      assert pre + WorkerProtocol.Line(d) == d + "\n";
      ScrapeRoute.FinalLineOfFramed(d, "\n");
    } else {
      var p := pre[..|pre| - 1];
      assert pre + WorkerProtocol.Line(d) == p + "\n" + d + "\n";
      ScrapeRoute.FinalLineIgnoresPrefix(p, d, "\n");
    }
  }

  /** A worker that exits 0 after printing `v` last gets `v` back as a 200 response. */
  lemma SuccessfulWorkerAnswered(req: ScrapeRoute.Request, env: ScrapeRoute.Env, e: WorkerProtocol.Exit,
                                 pre: string, v: Json, dumps: Json -> string, parse: string -> Option<Json>)
    requires TruthyOpt(req.email) && e.code == 0
    requires e.stdout == pre + WorkerProtocol.Line(dumps(v)) && (pre == "" || pre[|pre| - 1] == '\n')
    requires PrintedFaithfully(v, dumps, parse)
    ensures ScrapeRoute.Post(req, env, Observed(e), parse) == ScrapeRoute.Response(200, v)
  {
    ObservedStreams(e, parse);
    LastPrintedLineRead(pre, dumps(v));
  }

  /** Without a platform the handler launches the default worker, whose mock records come back as a 200 array. */
  lemma DefaultWorkerAnswered(req: ScrapeRoute.Request, env: ScrapeRoute.Env, argv: seq<string>,
                              dumps: Json -> string, parse: string -> Option<Json>)
    requires TruthyOpt(req.email) && req.platform.None?
    requires PrintedFaithfully(JArr(MockScraper.MockData), dumps, parse)
    ensures ScrapeRoute.Validate(req, env).Spawn?
    ensures ScrapeRoute.Validate(req, env).launch.args[0] == JStr(ScrapeRoute.ResolvePath(env.cwd, "scripts/" + ScrapeRoute.DefaultScript))
    ensures ScrapeRoute.Post(req, env, Observed(MockScraper.Run(argv, None, dumps)), parse)
         == ScrapeRoute.Response(200, JArr(MockScraper.MockData))
  {
    SuccessfulWorkerAnswered(req, env, MockScraper.Run(argv, None, dumps), "", JArr(MockScraper.MockData), dumps, parse);
  }

  /** A worker that exits nonzero is reported as a 500 carrying its code and everything it wrote to stderr. */
  lemma FailedWorkerReported(req: ScrapeRoute.Request, env: ScrapeRoute.Env, e: WorkerProtocol.Exit, parse: string -> Option<Json>)
    requires TruthyOpt(req.email) && e.code != 0
    ensures ScrapeRoute.Post(req, env, Observed(e), parse)
         == ScrapeRoute.Response(500, ErrorBody("Script exited with code " + ScrapeRoute.CodeText(Some(e.code)) + ": " + e.stderr))
  {
    ObservedStreams(e, parse);
    ScrapeRoute.NonzeroExitReported(req, env, Some(e.code), Observed(e).events, parse);
  }

  lemma ExitOneText()
    ensures ScrapeRoute.CodeText(Some(1)) == "1"
  {
  }

  /** A worker that exits with code 1 after writing `pre` and then `tail` to stderr. */
  lemma ExitOneReported(req: ScrapeRoute.Request, env: ScrapeRoute.Env, e: WorkerProtocol.Exit, pre: string, tail: string,
                        parse: string -> Option<Json>)
    requires TruthyOpt(req.email) && e.code == 1 && e.stderr == pre + tail
    ensures ScrapeRoute.Post(req, env, Observed(e), parse)
         == ScrapeRoute.Response(500, ErrorBody("Script exited with code 1: " + pre + tail))
  {
    FailedWorkerReported(req, env, e, parse);
    ExitOneText();
    var head := "Script exited with code 1: ";
    assert "Script exited with code " + "1" + ": " == head;
    assert head + e.stderr == head + pre + tail;
  }

  /** A failing default worker is reported as a 500 carrying its code and its error line. */
  lemma DefaultWorkerFailureReported(req: ScrapeRoute.Request, env: ScrapeRoute.Env, argv: seq<string>, m: string,
                                     dumps: Json -> string, parse: string -> Option<Json>)
    requires TruthyOpt(req.email)
    ensures ScrapeRoute.Post(req, env, Observed(MockScraper.Run(argv, Some(m), dumps)), parse)
         == ScrapeRoute.Response(500, ErrorBody("Script exited with code 1: " + MockScraper.ErrorPrefix + m + "\n"))
  {
    var e := MockScraper.Run(argv, Some(m), dumps);
    var head := "Script exited with code 1: ";
    ExitOneReported(req, env, e, MockScraper.ErrorPrefix + m, "\n", parse);
    assert head + (MockScraper.ErrorPrefix + m) + "\n" == head + MockScraper.ErrorPrefix + m + "\n";
  }

  /** A successful JobsDB run comes back as a 200 whose body is the summary object, `count` matching `data`. */
  lemma JobsdbSuccessAnswered(req: ScrapeRoute.Request, env: ScrapeRoute.Env, argv: seq<string>, s: JobsdbScraper.Session,
                              sm: JobsdbScraper.Summary, dumps: Json -> string, parse: string -> Option<Json>)
    requires TruthyOpt(req.email)
    requires JobsdbScraper.MainScrapeLogic(argv, s) == Success(sm)
    requires PrintedFaithfully(JobsdbScraper.SummaryJson(sm), dumps, parse)
    ensures var r := ScrapeRoute.Post(req, env, Observed(JobsdbScraper.Run(argv, s, dumps)), parse);
      r == ScrapeRoute.Response(200, JobsdbScraper.SummaryJson(sm)) &&
      Field(r.body, "count") == Some(JNum(|sm.data|))
  {
    var e := JobsdbScraper.Run(argv, s, dumps);
    var v := JobsdbScraper.SummaryJson(sm);
    var pre :| e.stdout == pre + WorkerProtocol.Line(dumps(v)) && (pre == "" || pre[|pre| - 1] == '\n');
    SuccessfulWorkerAnswered(req, env, e, pre, v, dumps, parse);
    assert |Field(v, "data").value.items| == |sm.data|;
  }

  /** A failed JobsDB run is a 500 whose message ends with the worker's `failed` status line. */
  lemma JobsdbFailureReported(req: ScrapeRoute.Request, env: ScrapeRoute.Env, argv: seq<string>, s: JobsdbScraper.Session,
                              dumps: Json -> string, parse: string -> Option<Json>)
    requires TruthyOpt(req.email)
    requires JobsdbScraper.MainScrapeLogic(argv, s).Failure?
    ensures exists pre ::
      ScrapeRoute.Post(req, env, Observed(JobsdbScraper.Run(argv, s, dumps)), parse) ==
      ScrapeRoute.Response(500, ErrorBody("Script exited with code 1: " + pre +
        WorkerProtocol.Line(dumps(JobsdbScraper.FailedMessage(JobsdbScraper.MainScrapeLogic(argv, s).error)))))
  {
    var e := JobsdbScraper.Run(argv, s, dumps);
    var tail := WorkerProtocol.Line(dumps(JobsdbScraper.FailedMessage(JobsdbScraper.MainScrapeLogic(argv, s).error)));
    var pre :| e.stderr == pre + tail;
    ExitOneReported(req, env, e, pre, tail, parse);
  }

  /** Every error response of the handler is shown verbatim as the dashboard's error line. */
  lemma HandlerErrorsShown(st: Dashboard.State, req: ScrapeRoute.Request, env: ScrapeRoute.Env,
                           o: ScrapeRoute.Outcome, parse: string -> Option<Json>)
    requires ScrapeRoute.Post(req, env, o, parse).status != 200
    ensures var r := ScrapeRoute.Post(req, env, o, parse);
      Dashboard.Scrape(st, Deliver(r)).error == Some(r.body.fields["error"].s) &&
      Dashboard.ShowsError(Dashboard.Scrape(st, Deliver(r)))
  {
    var r := ScrapeRoute.Post(req, env, o, parse);
    var m :| m != "" && r.body == ErrorBody(m);
    Dashboard.ErrorBodyShown(st, m);
  }

  /**
   * What the dashboard receives for an answer. An exception the handler does not
   * catch becomes the framework's 500 page, whose body `response.json()` rejects
   * with `jsonError`.
   */
  function DeliverAnswer(a: ScrapeRoute.Answer, jsonError: string): Dashboard.Fetched {
    match a
    case Answered(r) => Deliver(r)
    case Unhandled(_) => Dashboard.Reply(false, Failure(jsonError))
  }

  /**
   * The dashboard's request carries no body, so `request.json()` fails (with some
   * message `m`) before the handler reads an email: the dashboard ends showing the
   * failure to parse the error page, never a table.
   */
  lemma DashboardRequestFails(st: Dashboard.State, env: ScrapeRoute.Env, o: ScrapeRoute.Outcome, parse: string -> Option<Json>,
                              m: string, jsonError: string)
    ensures ScrapeRoute.HandleRequest(Failure(m), env, o, parse) == ScrapeRoute.Unhandled(m)
    ensures var r := Dashboard.Scrape(st, DeliverAnswer(ScrapeRoute.HandleRequest(Failure(m), env, o, parse), jsonError));
      r.error == Some(if jsonError != "" then jsonError else Dashboard.UnknownErrorMessage) &&
      Dashboard.ShowsError(r) && !Dashboard.ShowsTable(r)
  {
  }

  /** A body without an email (`{}`, say) is answered 400, and the dashboard would show the missing-email message. */
  lemma EmptyBodyRejected(st: Dashboard.State, env: ScrapeRoute.Env, o: ScrapeRoute.Outcome, parse: string -> Option<Json>, body: Json)
    requires !body.JNull? && !TruthyOpt(Field(body, "email"))
    ensures ScrapeRoute.HandleRequest(Success(body), env, o, parse)
         == ScrapeRoute.Answered(ScrapeRoute.Response(400, ErrorBody(ScrapeRoute.MissingEmailMessage)))
    ensures Dashboard.Scrape(st, DeliverAnswer(ScrapeRoute.HandleRequest(Success(body), env, o, parse), "")).error
         == Some(ScrapeRoute.MissingEmailMessage)
  {
    Dashboard.ErrorBodyShown(st, ScrapeRoute.MissingEmailMessage);
  }

  /** The default worker's records reach the dashboard's table unchanged. */
  lemma MockRecordsTabulated(st: Dashboard.State, req: ScrapeRoute.Request, env: ScrapeRoute.Env, argv: seq<string>,
                             dumps: Json -> string, parse: string -> Option<Json>)
    requires TruthyOpt(req.email) && req.platform.None?
    requires PrintedFaithfully(JArr(MockScraper.MockData), dumps, parse)
    ensures var r := ScrapeRoute.Post(req, env, Observed(MockScraper.Run(argv, None, dumps)), parse);
      Dashboard.Scrape(st, Deliver(r)) == Dashboard.State(false, JArr(MockScraper.MockData), None) &&
      Dashboard.ShowsTable(Dashboard.Scrape(st, Deliver(r)))
  {
    DefaultWorkerAnswered(req, env, argv, dumps, parse);
    Dashboard.ArrayReplyTabulated(st, MockScraper.MockData);
  }

  /** The body the dashboard's request needs: the user's email, with no platform (the default worker). */
  function IntendedBody(email: string): (j: Json)
    requires email != ""
    ensures TruthyOpt(Field(j, "email")) && Field(j, "platform").None?
  {
    JObj(map["email" := JStr(email)])
  }

  /** With that body the request reaches the default worker and its records reach the dashboard's table. */
  lemma IntendedRequestTabulated(st: Dashboard.State, env: ScrapeRoute.Env, argv: seq<string>, email: string,
                                 dumps: Json -> string, parse: string -> Option<Json>)
    requires email != ""
    requires PrintedFaithfully(JArr(MockScraper.MockData), dumps, parse)
    ensures var a := ScrapeRoute.HandleRequest(Success(IntendedBody(email)), env, Observed(MockScraper.Run(argv, None, dumps)), parse);
      Dashboard.Scrape(st, DeliverAnswer(a, "")) == Dashboard.State(false, JArr(MockScraper.MockData), None)
  {
    var body := IntendedBody(email);
    var req := ScrapeRoute.Request(Field(body, "email"), Field(body, "platform"));
    MockRecordsTabulated(st, req, env, argv, dumps, parse);
  }

  /**
   * The JobsDB summary is an object without `length`: the dashboard stores it
   * without error, yet shows neither the table, nor an error, nor the start hint.
   */
  lemma JobsdbSummaryNotTabulated(st: Dashboard.State, sm: JobsdbScraper.Summary)
    ensures var r := Dashboard.Scrape(st, Dashboard.Reply(true, Success(JobsdbScraper.SummaryJson(sm))));
      r.error.None? && r.results == JobsdbScraper.SummaryJson(sm) &&
      !Dashboard.ShowsTable(r) && !Dashboard.ShowsError(r) && !Dashboard.ShowsHint(r)
  {
    var v := JobsdbScraper.SummaryJson(sm);
    assert "length" !in v.fields;
    assert Dashboard.Length(v) == None;
  }

  /** Each status the default worker reports has its own badge colour. */
  lemma MockStatusBadges()
    ensures forall i :: 0 <= i < |MockScraper.MockData| ==>
      Field(MockScraper.MockData[i], "status").Some? && Field(MockScraper.MockData[i], "status").value.JStr?
    ensures Dashboard.StatusClass(MockScraper.MockData[0].fields["status"].s) == Dashboard.GrayBadge
    ensures Dashboard.StatusClass(MockScraper.MockData[1].fields["status"].s) == Dashboard.BlueBadge
    ensures Dashboard.StatusClass(MockScraper.MockData[2].fields["status"].s) == Dashboard.GreenBadge
  {
  }
}
