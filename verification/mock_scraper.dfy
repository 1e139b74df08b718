/**
 * The default worker (`my_scraper.py`): it ignores its arguments, prints a fixed
 * list of three applications as one JSON array line and exits 0, or, if its
 * logic raises, prints `Python Error: <message>` on stderr and exits 1.
 */
module MockScraper {
  import opened Wrappers
  import opened Json
  import WorkerProtocol

  const ErrorPrefix: string := "Python Error: "

  /** One application object with the four keys the dashboard reads. */
  function Application(title: string, company: string, date: string, status: string): (j: Json)
    ensures j.JObj? && j.fields.Keys == {"title", "company", "date", "status"}
    ensures Field(j, "status") == Some(JStr(status))
  {
    JObj(map["title" := JStr(title), "company" := JStr(company), "date" := JStr(date), "status" := JStr(status)])
  }

  /** The data `main_scrape_logic` returns. */
  const MockData: seq<Json> := [
    Application("Real Frontend Developer", "RealTech Inc.", "2025-10-20", "已投递"),
    Application("Real Product Manager", "Scraped Solutions", "2025-10-19", "已查看"),
    Application("Real Data Analyst", "DataCorp", "2025-10-18", "邀请面试")]

  /**
   * The `__main__` block. `failure` is the message of an exception raised by the
   * scraping logic, if any; the arguments are accepted and never read. As the
   * script stands, its only `raise` is commented out, so `failure` is always
   * `None`; the `Some` case models the `except` branch the script keeps for when
   * that `raise` is restored.
   */
  function Run(argv: seq<string>, failure: Option<string>, dumps: Json -> string): (e: WorkerProtocol.Exit)
    ensures failure.None? ==> e == WorkerProtocol.Exit(WorkerProtocol.Line(dumps(JArr(MockData))), "", 0)
    ensures failure.Some? ==> e == WorkerProtocol.Exit("", ErrorPrefix + failure.value + "\n", 1)
  {
    match failure
    case None => WorkerProtocol.Exit(WorkerProtocol.Line(dumps(JArr(MockData))), "", 0)
    case Some(m) => WorkerProtocol.Exit("", WorkerProtocol.Line(ErrorPrefix + m), 1)
  }

  /** The email the handler passes has no effect on what the worker prints or returns. */
  lemma ArgumentsIgnored(a1: seq<string>, a2: seq<string>, failure: Option<string>, dumps: Json -> string)
    ensures Run(a1, failure, dumps) == Run(a2, failure, dumps)
  {
  }

  /** Exactly three records, each with exactly the four dashboard keys. */
  lemma MockDataShape()
    ensures |MockData| == 3
    ensures forall i :: 0 <= i < |MockData| ==> MockData[i].JObj? && MockData[i].fields.Keys == {"title", "company", "date", "status"}
  {
  }
}
