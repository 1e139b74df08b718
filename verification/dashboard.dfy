/**
 * The scraper dashboard: the status badge colouring, the state transitions of
 * one "scrape" click (request, reply handling, error display) and the CSV export
 * of the tabulated results.
 */
module Dashboard {
  import opened Wrappers
  import opened Json
  import Text

  const Viewed: string := "已查看"
  const Interview: string := "邀请面试"
  const Unsuitable: string := "不合适"
  const Submitted: string := "已投递"

  const BlueBadge: string := "bg-blue-100 text-blue-800"
  const GreenBadge: string := "bg-green-100 text-green-800"
  const RedBadge: string := "bg-red-100 text-red-800"
  const GrayBadge: string := "bg-gray-100 text-gray-800"

  const ServerErrorMessage: string := "爬取失败，服务器返回错误。"
  const NoRecordsMessage: string := "未找到任何申请记录。"
  const UnknownErrorMessage: string := "发生未知错误，请检查控制台或重试。"

  /** The badge classes for a status; unknown statuses share the "submitted" grey. */
  function StatusClass(status: string): (r: string)
    ensures status == Viewed <==> r == BlueBadge
    ensures status == Interview <==> r == GreenBadge
    ensures status == Unsuitable <==> r == RedBadge
    ensures status !in {Viewed, Interview, Unsuitable} <==> r == GrayBadge
  {
    if status == Viewed then BlueBadge
    else if status == Interview then GreenBadge
    else if status == Unsuitable then RedBadge
    else GrayBadge
  }

  /** The message of the `TypeError` a property read on `null` throws. */
  function NullRead(key: string): string {
    "Cannot read properties of null (reading '" + key + "')"
  }

  /** The JavaScript `length` property of a JSON value, `None` for `undefined`. */
  function Length(j: Json): (r: Option<Json>)
    requires !j.JNull?
    ensures j.JArr? ==> r == Some(JNum(|j.items|))
    ensures j.JObj? ==> r == Field(j, "length")
  {
    match j
    case JArr(items) => Some(JNum(|items|))
    case JStr(s) => Some(JNum(|s|))
    case JObj(_) => Field(j, "length")
    case _ => None
  }

  /** `data.length === 0` on a non-null value. */
  predicate LengthIsZero(j: Json)
    requires !j.JNull?
  {
    Length(j) == Some(JNum(0))
  }

  /** The dashboard's state: the loading flag, the results and the error message. */
  datatype State = State(loading: bool, results: Json, error: Option<string>)

  /** What `fetch` delivered: a rejection, or a reply whose body `json()` parsed or rejected with a message. */
  datatype Fetched = NetworkError(message: string) | Reply(ok: bool, body: Result<Json, string>)

  /** How the `try` block ended: results to store, no records, or an exception with its message. */
  datatype Settled = Stored(data: Json) | NoRecords | Thrown(message: string)

  /** The dashboard before any click. */
  const Initial: State := State(false, JArr([]), None)

  /** The click handler's first statements: loading on, results and error cleared. */
  function StartScrape(s: State): (r: State)
    ensures r.loading && r.results == JArr([]) && r.error.None?
  {
    State(true, JArr([]), None)
  }

  /** The `try` block run on what `fetch` delivered. */
  function Handle(f: Fetched): (r: Settled)
    ensures r.Stored? <==> f.Reply? && f.ok && f.body.Success? && !f.body.value.JNull? && !LengthIsZero(f.body.value)
    ensures r.Stored? ==> r.data == f.body.value
    ensures r.NoRecords? <==> f.Reply? && f.ok && f.body.Success? && !f.body.value.JNull? && LengthIsZero(f.body.value)
    ensures f.Reply? && !f.ok && f.body.Success? && !f.body.value.JNull? ==>
      r == Thrown(if TruthyOpt(Field(f.body.value, "error")) then ToJsString(f.body.value.fields["error"]) else ServerErrorMessage)
    ensures f.NetworkError? ==> r == Thrown(f.message)
    ensures f.Reply? && f.body.Failure? ==> r == Thrown(f.body.error)
    ensures f.Reply? && f.body == Success(JNull) ==> r == Thrown(NullRead(if f.ok then "length" else "error"))
  {
    match f
    case NetworkError(m) => Thrown(m)
    case Reply(ok, body) =>
      match body
      case Failure(m) => Thrown(m)
      case Success(data) =>
        if data.JNull? then Thrown(NullRead(if ok then "length" else "error"))
        else if !ok then
          var e := Field(data, "error");
          Thrown(if TruthyOpt(e) then ToJsString(e.value) else ServerErrorMessage)
        else if LengthIsZero(data) then NoRecords
        else Stored(data)
  }

  /** The `catch` and `finally` blocks: the state once the handler has finished. */
  function FinishScrape(s: State, f: Fetched): (r: State)
    requires s.loading && s.results == JArr([]) && s.error.None?
    ensures !r.loading
    ensures r.error.None? <==> Handle(f).Stored?
    ensures r.error.Some? ==> r.error.value != "" && r.results == s.results
    ensures Handle(f).Stored? ==> r.results == Handle(f).data
    ensures Handle(f).Thrown? && Handle(f).message != "" ==> r.error == Some(Handle(f).message)
    ensures Handle(f).Thrown? && Handle(f).message == "" ==> r.error == Some(UnknownErrorMessage)
    ensures Handle(f).NoRecords? ==> r.error == Some(NoRecordsMessage)
  {
    match Handle(f)
    case Stored(data) => State(false, data, None)
    case NoRecords => s.(loading := false, error := Some(NoRecordsMessage))
    case Thrown(m) => s.(loading := false, error := Some(if m != "" then m else UnknownErrorMessage))
  }

  /** One click: start, then finish on what `fetch` delivered. */
  function Scrape(s: State, f: Fetched): State {
    FinishScrape(StartScrape(s), f)
  }

  /** The red error line is shown. */
  predicate ShowsError(s: State) {
    !s.loading && s.error.Some? && s.error.value != ""
  }

  /** The results table is shown (`results.length > 0`, for a numeric length). */
  predicate ShowsTable(s: State) {
    !s.loading && !s.results.JNull? && Length(s.results).Some? && Length(s.results).value.JNum? && Length(s.results).value.n > 0
  }

  /** The "click the button to start" hint is shown. */
  predicate ShowsHint(s: State) {
    !s.loading && (s.error.None? || s.error.value == "") && !s.results.JNull? && LengthIsZero(s.results)
  }

  /** A failing reply carrying `{ error: m }` with a non-empty `m` shows exactly `m`. */
  lemma ErrorBodyShown(s: State, m: string)
    requires m != ""
    ensures Scrape(s, Reply(false, Success(ErrorBody(m)))).error == Some(m)
    ensures ShowsError(Scrape(s, Reply(false, Success(ErrorBody(m)))))
    ensures !ShowsTable(Scrape(s, Reply(false, Success(ErrorBody(m)))))
  {
    assert Field(ErrorBody(m), "error") == Some(JStr(m));
  }

  /** A failing reply without a usable `error` field shows the generic server-error text. */
  lemma ErrorFieldMissingShowsServerError(s: State, body: Json)
    requires !body.JNull? && !TruthyOpt(Field(body, "error"))
    ensures Scrape(s, Reply(false, Success(body))).error == Some(ServerErrorMessage)
  {
  }

  /** A successful reply with a non-empty array tabulates exactly those items. */
  lemma ArrayReplyTabulated(s: State, items: seq<Json>)
    requires items != []
    ensures Scrape(s, Reply(true, Success(JArr(items)))) == State(false, JArr(items), None)
    ensures ShowsTable(Scrape(s, Reply(true, Success(JArr(items)))))
  {
  }

  /** Once a click has finished, the page shows the error line or the table or the hint, never two of them. */
  lemma AtMostOneView(s: State, f: Fetched)
    ensures var r := Scrape(s, f);
      !(ShowsError(r) && ShowsTable(r)) && !(ShowsError(r) && ShowsHint(r)) && !(ShowsTable(r) && ShowsHint(r))
    ensures Scrape(s, f).error.Some? ==> ShowsError(Scrape(s, f)) && !ShowsTable(Scrape(s, f))
  {
  }

  // ---------------------------------------------------------------------------
  // CSV export
  // ---------------------------------------------------------------------------

  const CsvPrefix: string := "data:text/csv;charset=utf-8,\U{FEFF}"
  const CsvHeaders: seq<string> := ["职位名称", "公司", "申请日期", "状态"]
  const CsvKeys: seq<string> := ["title", "company", "date", "status"]

  /** One CSV line: the cells joined with commas, terminated by CR LF; nothing is quoted. */
  function CsvLine(cells: seq<string>): string
    requires |cells| >= 1
  {
    Text.Join(cells, ',') + "\r\n"
  }

  /** The lines of `rows`, in order. */
  function CsvBody(rows: seq<seq<string>>): string
    requires forall i :: 0 <= i < |rows| ==> |rows[i]| >= 1
  {
    if rows == [] then "" else CsvLine(rows[0]) + CsvBody(rows[1..])
  }

  /** A cell as `[...].join(',')` renders a property: `undefined` and `null` become empty. */
  function Cell(row: Json, key: string): string {
    match Field(row, key)
    case None => ""
    case Some(v) => if v.JNull? then "" else ToJsString(v)
  }

  /** The four cells of a result row. */
  function RowCells(row: Json): (r: seq<string>)
    ensures |r| == 4
    ensures forall k :: 0 <= k < 4 ==> r[k] == Cell(row, CsvKeys[k])
  {
    [Cell(row, "title"), Cell(row, "company"), Cell(row, "date"), Cell(row, "status")]
  }

  /** The cell rows of all results. */
  function ResultRows(items: seq<Json>): (r: seq<seq<string>>)
    ensures |r| == |items|
    ensures forall i :: 0 <= i < |items| ==> r[i] == RowCells(items[i])
  {
    if items == [] then [] else [RowCells(items[0])] + ResultRows(items[1..])
  }

  /**
   * The export handler: nothing for no results, nothing when a row is `null`
   * (reading its `title` throws), otherwise the data URI text before `encodeURI`.
   */
  function ExportCsv(results: seq<Json>): (r: Option<string>)
    ensures r.Some? <==> results != [] && forall i :: 0 <= i < |results| ==> !results[i].JNull?
    ensures r.Some? ==> r.value == CsvPrefix + CsvBody([CsvHeaders] + ResultRows(results))
  {
    if results == [] then None
    else if exists i :: 0 <= i < |results| && results[i].JNull? then None
    else Some(CsvPrefix + CsvBody([CsvHeaders] + ResultRows(results)))
  }

  /** A CSV line back into cells: drop one trailing CR, split at commas. */
  function DecodeLine(line: string): seq<string> {
    var l := if line != [] && line[|line| - 1] == '\r' then line[..|line| - 1] else line;
    Text.Split(l, ',')
  }

  /** A CSV body back into rows: the pieces between line feeds, the last (after the final LF) dropped. */
  function DecodeCsv(body: string): seq<seq<string>> {
    var lines := Text.Split(body, '\n');
    seq(|lines| - 1, i requires 0 <= i < |lines| - 1 => DecodeLine(lines[i]))
  }

  /** A cell that survives unquoted CSV: no comma, CR or LF. */
  predicate CleanCell(c: string) {
    ',' !in c && '\r' !in c && '\n' !in c
  }

  predicate CleanRows(rows: seq<seq<string>>) {
    forall i, k :: 0 <= i < |rows| && 0 <= k < |rows[i]| ==> CleanCell(rows[i][k])
  }

  /** A line of clean cells contains no line feed and decodes to its cells. */
  lemma {:induction false} CsvLineRoundTrip(cells: seq<string>)
    requires |cells| >= 1
    requires forall k :: 0 <= k < |cells| ==> CleanCell(cells[k])
    ensures '\n' !in Text.Join(cells, ',') + "\r"
    ensures DecodeLine(Text.Join(cells, ',') + "\r") == cells
  {
    JoinFree(cells, ',', '\n');
    Text.SplitJoin(cells, ',');
    var j := Text.Join(cells, ',');
    assert (j + "\r")[..|j + "\r"| - 1] == j;
  }

  /** Joining pieces free of a character `c` (other than the separator) yields a string free of `c`. */
  lemma {:induction false} JoinFree(parts: seq<string>, sep: char, c: char)
    requires |parts| >= 1 && c != sep
    requires forall k :: 0 <= k < |parts| ==> c !in parts[k]
    ensures c !in Text.Join(parts, sep)
    decreases |parts|
  {
    if |parts| > 1 {
      JoinFree(parts[1..], sep, c);
    }
  }

  /** The body of clean rows splits at line feeds into its lines and one empty tail. */
  lemma {:induction false} CsvBodyLines(rows: seq<seq<string>>)
    requires forall i :: 0 <= i < |rows| ==> |rows[i]| >= 1
    requires CleanRows(rows)
    ensures var lines := Text.Split(CsvBody(rows), '\n');
      |lines| == |rows| + 1 && lines[|rows|] == "" &&
      forall i :: 0 <= i < |rows| ==> lines[i] == Text.Join(rows[i], ',') + "\r"
    decreases |rows|
  {
    if rows != [] {
      var first := Text.Join(rows[0], ',') + "\r";
      CsvLineRoundTrip(rows[0]);
      assert CleanRows(rows[1..]) by {
        forall i, k | 0 <= i < |rows[1..]| && 0 <= k < |rows[1..][i]| ensures CleanCell(rows[1..][i][k]) {
          assert rows[1..][i] == rows[i + 1];
        }
      }
      CsvBodyLines(rows[1..]);
      assert CsvBody(rows) == first + ['\n'] + CsvBody(rows[1..]);
      Text.SplitAtSeparator(first, CsvBody(rows[1..]), '\n');
      Text.SplitNoSeparator(first, '\n');
    }
  }

  /** Decoding the body of clean rows gives the rows back. */
  lemma CsvRoundTrip(rows: seq<seq<string>>)
    requires forall i :: 0 <= i < |rows| ==> |rows[i]| >= 1
    requires CleanRows(rows)
    ensures DecodeCsv(CsvBody(rows)) == rows
  {
    CsvBodyLines(rows);
    var lines := Text.Split(CsvBody(rows), '\n');
    forall i | 0 <= i < |rows| ensures DecodeCsv(CsvBody(rows))[i] == rows[i] {
      assert CleanRows([rows[i]]) by {
        assert forall k :: 0 <= k < |rows[i]| ==> CleanCell(rows[i][k]);
      }
      CsvLineRoundTrip(rows[i]);
    }
  }

  /**
   * Fields are not quoted: a title holding a comma comes back as one cell more
   * than was written, shifting the company into the date column.
   */
  lemma CommaShiftsColumns(a: string, b: string, company: string, date: string, status: string)
    requires CleanCell(a) && CleanCell(b) && CleanCell(company) && CleanCell(date) && CleanCell(status)
    ensures var row := [a + "," + b, company, date, status];
      DecodeCsv(CsvBody([row])) == [[a, b, company, date, status]]
  {
    var cells := [a, b, company, date, status];
    CsvRoundTrip([cells]);
    assert Text.Join([a + "," + b, company, date, status], ',') == Text.Join(cells, ',');
  }
}
