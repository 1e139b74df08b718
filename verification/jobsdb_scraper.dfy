/**
 * The JobsDB worker (`jobsdb_scraper.py`): record extraction from job cards,
 * the bounded scroll loop, the Excel row mapping, the result summary and the
 * stdout/stderr/exit-status protocol of the script's entry point.
 *
 * The browser is abstract. A job card is the function its
 * `find_element(By.CSS_SELECTOR, selector)` computes: `None` where the lookup
 * raises, otherwise the element's text and `href` attribute. Start-up, login,
 * navigation and file writing are `Step`s that either complete or raise.
 */
module JobsdbScraper {
  import opened Wrappers
  import opened Json
  import Text
  import WorkerProtocol

  const TitleSelectors: seq<string> := [
    "h3", "h2", "h4", ".job-title", "[data-automation='job-title']",
    "[class*='JobTitle']", "[class*='title']", "a[class*='title']"]
  const CompanySelectors: seq<string> := [
    ".company-name", "[data-automation='company-name']", "[class*='CompanyName']",
    "[class*='company']", "span[class*='company']"]
  const DateSelectors: seq<string> := [
    "time", ".date", ".apply-date", "[class*='date']", "span[class*='date']"]
  const StatusSelectors: seq<string> := [
    ".status", "[data-automation='status']", "[class*='Status']", "span[class*='status']", ".badge"]
  const ContainerSelectors: seq<string> := [
    "[data-automation='job-list']", "[data-cy='job-list']", ".job-card", ".application-item",
    "[class*='ApplicationCard']", "[class*='JobCard']", "[class*='application-card']",
    "article", "[role='article']"]
  const CardSelectors: seq<string> := [
    "[data-automation='job-card']", "[data-cy='job-card']", ".job-card", ".application-item",
    "[class*='ApplicationCard']", "[class*='JobCard']", "article[class*='application']",
    "div[class*='application-card']"]
  const LinkSelector: string := "a"

  const DefaultCompany: string := "未知公司"
  const DefaultDate: string := "未知"
  const DefaultStatus: string := "已投递"
  const MaxScrolls: nat := 10

  const ScrapeErrorPrefix: string := "爬取失败: "
  const ProcessErrorPrefix: string := "爬取过程出错: "
  const TimeoutMessage: string := "页面加载超时，请检查网络连接"
  const NoContainerMessage: string := "无法找到申请记录容器，页面HTML已保存到 jobsdb_page_debug.html 供调试"
  const NoCardsMessage: string := "找不到任何职位卡片，可能没有申请记录或页面结构已变更"
  const NoRecordsMessage: string := "未能解析任何投递记录，页面HTML已保存到 jobsdb_page_debug.html"
  const NoEmailMessage: string := "未提供邮箱地址"
  const BrowserInitPrefix: string := "浏览器初始化失败: "

  /** A located element: its visible text and its `href` attribute (`None` when it has none). */
  datatype Element = Element(text: string, href: Option<string>)

  /** A job card, seen through the lookups the scraper makes inside it. */
  datatype Card = Card(find: string -> Option<Element>)

  /** One parsed application; `link` is `None` when the anchor has no `href` (JSON `null`). */
  datatype Record = Record(title: string, company: string, date: string, status: string, link: Option<string>)

  /** What one selector gives the field loop: `None` when the lookup raises, else the stripped text. */
  function Probe(card: Card, sel: string): Option<string> {
    match card.find(sel)
    case None => None
    case Some(e) => Some(Text.PyStrip(e.text))
  }

  /** The probes of a selector list, in order. */
  function Probes(card: Card, sels: seq<string>): (ps: seq<Option<string>>)
    ensures |ps| == |sels|
    ensures forall i :: 0 <= i < |sels| ==> ps[i] == Probe(card, sels[i])
  {
    seq(|sels|, i requires 0 <= i < |sels| => Probe(card, sels[i]))
  }

  /** A probe that found an element with non-empty stripped text. */
  predicate Hit(p: Option<string>) {
    p.Some? && p.value != ""
  }

  /** `ps[i]` is the first probe that hits. */
  predicate FirstHit(ps: seq<Option<string>>, i: int) {
    0 <= i < |ps| && Hit(ps[i]) && forall j :: 0 <= j < i ==> !Hit(ps[j])
  }

  /**
   * The selector loop used for every field: starting from `init`, each lookup
   * that succeeds overwrites the value with its stripped text, and the first
   * non-empty text stops the loop. So a found-but-empty text replaces the
   * default, and the default survives only when no lookup finds anything.
   */
  function ScanSelectors(init: Option<string>, ps: seq<Option<string>>): (r: Option<string>)
    ensures (forall i :: 0 <= i < |ps| ==> ps[i].None?) ==> r == init
    ensures forall i :: FirstHit(ps, i) ==> r == ps[i]
    ensures (forall i :: 0 <= i < |ps| ==> !Hit(ps[i])) && (exists i :: 0 <= i < |ps| && ps[i].Some?)
            ==> r == Some("")
    ensures init.Some? ==> r.Some?
    ensures !Hit(init) ==> (Hit(r) <==> exists i :: 0 <= i < |ps| && Hit(ps[i]))
    decreases |ps|
  {
    if ps == [] then init
    else
      assert forall i :: 1 <= i < |ps| ==> ps[1..][i - 1] == ps[i];
      match ps[0]
      case None => ScanSelectors(init, ps[1..])
      case Some(t) => if t != "" then Some(t) else ScanSelectors(Some(t), ps[1..])
  }

  /**
   * The text of a field with a default: the selector loop started from that default.
   * The default survives only when no lookup finds an element; the first non-empty
   * text wins; and found elements whose texts are all empty leave `""`.
   */
  function FieldText(card: Card, sels: seq<string>, default: string): (r: string)
    ensures (forall i :: 0 <= i < |sels| ==> card.find(sels[i]).None?) ==> r == default
    ensures forall i :: FirstHit(Probes(card, sels), i) ==> r == Probe(card, sels[i]).value
    ensures ((forall i :: 0 <= i < |sels| ==> !Hit(Probe(card, sels[i]))) &&
             (exists i :: 0 <= i < |sels| && card.find(sels[i]).Some?))
            ==> r == ""
  {
    var ps := Probes(card, sels);
    var r0 := ScanSelectors(Some(default), ps);
    ProbesFound(card, sels);
    r0.value
  }

  /** A probe is absent exactly where the lookup raises. */
  lemma ProbesFound(card: Card, sels: seq<string>)
    ensures forall i :: 0 <= i < |sels| ==> (Probes(card, sels)[i].None? <==> card.find(sels[i]).None?)
  {
  }

  /** The `link` value: `""` without an anchor, else the anchor's `href`. */
  function CardLink(card: Card): (link: Option<string>)
    ensures card.find(LinkSelector).None? ==> link == Some("")
    ensures card.find(LinkSelector).Some? ==> link == card.find(LinkSelector).value.href
  {
    match card.find(LinkSelector)
    case None => Some("")
    case Some(e) => e.href
  }

  /**
   * The record one card contributes: nothing when no title selector yields a
   * non-empty text (the title is `None` or `""` and the card is skipped).
   */
  function BuildRecord(card: Card): (r: Option<Record>)
    ensures r.Some? <==> exists i :: 0 <= i < |TitleSelectors| && Hit(Probe(card, TitleSelectors[i]))
    ensures r.Some? ==> r.value.title != ""
    ensures r.Some? ==> forall i :: FirstHit(Probes(card, TitleSelectors), i) ==> Some(r.value.title) == Probe(card, TitleSelectors[i])
    ensures r.Some? ==> r.value.company == FieldText(card, CompanySelectors, DefaultCompany)
    ensures r.Some? ==> r.value.date == FieldText(card, DateSelectors, DefaultDate)
    ensures r.Some? ==> r.value.status == FieldText(card, StatusSelectors, DefaultStatus)
    ensures r.Some? ==> r.value.link == CardLink(card)
  {
    var ps := Probes(card, TitleSelectors);
    var title := ScanSelectors(None, ps);
    assert (exists i :: 0 <= i < |ps| && Hit(ps[i])) <==> exists i :: 0 <= i < |TitleSelectors| && Hit(Probe(card, TitleSelectors[i]));
    if title.Some? && title.value != "" then
      Some(Record(title.value,
                  FieldText(card, CompanySelectors, DefaultCompany),
                  FieldText(card, DateSelectors, DefaultDate),
                  FieldText(card, StatusSelectors, DefaultStatus),
                  CardLink(card)))
    else
      None
  }

  /** The values `f` yields over `xs`, in order, skipping the elements it yields nothing for. */
  function FilterMap<A, B>(f: A -> Option<B>, xs: seq<A>): seq<B> {
    if xs == [] then []
    else
      var r := f(xs[|xs| - 1]);
      FilterMap(f, xs[..|xs| - 1]) + (if r.Some? then [r.value] else [])
  }

  /** The records of a card list, in card order (the reference for the extraction loop). */
  function Records(cards: seq<Card>): seq<Record> {
    FilterMap(BuildRecord, cards)
  }

  /** The per-card loop: each card either adds its record or is skipped. */
  method ExtractRecords(cards: seq<Card>) returns (records: seq<Record>)
    ensures records == Records(cards)
    ensures |records| <= |cards|
    ensures forall k :: 0 <= k < |records| ==> records[k].title != ""
  {
    records := [];
    var idx := 0;
    while idx < |cards|
      invariant 0 <= idx <= |cards|
      invariant records == Records(cards[..idx])
      invariant |records| <= idx
      invariant forall k :: 0 <= k < |records| ==> records[k].title != ""
    {
      assert cards[..idx + 1][..idx] == cards[..idx];
      var r := BuildRecord(cards[idx]);
      if r.Some? {
        records := records + [r.value];
      }
      idx := idx + 1;
    }
    assert cards[..|cards|] == cards;
  }

  /** Filtering distributes over concatenation, so it keeps the order of its input. */
  lemma {:induction false} FilterMapAppend<A, B>(f: A -> Option<B>, a: seq<A>, b: seq<A>)
    ensures FilterMap(f, a + b) == FilterMap(f, a) + FilterMap(f, b)
    decreases |b|
  {
    if b == [] {
      assert a + b == a;
    } else {
      assert (a + b)[..|a + b| - 1] == a + b[..|b| - 1];
      FilterMapAppend(f, a, b[..|b| - 1]);
    }
  }

  /**
   * The output is a subsequence of the input: output `k` comes from input `idx[k]`,
   * the indices increase, and every input that yields a value is among them.
   */
  lemma {:induction false} FilterMapSubsequence<A, B>(f: A -> Option<B>, xs: seq<A>) returns (idx: seq<nat>)
    ensures |idx| == |FilterMap(f, xs)|
    ensures forall k :: 0 <= k < |idx| ==> idx[k] < |xs| && f(xs[idx[k]]) == Some(FilterMap(f, xs)[k])
    ensures forall k, l :: 0 <= k < l < |idx| ==> idx[k] < idx[l]
    ensures forall j :: 0 <= j < |xs| && f(xs[j]).Some? ==> j in idx
  {
    if xs == [] {
      idx := [];
    } else {
      var n := |xs| - 1;
      var init := xs[..n];
      var prev := FilterMapSubsequence(f, init);
      var out := FilterMap(f, xs);
      assert forall j :: 0 <= j < n ==> init[j] == xs[j];
      if f(xs[n]).Some? {
        assert out == FilterMap(f, init) + [f(xs[n]).value];
        idx := prev + [n];
        assert forall k :: 0 <= k < |prev| ==> idx[k] == prev[k];
      } else {
        assert out == FilterMap(f, init);
        idx := prev;
      }
    }
  }

  /** Extraction keeps card order: the records are a subsequence of the cards, in order. */
  lemma RecordsFollowCards(cards: seq<Card>) returns (idx: seq<nat>)
    ensures |idx| == |Records(cards)|
    ensures forall k :: 0 <= k < |idx| ==> idx[k] < |cards| && BuildRecord(cards[idx[k]]) == Some(Records(cards)[k])
    ensures forall k, l :: 0 <= k < l < |idx| ==> idx[k] < idx[l]
    ensures forall j :: 0 <= j < |cards| && BuildRecord(cards[j]).Some? ==> j in idx
  {
    idx := FilterMapSubsequence(BuildRecord, cards);
  }

  /**
   * The scroll loop. `height(0)` is the page height before scrolling and
   * `height(k)` the height read after the k-th scroll. Returns how many scrolls
   * were made and how many of them grew the page.
   */
  method ScrollToBottom(height: nat -> int) returns (scrolls: nat, attempts: nat)
    ensures 1 <= scrolls <= MaxScrolls
    ensures attempts <= scrolls
    ensures forall k :: 1 <= k <= attempts ==> height(k) != height(k - 1)
    ensures attempts < MaxScrolls ==> scrolls == attempts + 1 && height(scrolls) == height(scrolls - 1)
    ensures attempts == MaxScrolls ==> scrolls == MaxScrolls
  {
    var last := height(0);
    attempts := 0;
    scrolls := 0;
    while attempts < MaxScrolls
      invariant attempts <= MaxScrolls
      invariant scrolls == attempts
      invariant last == height(attempts)
      invariant forall k :: 1 <= k <= attempts ==> height(k) != height(k - 1)
    {
      scrolls := scrolls + 1;
      var newHeight := height(scrolls);
      if newHeight == last {
        return;
      }
      last := newHeight;
      attempts := attempts + 1;
    }
  }

  /** The position of the first selector that finds any card, `|sels|` when none does. */
  function FirstCardSelector(cardsFor: string -> seq<Card>, sels: seq<string>): (i: nat)
    ensures i <= |sels|
    ensures forall j :: 0 <= j < i ==> cardsFor(sels[j]) == []
    ensures i < |sels| ==> cardsFor(sels[i]) != []
  {
    if sels == [] then 0
    else if cardsFor(sels[0]) != [] then 0
    else
      var i := FirstCardSelector(cardsFor, sels[1..]);
      assert forall j :: 1 <= j < |sels| ==> sels[1..][j - 1] == sels[j];
      i + 1
  }

  /** The card list of the first selector that finds any, or `[]`. */
  function FirstCards(cardsFor: string -> seq<Card>, sels: seq<string>): (cards: seq<Card>)
    ensures cards == [] <==> forall i :: 0 <= i < |sels| ==> cardsFor(sels[i]) == []
    ensures cards != [] ==> exists i :: 0 <= i < |sels| && cards == cardsFor(sels[i])
                                     && forall j :: 0 <= j < i ==> cardsFor(sels[j]) == []
  {
    var i := FirstCardSelector(cardsFor, sels);
    if i < |sels| then cardsFor(sels[i]) else []
  }

  /** The applications page as the browser presents it after navigation and scrolling. */
  datatype Page =
    | PageTimeout
    | Page(present: string -> bool, cardsFor: string -> seq<Card>)

  /** Some container selector is present on the page. */
  predicate ContainerFound(present: string -> bool) {
    exists i :: 0 <= i < |ContainerSelectors| && present(ContainerSelectors[i])
  }

  /** `scrape_application_history`: the records of the page, or the error it raises. */
  function ScrapeHistory(page: Page): (r: Result<seq<Record>, string>)
    ensures r.Success? ==> page.Page? && r.value != [] && r.value == Records(FirstCards(page.cardsFor, CardSelectors))
    ensures r.Failure? && page.Page? ==> |ScrapeErrorPrefix| <= |r.error| && r.error[..|ScrapeErrorPrefix|] == ScrapeErrorPrefix
    ensures page.PageTimeout? ==> r == Failure(TimeoutMessage)
    ensures page.Page? && !ContainerFound(page.present) ==> r == Failure(ScrapeErrorPrefix + NoContainerMessage)
    ensures page.Page? && ContainerFound(page.present) && FirstCards(page.cardsFor, CardSelectors) == []
            ==> r == Failure(ScrapeErrorPrefix + NoCardsMessage)
    ensures page.Page? && ContainerFound(page.present) && FirstCards(page.cardsFor, CardSelectors) != []
            && Records(FirstCards(page.cardsFor, CardSelectors)) == []
            ==> r == Failure(ScrapeErrorPrefix + NoRecordsMessage)
    ensures page.Page? && ContainerFound(page.present) && FirstCards(page.cardsFor, CardSelectors) != []
            ==> (r.Success? <==> Records(FirstCards(page.cardsFor, CardSelectors)) != [])
  {
    match page
    case PageTimeout => Failure(TimeoutMessage)
    case Page(present, cardsFor) =>
      if !ContainerFound(present) then Failure(ScrapeErrorPrefix + NoContainerMessage)
      else
        var cards := FirstCards(cardsFor, CardSelectors);
        if cards == [] then Failure(ScrapeErrorPrefix + NoCardsMessage)
        else
          var records := Records(cards);
          if records == [] then Failure(ScrapeErrorPrefix + NoRecordsMessage)
          else Success(records)
  }

  /** The JSON object `applications.append` builds: exactly five keys. */
  function RecordJson(r: Record): (j: Json)
    ensures j.JObj? && j.fields.Keys == {"title", "company", "date", "status", "link"}
    ensures Field(j, "title") == Some(JStr(r.title))
    ensures Field(j, "link") == (if r.link.Some? then Some(JStr(r.link.value)) else Some(JNull))
  {
    JObj(map["title" := JStr(r.title), "company" := JStr(r.company), "date" := JStr(r.date),
             "status" := JStr(r.status),
             "link" := if r.link.Some? then JStr(r.link.value) else JNull])
  }

  function RecordsJson(rs: seq<Record>): (js: seq<Json>)
    ensures |js| == |rs|
    ensures forall i :: 0 <= i < |rs| ==> js[i] == RecordJson(rs[i])
  {
    if rs == [] then [] else [RecordJson(rs[0])] + RecordsJson(rs[1..])
  }

  const ExcelHeaders: seq<string> := ["职位名称", "公司名称", "投递日期", "状态", "职位链接"]
  const ExcelKeys: seq<string> := ["title", "company", "date", "status", "link"]

  /** `item.get(key, "")` on a parsed record object. */
  function GetOrEmpty(item: map<string, Json>, key: string): Json {
    if key in item then item[key] else JStr("")
  }

  /** The cells one item contributes to the sheet, in header order. */
  function ExcelRow(item: map<string, Json>): seq<Json> {
    seq(|ExcelKeys|, k requires 0 <= k < |ExcelKeys| => GetOrEmpty(item, ExcelKeys[k]))
  }

  /** The worksheet rows `save_to_excel` appends: the header, then one row per item. */
  function ExcelRows(items: seq<map<string, Json>>): (rows: seq<seq<Json>>)
    ensures |rows| == |items| + 1
    ensures forall i :: 0 <= i < |rows| ==> |rows[i]| == 5
    ensures forall c :: 0 <= c < 5 ==> rows[0][c] == JStr(ExcelHeaders[c])
    ensures forall i, c :: 0 <= i < |items| && 0 <= c < 5 ==>
              rows[i + 1][c] == (if ExcelKeys[c] in items[i] then items[i][ExcelKeys[c]] else JStr(""))
  {
    [seq(5, c requires 0 <= c < 5 => JStr(ExcelHeaders[c]))]
    + seq(|items|, i requires 0 <= i < |items| => ExcelRow(items[i]))
  }

  /** For scraped records every column is filled from the record itself, in column order. */
  lemma ExcelRowsOfRecords(rs: seq<Record>)
    ensures var rows := ExcelRows(seq(|rs|, i requires 0 <= i < |rs| => RecordJson(rs[i]).fields));
            forall i :: 0 <= i < |rs| ==>
              rows[i + 1] == [JStr(rs[i].title), JStr(rs[i].company), JStr(rs[i].date), JStr(rs[i].status),
                              if rs[i].link.Some? then JStr(rs[i].link.value) else JNull]
  {
    var items := seq(|rs|, i requires 0 <= i < |rs| => RecordJson(rs[i]).fields);
    var rows := ExcelRows(items);
    forall i | 0 <= i < |rs|
      ensures rows[i + 1] == [JStr(rs[i].title), JStr(rs[i].company), JStr(rs[i].date), JStr(rs[i].status),
                              if rs[i].link.Some? then JStr(rs[i].link.value) else JNull]
    {
      assert |rows[i + 1]| == 5;
      assert items[i] == RecordJson(rs[i]).fields;
    }
  }

  /** Whether a start-up, login or save step completed, or what it raised. */
  datatype Step = Done | Raised(message: string)

  /** Everything the worker's run depends on besides its arguments. */
  datatype Session = Session(
    setup: Step,                     // setup_driver
    login: Step,                     // login_to_jobsdb, its message already formed
    page: Page,                      // the applications page
    excel: Result<string, string>,   // save_to_excel: absolute path, or what it raised
    progress: seq<Json>)             // status messages printed by login and scraping

  /** What a successful run returns. */
  datatype Summary = Summary(data: seq<Record>, excelPath: string)

  /** The email argument: `sys.argv[1]` when present. */
  function EmailArg(argv: seq<string>): Option<string> {
    if |argv| > 1 then Some(argv[1]) else None
  }

  /** `sys.argv[1]` is present and non-empty, so the run goes past the email check. */
  predicate EmailOk(argv: seq<string>) {
    EmailArg(argv).Some? && EmailArg(argv).value != ""
  }

  /** `main_scrape_logic`: the summary, or the message of the exception it raises. */
  function MainScrapeLogic(argv: seq<string>, s: Session): (r: Result<Summary, string>)
    ensures EmailArg(argv).None? || EmailArg(argv) == Some("") ==> r == Failure(ProcessErrorPrefix + NoEmailMessage)
    ensures r.Success? ==> s.page.Page? && r.value.data != [] && r.value.data == Records(FirstCards(s.page.cardsFor, CardSelectors))
    ensures r.Success? ==> s.setup == Done && s.login == Done && s.excel == Success(r.value.excelPath)
    ensures r.Failure? ==> |ProcessErrorPrefix| <= |r.error| && r.error[..|ProcessErrorPrefix|] == ProcessErrorPrefix
    ensures EmailOk(argv) && s.setup.Raised? ==> r == Failure(ProcessErrorPrefix + s.setup.message)
    ensures EmailOk(argv) && s.setup == Done && s.login.Raised? ==> r == Failure(ProcessErrorPrefix + s.login.message)
    ensures EmailOk(argv) && s.setup == Done && s.login == Done && ScrapeHistory(s.page).Failure?
            ==> r == Failure(ProcessErrorPrefix + ScrapeHistory(s.page).error)
    ensures EmailOk(argv) && s.setup == Done && s.login == Done && ScrapeHistory(s.page).Success? && s.excel.Failure?
            ==> r == Failure(ProcessErrorPrefix + s.excel.error)
    ensures EmailOk(argv) && s.setup == Done && s.login == Done && ScrapeHistory(s.page).Success? && s.excel.Success?
            ==> r == Success(Summary(ScrapeHistory(s.page).value, s.excel.value))
  {
    var email := EmailArg(argv);
    if email.None? || email.value == "" then Failure(ProcessErrorPrefix + NoEmailMessage)
    else if s.setup.Raised? then Failure(ProcessErrorPrefix + s.setup.message)
    else if s.login.Raised? then Failure(ProcessErrorPrefix + s.login.message)
    else match ScrapeHistory(s.page)
      case Failure(m) => Failure(ProcessErrorPrefix + m)
      case Success(records) =>
        match s.excel
        case Failure(m) => Failure(ProcessErrorPrefix + m)
        case Success(path) => Success(Summary(records, path))
  }

  /** The summary object printed on success. */
  function SummaryJson(sm: Summary): (j: Json)
    ensures j.JObj? && j.fields.Keys == {"success", "count", "data", "excel_path", "message"}
    ensures Field(j, "success") == Some(JBool(true))
    ensures Field(j, "data") == Some(JArr(RecordsJson(sm.data)))
    ensures Field(j, "count").Some? && Field(j, "count").value == JNum(|Field(j, "data").value.items|)
  {
    var n := Text.NatToString(|sm.data|);
    JObj(map["success" := JBool(true), "count" := JNum(|sm.data|), "data" := JArr(RecordsJson(sm.data)),
             "excel_path" := JStr(sm.excelPath), "message" := JStr("成功爬取 " + n + " 条记录")])
  }

  /** The first status line, printed once the email is known. */
  function InitMessage(email: string): Json {
    JObj(map["status" := JStr("init"), "message" := JStr("开始爬取流程，使用邮箱: " + email)])
  }

  /** The object the entry point prints on stderr before exiting with status 1. */
  function FailedMessage(error: string): (j: Json)
    ensures Field(j, "error") == Some(JStr(error)) && Field(j, "status") == Some(JStr("failed"))
  {
    JObj(map["error" := JStr(error), "status" := JStr("failed")])
  }

  /** What `setup_driver` prints on stderr before re-raising. */
  function BrowserInitMessage(error: string): Json {
    JObj(map["status" := JStr("error"), "message" := JStr(BrowserInitPrefix + error)])
  }

  /**
   * The `__main__` block: status lines, then either the summary as the last stdout
   * line and exit status 0, or a failure object on stderr and exit status 1.
   */
  function Run(argv: seq<string>, s: Session, dumps: Json -> string): (e: WorkerProtocol.Exit)
    ensures e.code == 0 <==> MainScrapeLogic(argv, s).Success?
    ensures e.code == 0 || e.code == 1
    ensures e.code == 0 ==> exists pre :: e.stdout == pre + WorkerProtocol.Line(dumps(SummaryJson(MainScrapeLogic(argv, s).value)))
                                       && (pre == "" || pre[|pre| - 1] == '\n')
    ensures e.code == 0 ==> e.stderr == ""
    ensures e.code == 1 ==> exists pre :: e.stderr == pre + WorkerProtocol.Line(dumps(FailedMessage(MainScrapeLogic(argv, s).error)))
  {
    var pre := Preamble(argv, s, dumps);
    var initError := if EmailOk(argv) && s.setup.Raised? then WorkerProtocol.Line(dumps(BrowserInitMessage(s.setup.message))) else "";
    match MainScrapeLogic(argv, s)
    case Success(sm) =>
      WorkerProtocol.Exit(pre + WorkerProtocol.Line(dumps(SummaryJson(sm))), "", 0)
    case Failure(msg) =>
      WorkerProtocol.Exit(pre, initError + WorkerProtocol.Line(dumps(FailedMessage(msg))), 1)
  }

  /** The stdout lines before the result: the greeting once the email is known, then the progress lines. */
  function Preamble(argv: seq<string>, s: Session, dumps: Json -> string): (pre: string)
    ensures pre == "" || pre[|pre| - 1] == '\n'
  {
    var greeting := if EmailOk(argv) then WorkerProtocol.Line(dumps(InitMessage(argv[1]))) else "";
    var progress := if EmailOk(argv) && s.setup.Done? then WorkerProtocol.Lines(WorkerProtocol.Serialise(s.progress, dumps)) else "";
    greeting + progress
  }

  /** A missing or empty email argument fails before any browser work or status line. */
  lemma MissingEmailFailsFirst(argv: seq<string>, s: Session, dumps: Json -> string)
    requires |argv| <= 1 || argv[1] == ""
    ensures Run(argv, s, dumps)
         == WorkerProtocol.Exit("", WorkerProtocol.Line(dumps(FailedMessage(ProcessErrorPrefix + NoEmailMessage))), 1)
  {
  }
}
