# auto-crawler-4job in Dafny

A model of the job-application crawler's scrape pipeline and of the front-end pieces around it. It proves properties of that model. Each part has its own file:

- **Scrape endpoint** (`scrape_route.dfy`, module `ScrapeRoute`).
  - `POST /api/scrape` validates the email and picks a worker script from `platform`. It spawns a Python interpreter with the script path and the email as arguments, and accumulates the worker's stdout and stderr.
  - At exit, it answers with the JSON value on the last line of the trimmed stdout (200), or with `{ error }` (400 or 500).
  - The worker run is an `Outcome` parameter. It is a launch failure, or an exit code with the sequence of stdout/stderr chunks in arrival order.
- **Worker protocol** (`worker_protocol.dfy`). A worker's observable result: stdout, stderr and exit code. `print` appends one line.
- **JobsDB worker** (`jobsdb_scraper.py`, modelled in `jobsdb_scraper.dfy`).
  - Card discovery through the selector lists, the bounded scroll loop, and field extraction with defaults and the "first non-empty text wins" rule.
  - Card skipping, the link rule, the Excel row mapping, and the summary object.
  - The entry point's status lines on stdout, the `{error, status: "failed"}` line on stderr, and exit code 0 or 1.
  - The browser is abstract. A card is the function its `find_element` computes. Start-up, login, the page and the workbook save are inputs that succeed or raise.
- **Default worker** (`my_scraper.py`, modelled in `mock_scraper.dfy`). Its three fixed records, or `Python Error: …` on stderr with exit 1.
- **Dictionaries** (`i18n.dfy`). Both dictionaries, transcribed in full, and `getFromDictionary`: the string at a dotted path, or the path itself for any miss.
- **Locale provider** (`locale.dfy`). The language (`zh` initially) and its restoration from storage on mount, `setLanguage`, `t`, and `useLocale` outside a provider.
- **Dashboard** (`dashboard.dfy`).
  - The state changes of one scrape click: `fetch`, the `ok` check, `response.json()`, `data.length === 0`, `catch` and `finally`.
  - Which of the error line, the table and the start hint is shown.
  - The status badge classes, and the CSV export text.
- **Middleware** (`middleware.dfy`).
  - The matcher: which paths the gate runs on.
  - The session-cookie test.
  - The redirect to `/signin`, with `callbackUrl` set as `URLSearchParams.set` sets it.
- **End to end** (`end_to_end.dfy`). The parts composed: each worker's exit is fed to the endpoint, and each response to the dashboard.

Supporting modules:

- `wrappers.dfy`: `Option` and `Result`.
- `text.dfy`:
  - JavaScript `trim` (its white-space set) and Python `str.strip` (its `isspace` set).
  - JavaScript `split`/`join` with a one-character separator, and decimal rendering.
- `json.dfy`:
  - JSON values (numbers are integers; no part of the system uses fractions).
  - JavaScript truthiness, property reads and `String(v)`.

JSON parsing and `json.dumps` are function parameters (`parse`, `dumps`). The end-to-end lemmas assume only two things:

- the printed line is *framed*: one line, with no surrounding white space;
- parsing the printed line gives the printed value back.

Where the code's behaviour is easy to misread, the model follows the code:

- The comment at app/api/scrape/route.ts:63 says the endpoint takes the last *valid* JSON output. The code takes the **last** line of the trimmed stdout whether or not it parses. An unparsable last line fails the run even when an earlier line parses (`ScrapeRoute.LastLineOnly`).
- Error bodies carry only `error`. The sibling blob routes add a `details` field to theirs (app/api/blob/list/route.ts:13); this endpoint does not.
- The body the endpoint returns on 200 depends on the worker:
  - the default worker's body is a bare array of three records;
  - the JobsDB worker's body is a summary object whose `count` equals the length of `data`.
- The dashboard's click sends **no body**, so `request.json()` throws before the email check, outside the handler's `try`. The dashboard can only end in an error state (see Findings).
- The dashboard puts the JobsDB summary object into `results` without an error. It then shows neither the table, the error line nor the hint, because an object has no `length` (`EndToEnd.JobsdbSummaryNotTabulated`).
- The CSV export does not quote. A cell containing a comma comes back as two cells, and the following columns shift (`Dashboard.CommaShiftsColumns`).

To verify all modules together: `dafny verify *.dfy` from this directory.

## Model

| member | source | states |
|---|---|---|
| `ScrapeRoute.HandleRequest` | app/api/scrape/route.ts:5-8 | The body is parsed before any check. A body that does not parse, or that is `null`, escapes the handler as an exception. Otherwise the answer is the handler run on the body's `email` and `platform` properties. |
| `ScrapeRoute.ScriptName` | app/api/scrape/route.ts:18 | `jobsdb_scraper.py` exactly when `platform` is the string `"jobsdb"` (strict equality, so `"JobsDB"` gets the default); otherwise `my_scraper.py`. |
| `ScrapeRoute.Validate` | app/api/scrape/route.ts:10-27 | Rejected with 400 and `{error: "请提供邮箱地址"}` exactly when the email is falsy. Otherwise it launches `[resolved script path, email]`. The launcher is `PYTHON_PATH` when that is set and non-empty, else `<cwd>/venv/bin/python3`. |
| `ScrapeRoute.StatusLines` | app/api/scrape/route.ts:38-52 | Every logged message is a parsed line with a truthy `status`, and comes from some line of the chunk. Conversely, every line that parses to a value with a truthy `status` is logged. Unparsable lines are skipped; there are never more messages than lines. |
| `ScrapeRoute.StatusLinesSingle` | app/api/scrape/route.ts:40-45 | One line is logged, as its parsed value, exactly when it parses to a value with a truthy `status`; otherwise nothing is logged. |
| `ScrapeRoute.StatusLinesAppend` | app/api/scrape/route.ts:40-49 | The log of `a + b` is the log of `a` followed by the log of `b`. With the single-line case this fixes the log: every status line, in line order, and nothing else. |
| `ScrapeRoute.Drain` | app/api/scrape/route.ts:29-58 | The stdout buffer is the in-order concatenation of the stdout chunks, whatever the interleaving with stderr; likewise for stderr. Everything logged is a status message. |
| `ScrapeRoute.Settle` | app/api/scrape/route.ts:60-78 | Resolves exactly when the exit code is 0 and the last line of the trimmed stdout parses; the value is that parse. Every rejection message is non-empty. |
| `ScrapeRoute.Respond` | app/api/scrape/route.ts:82-97 | A resolved value is answered 200 with that value. A rejection is answered 500 with `{error: message}`. No other status occurs. |
| `ScrapeRoute.Post` | app/api/scrape/route.ts:10-97 | 400 exactly when the email is falsy. 200 exactly when the email is truthy, the worker exits 0 and its final line parses; the body is the parsed value. Every other answer is 500. Every non-200 body is `{error: m}` with a non-empty `m`. |
| `ScrapeRoute.MissingEmailRejected` | app/api/scrape/route.ts:10-15 | With a falsy email the answer is the 400 missing-email body, whatever the platform and whatever a worker would have done. |
| `ScrapeRoute.LaunchFailureReported` | app/api/scrape/route.ts:76-78 | A spawn failure answers 500 with `Failed to start script: <message>`. |
| `ScrapeRoute.NonzeroExitReported` | app/api/scrape/route.ts:71-73 | A nonzero (or signal, `null`) exit answers 500 with `Script exited with code <code>: <all of stderr>`. |
| `ScrapeRoute.InvalidOutputReported` | app/api/scrape/route.ts:68-70 | Exit 0 with an unparsable final line answers 500 with `Invalid JSON output: <all of stdout>`. |
| `ScrapeRoute.FinalLineOfFramed` | app/api/scrape/route.ts:64-65 | A framed line followed only by white space is itself the final line. |
| `ScrapeRoute.FinalLineIgnoresPrefix` | app/api/scrape/route.ts:64-65 | Whatever lines precede a framed last line, that line is the one parsed. |
| `ScrapeRoute.PrependedLinesIgnored` | app/api/scrape/route.ts:63-67 | Status lines printed before a framed result line do not change the response: it equals the response to the result line alone. |
| `ScrapeRoute.LastLineOnly` | app/api/scrape/route.ts:63-69 | An unparsable last line fails the run even when an earlier line parses. |
| `ScrapeRoute.BlankStdoutInvalid` | app/api/scrape/route.ts:64-69 | Exit 0 with empty or all-blank stdout leaves `""` to parse, and answers 500 `Invalid JSON output`. |
| `ScrapeRoute.ChunkingIrrelevant` | app/api/scrape/route.ts:33-58 | Two runs whose streams carry the same text get the same response, however the text was split into chunks. |
| `JobsdbScraper.ScanSelectors` | scripts/jobsdb_scraper.py:453-460 | The field loop gives the first selector whose stripped text is non-empty. If none is non-empty but some lookup succeeded, the result is `""` and the default is lost. The default survives only when every lookup raises. |
| `JobsdbScraper.CardLink` | scripts/jobsdb_scraper.py:522-528 | `""` when the card has no anchor; otherwise the anchor's `href`, which is `None` (JSON `null`) when the attribute is missing. |
| `JobsdbScraper.FieldText` | scripts/jobsdb_scraper.py:466-520 | A company, date or status field keeps its default only when every lookup raises. It is the first non-empty stripped text when there is one, and `""` when lookups succeeded but all texts were empty. |
| `JobsdbScraper.BuildRecord` | scripts/jobsdb_scraper.py:442-536 | A card yields a record exactly when some title selector gives non-empty stripped text. The title is the first such text. Company, date and status follow `FieldText` with the defaults `未知公司`, `未知` and `已投递`, and the link follows `CardLink`. |
| `JobsdbScraper.ExtractRecords` | scripts/jobsdb_scraper.py:440-547 | The loop's records are exactly the reference `Records(cards)`. There are no more records than cards, and every title is non-empty. |
| `JobsdbScraper.RecordsFollowCards` | scripts/jobsdb_scraper.py:440-547 | The records are a subsequence of the cards, in card order. Every card with a title contributes exactly its record. |
| `JobsdbScraper.ScrollToBottom` | scripts/jobsdb_scraper.py:398-411 | Between 1 and 10 scrolls. Every counted attempt changed the page height. Fewer than 10 attempts means the last scroll left the height unchanged. |
| `JobsdbScraper.FirstCardSelector` | scripts/jobsdb_scraper.py:425-434 | The position of the first card selector that finds cards; every earlier selector finds none. |
| `JobsdbScraper.FirstCards` | scripts/jobsdb_scraper.py:425-437 | The card list is empty exactly when no card selector finds any card. Otherwise it is the list of the first selector that finds cards; every earlier selector found none. |
| `JobsdbScraper.ScrapeHistory` | scripts/jobsdb_scraper.py:355-567 | A timeout fails with the timeout message. No container fails with the no-container message, no cards with the no-cards message, and no parsed record with the no-records message, each after the `爬取失败: ` prefix. When a container and cards exist, it succeeds exactly when some card yields a record. On success: the records of the first non-empty card list, never empty. |
| `JobsdbScraper.RecordJson` | scripts/jobsdb_scraper.py:530-536 | Exactly the five keys `title`, `company`, `date`, `status`, `link`; a missing `href` becomes `null`. |
| `JobsdbScraper.ExcelRows` | scripts/jobsdb_scraper.py:584-605 | The header row, then one five-cell row per item. Each cell is the item's value for the column's key, or `""` when the key is missing. |
| `JobsdbScraper.ExcelRowsOfRecords` | scripts/jobsdb_scraper.py:598-605 | For scraped records, every column is filled from the record itself, in header order. |
| `JobsdbScraper.MainScrapeLogic` | scripts/jobsdb_scraper.py:619-657 | A missing or empty email fails with the no-email message. Otherwise the first step that raises (start-up, login, scraping, save) fails the run with its message after the `爬取过程出错: ` prefix. When all succeed, the result is the scraped records with the saved path. Success needs a working start-up, login and save, and returns the non-empty scraped records. |
| `JobsdbScraper.SummaryJson` | scripts/jobsdb_scraper.py:648-654 | Keys `success`, `count`, `data`, `excel_path` and `message`; `success` is true, and `count` equals the length of `data`. |
| `JobsdbScraper.FailedMessage` | scripts/jobsdb_scraper.py:674-677 | The stderr object carries the error text under `error` and `"failed"` under `status`. |
| `JobsdbScraper.Run` | scripts/jobsdb_scraper.py:666-679 | Exit 0 exactly when the logic succeeds, else exit 1. On 0, the summary is the last stdout line and stderr is empty. On 1, stderr ends with the `failed` line. |
| `JobsdbScraper.MissingEmailFailsFirst` | scripts/jobsdb_scraper.py:625-628 | Without an email nothing is printed on stdout, and the single stderr line is the no-email failure. |
| `MockScraper.Run` | scripts/my_scraper.py:25-42 | On success, one stdout line holding the three records, empty stderr and exit 0. On failure, nothing on stdout, `Python Error: <e>` on stderr and exit 1. |
| `MockScraper.MockDataShape` | scripts/my_scraper.py:13-17 | Three records, each with exactly the keys `title`, `company`, `date` and `status`. |
| `MockScraper.ArgumentsIgnored` | scripts/my_scraper.py:5-28 | The email argument has no effect on the output. |
| `I18n.GetFromDictionary` | app/lib/i18n.ts:146-155 | The result is the string the dotted path names when there is one. Otherwise it is the path itself. |
| `I18n.DescendFindsLeaf` | app/lib/i18n.ts:148-154 | The lookup loop ends at a string exactly when the path names that string. |
| `I18n.MissingSegmentGivesPath` | app/lib/i18n.ts:150-152 | A segment absent from the dictionary reached so far gives back the path. |
| `I18n.LeafBeforeEndGivesPath` | app/lib/i18n.ts:150-151 | Reaching a string before the path is used up gives back the path. |
| `I18n.NestedAtEndGivesPath` | app/lib/i18n.ts:154 | A path that ends at a nested dictionary gives back the path. |
| `I18n.ZhSignout` | app/lib/i18n.ts:71 | `signout` in Chinese is `退出登录`. |
| `I18n.ComingWaitingEn` | app/lib/i18n.ts:109-114 | `coming.waiting` in English is `This feature is under development...`. |
| `I18n.ComingWaitingZh` | app/lib/i18n.ts:14-73 | The Chinese dictionary has no `coming` section, so `coming.waiting` comes back unchanged. |
| `Locale.Code` | app/lib/locale-context.tsx:18-19 | Each language's stored code reads back as that language. |
| `Locale.Restore` | app/lib/locale-context.tsx:17-22 | A stored `"zh"` or `"en"` becomes the language. Anything else, or no storage, leaves the state unchanged. |
| `Locale.Mount` | app/lib/locale-context.tsx:15-22 | The language is `zh` unless storage says `"en"`. |
| `Locale.SetLanguage` | app/lib/locale-context.tsx:24-29 | The language becomes the chosen one. With a window, storage maps `language` to its code; without one, there is no storage. |
| `Locale.SetLanguagePersists` | app/lib/locale-context.tsx:17-29 | A provider mounted on the storage `setLanguage` left restores the chosen language. |
| `Locale.T` | app/lib/locale-context.tsx:31-34 | `t` gives the current language's string at the path, or the path. |
| `Locale.TranslationFollowsLanguage` | app/lib/locale-context.tsx:31-34 | The same path translates per language: `coming.waiting` in English, back to the path in Chinese. |
| `Locale.UseLocale` | app/lib/locale-context.tsx:41-44 | Outside a provider: the error `useLocale must be used within LocaleProvider`. |
| `Dashboard.StatusClass` | components/dashboard/JobScraperPage.tsx:18-27 | Blue, green and red exactly for `已查看`, `邀请面试` and `不合适`. Grey exactly for every other status, `已投递` included. |
| `Dashboard.StartScrape` | components/dashboard/JobScraperPage.tsx:47-50 | A click turns loading on and clears the results and the error. |
| `Dashboard.Handle` | components/dashboard/JobScraperPage.tsx:52-78 | A reply is stored as the results exactly when it is `ok`, non-null and its `length` is not `0`. Whether stored results are shown is up to `ShowsTable`. `length === 0` means no records. A failing reply throws its truthy `error` as text, or the server-error message. A `fetch` or `json()` rejection throws its own message, and a `null` body throws the `TypeError` of reading `length` (ok) or `error` (not ok) on `null`. |
| `Dashboard.FinishScrape` | components/dashboard/JobScraperPage.tsx:68-82 | Loading ends. The error is absent exactly when the reply was stored as results. No records sets the error to `未找到任何申请记录。`. A thrown message becomes the error, and an empty one becomes `发生未知错误，请检查控制台或重试。`, so an error is never empty. An error leaves the cleared results in place. |
| `Dashboard.ErrorBodyShown` | components/dashboard/JobScraperPage.tsx:62-65 | A failing reply carrying `{error: m}` shows exactly `m`, and no table. |
| `Dashboard.ErrorFieldMissingShowsServerError` | components/dashboard/JobScraperPage.tsx:62-65 | A failing reply with no truthy `error` shows `爬取失败，服务器返回错误。`. |
| `Dashboard.ArrayReplyTabulated` | components/dashboard/JobScraperPage.tsx:68-74 | An `ok` reply with a non-empty array stores exactly those items, with no error, and shows the table. |
| `Dashboard.AtMostOneView` | components/dashboard/JobScraperPage.tsx:142-153 | After a click, at most one of the error line, the table and the hint is shown. Any error is shown, and hides the table. |
| `Dashboard.ExportCsv` | components/dashboard/JobScraperPage.tsx:88-99 | Nothing with no results, or when a row is `null`. Otherwise the data-URI prefix with BOM, the header line, then one CR LF line per result. |
| `Dashboard.CsvRoundTrip` | components/dashboard/JobScraperPage.tsx:94-99 | Rows whose cells hold no comma, CR or LF decode back from the export text exactly. |
| `Dashboard.CommaShiftsColumns` | components/dashboard/JobScraperPage.tsx:96-99 | A title containing a comma decodes as two cells, so every later column shifts right. |
| `Middleware.Gate` | middleware.ts:4-20 | Redirect exactly when there is no session cookie and the path is not `/signin`. The target keeps the origin and hash, moves to `/signin`, and sets `callbackUrl` in the query. |
| `Middleware.Handle` | middleware.ts:23-28 | The gate runs only on paths the matcher accepts, and redirects exactly as `Gate` says there. |
| `Middleware.SetThenGet` | middleware.ts:15 | After `set`, `get` reads the value set. |
| `Middleware.SetKeepsOthers` | middleware.ts:15 | `set` leaves the pairs of every other name in place and in order. |
| `Middleware.SetLeavesOne` | middleware.ts:15 | After `set`, exactly one pair has the name. |
| `Middleware.RedirectCarriesCallback` | middleware.ts:12-16 | A redirect's `callbackUrl` is the requested path, and every other query parameter survives. |
| `Middleware.NoRedirectLoop` | middleware.ts:12-19 | Following a redirect with the same cookies is never redirected again. |
| `Middleware.SessionPasses` | middleware.ts:9 | Either NextAuth session cookie lets every request through. |
| `Middleware.ExcludedPathsPass` | middleware.ts:26 | `/signin…`, `/api/auth…`, `/_next/static…`, `/_next/image…` and `/favicon.ico…` are never gated. |
| `EndToEnd.LastPrintedLineRead` | app/api/scrape/route.ts:63-66 | A worker's last printed framed line is the line the endpoint parses, whatever was printed before it. |
| `EndToEnd.SuccessfulWorkerAnswered` | app/api/scrape/route.ts:60-67 | A worker that exits 0 after printing `v` last is answered 200 with `v`. |
| `EndToEnd.FailedWorkerReported` | app/api/scrape/route.ts:71-73 | A worker that exits nonzero is answered 500 with its code and everything it wrote to stderr. |
| `EndToEnd.DefaultWorkerAnswered` | scripts/my_scraper.py:25-33 | Without a platform, the default script is launched and its three records come back as a 200 array. |
| `EndToEnd.DefaultWorkerFailureReported` | scripts/my_scraper.py:35-42 | A failing default worker is answered 500 with `Script exited with code 1: Python Error: <e>` and a newline. |
| `EndToEnd.JobsdbSuccessAnswered` | scripts/jobsdb_scraper.py:666-670 | A successful JobsDB run is answered 200 with the summary object, whose `count` equals the length of `data`. |
| `EndToEnd.JobsdbFailureReported` | scripts/jobsdb_scraper.py:672-679 | A failed JobsDB run is answered 500 with a message ending in the worker's `failed` line. |
| `EndToEnd.HandlerErrorsShown` | components/dashboard/JobScraperPage.tsx:62-65 | Every non-200 answer of the endpoint is shown verbatim as the dashboard's error line. |
| `EndToEnd.DashboardRequestFails` | components/dashboard/JobScraperPage.tsx:54-59 | The click's body-less request escapes the handler. The dashboard ends showing the error page's parse failure (or the unknown-error text), never a table. |
| `EndToEnd.EmptyBodyRejected` | app/api/scrape/route.ts:7-15 | A body without a truthy `email` is answered 400, and the dashboard would show the missing-email message. |
| `EndToEnd.IntendedRequestTabulated` | components/dashboard/JobScraperPage.tsx:54-59 | Posting the email as the body gets the default worker's records into the table. |
| `EndToEnd.MockRecordsTabulated` | components/dashboard/JobScraperPage.tsx:68-74 | The default worker's records reach the dashboard's table unchanged. |
| `EndToEnd.JobsdbSummaryNotTabulated` | components/dashboard/JobScraperPage.tsx:68-74 | The JobsDB summary object is stored without error, yet shows no table, no error and no hint. |
| `EndToEnd.MockStatusBadges` | scripts/my_scraper.py:13-17 | The default worker's three statuses get the grey, blue and green badges. |

## Findings

| source | as written | input that shows it | evidently intended | confidence | as-written member | corrected member |
|---|---|---|---|---|---|---|
| components/dashboard/JobScraperPage.tsx:54-59 | The scrape request is a `POST` with a JSON content type and no body. The endpoint's `await request.json()` (app/api/scrape/route.ts:7) throws on it before the email check, outside the `try`. | Any click of the scrape button. | The request carries the user's email (the endpoint requires it), and the records reach the table. | medium, not executed | `EndToEnd.DashboardRequestFails` | `EndToEnd.IntendedRequestTabulated` |

## Left out

- Browser automation is out of the JobsDB worker's model. It does not model Chrome start-up options, cookie files, the login flow, navigation to the applications page, or the `WebDriverWait` timings. Each is an input that completes or raises, or is part of the abstract `Page`.
- The progress lines these steps print are part of that input too: a list of messages whose text the model does not fix.
- Sleeps and timing are left out: `time.sleep`, the 10-second container wait, and the 5-second delay of the default worker.
- The JobsDB worker writes `jobsdb_page_debug.html` and the Excel file. The model does not write them. It computes the worksheet rows, and takes the saved path (or the save error) as an input. Styling and column widths are not modelled.
- The JobsDB worker's `driver.quit()` in `finally` is left out; it does not affect the output.
- `JobsdbScraper.BuildRecord`: it does not model a lookup that raises for reasons other than a missing element, such as a stale element. Such a lookup is treated like a missing one.
- The progress line printed after every tenth card is left out. It goes to stdout before the result line, and the endpoint ignores lines before the last (`ScrapeRoute.PrependedLinesIgnored`).
- JSON parsing and `json.dumps` are parameters.
  - The JobsDB worker prints status lines with `ensure_ascii` on, and the summary and the stderr `failed` object (`JobsdbScraper.FailedMessage`) with it off. The model uses one `dumps` for both.
  - Number formatting and string escaping are not modelled.
- Each stdout and stderr chunk is decoded on its own (`data.toString()`), but the model takes chunks as already-decoded text. A multi-byte UTF-8 character split across two chunks becomes U+FFFD in the program, and the model does not show this. The JobsDB worker's summary holds Chinese text (`ensure_ascii=False`), so this can change its 200 body. `ScrapeRoute.ChunkingIrrelevant` holds for text, not for bytes.
- `console.log` and `console.error` are left out. `ScrapeRoute.StatusLines` records what would be logged, but not the output itself.
- The framework's response for an exception that escapes the handler is left out. The model takes it to be a 500 whose body does not parse as JSON. What `response.json()` then rejects with is a parameter.
- `ScrapeRoute.Post`: a `spawn` call that throws synchronously is not modelled. An email string holding U+0000 makes Node reject the argument inside the promise executor, and the `catch` answers 500 with Node's own message, without the `Failed to start script: ` prefix. `Outcome` covers only the `error` and `close` events.
- `ScrapeRoute.Validate`: for a truthy non-string email, it does not model how the process launcher treats the non-string argument.
- `Dashboard.Handle`: the `TypeError` texts for property reads on `null` use V8's wording.
- `Dashboard.ShowsTable` (a helper) compares `results.length > 0` only for numeric lengths.
- Rendering is not modelled: the markup, the spinner and the website selector. The selector's value is never read by the code.
- `Dashboard.ExportCsv` produces the text before `encodeURI`. The download link and its click are left out.
- `Middleware.Handle`: it does not model Next.js's handling of the matcher beyond the one pattern in the source, such as locale prefixes or `_next/data`.
- The redirect is represented by its target URL only: the response object and its status code are left out.
- JavaScript string lengths count UTF-16 code units; the model counts characters. The model compares lengths only with 0, so this makes no difference.
