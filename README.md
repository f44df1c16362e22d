# Wildberries position check, modelled in Dafny

This project models the core of a small service. The service finds the rank
of one product (its article number) in the Wildberries search results for one
query, and writes that rank with a time stamp to a Google Sheet. It covers:

- the parser (`parser/wildberries.py`): the card matcher, which gives the
  1-based position of the first product card whose `data-nm-id` is the
  article; the pagination loop, which visits result pages 1, 2, 3, ... and
  carries the number of items passed over; and the browser session set up by
  `initialize` and ended by `close`;
- the Sheets client (`utils/google_sheets.py`): reading the article and the
  query from A1 and B1, and writing a result row below a header row that is
  added when the sheet looks headerless;
- the scheduled task (`tasks/celery_tasks.py`): the `try`/`finally` search
  wrapper, and `check_position`, which turns everything into a
  success / not_found / error status;
- the one-off check `CheckService.run_single_check` (`services/check.py`).

The browser and the spreadsheet are replaced by what they would show. A
search sees a finite sequence of page observations: "nothing found", a list
of card ids, a timeout, or another error. If the loop passes over every
observed page it stops with `OutOfPages`, meaning it would go on paginating.
A fault input says which browser start-up step or which spreadsheet call
raises. The clock reading is a parameter. The remote sheet is its rows of
columns A..C, as a read of range A:C returns them. A position is written as
its decimal text.

Files:

- `wrappers.dfy`: `Option`.
- `parser.dfy`: the parser and the functions that specify it.
- `search_properties.dfy`: what the pagination loop guarantees.
- `sheets.dfy`: the Sheets client, an in-memory spreadsheet, and what the
  writes do to the sheet.
- `tasks.dfy`: the search wrapper and `check_position`.
- `task_properties.dfy`: which status the task reports, and when.
- `service.dfy`: `run_single_check`, and the proof that it has the task's
  effects.

Behaviour of the code that the model keeps:

- `search_article_position` is annotated to return a pair
  `Tuple[Optional[int], str]`, and its docstring promises one
  (`parser/wildberries.py:44`, `52-53`). The `break` at line 94 falls out of
  the function instead, so it returns a bare `None`. Unpacking that `None`
  at line 47 of `tasks/celery_tasks.py` raises a `TypeError`. The task then
  reports an error and writes nothing. The service swallows the same error.
- The cap is checked only after an unmatched page (lines 88-94). So with a
  cap `N`, at most `max(N, 1)` pages are visited, and exactly that many when
  none of them ends the search earlier: one page even when `N <= 0`.
- The timeout handler at lines 96-98 logs an error but returns
  `(None, timestamp)`. That is the same value as the "nothing found" page at
  line 76 and the general handler at lines 99-101. A timeout therefore leads
  to not_found and the marker row.
- `close()` does not clear the browser field (lines 38-42). If `initialize`
  fails after the launch, it closes the browser. The `finally` in
  `tasks/celery_tasks.py:97-98` then closes it a second time.
- A reply of one empty row to the read of A:C would make `values[0][0]`
  raise an `IndexError`, and `add_position_data` would then return `False`
  and write nothing. The API does not return such a reply: it drops trailing
  empty rows, so a sheet with nothing past an empty row 1 reads as no rows.
- The Sheets API leaves trailing empty cells out of a row it returns. So an
  empty B1 reads as missing even when C1 holds text. An empty A1 before a
  filled B1 reads as the empty string. Either way the check stops with the
  "missing data" error.

## Model

| member | source | states |
|---|---|---|
| Parser.FirstIndexOf | parser/wildberries.py:150-159 | The result is the 1-based index of the first card whose id is the article. It is absent exactly when no card has that id; a card with no id never matches. |
| Parser.WildberriesParser.FindArticlePosition | parser/wildberries.py:134-159 | The loop over the cards returns the first matching 1-based position, or None, together with the number of cards on the page. |
| Parser.WildberriesParser.constructor | parser/wildberries.py:15-19 | A new parser holds no browser, context or tab. |
| Parser.WildberriesParser.Initialize | parser/wildberries.py:21-36 | Sets browser, context and tab up to the failing step. It raises exactly when one of its steps fails, and the bare `raise` passes on that step's own error, after closing a browser that is set. |
| Parser.WildberriesParser.Close | parser/wildberries.py:38-42 | Closes the browser when one is set, and changes no field. |
| Parser.WildberriesParser.SearchArticlePosition | parser/wildberries.py:44-101 | Initializes first when no tab is open, and an initialization error escapes. Then it runs the pagination loop; the result and the session events match `SearchSpec`. |
| Parser.WildberriesParser.ScanPages | parser/wildberries.py:60-101 | The `while True` loop yields exactly the result and the page visits of the page-by-page specification `Scan`. |
| SearchProperties.ScanReaches | parser/wildberries.py:63-94 | Reaching page k+1 means the loop passed over pages 1..k. It carries the items of those pages as the offset. |
| SearchProperties.FoundOnPage | parser/wildberries.py:80-85 | A match at index p on a reached page gives (items on earlier pages + p, timestamp). Pages 1..k+1 are visited and nothing more. |
| SearchProperties.NoResultsEndsSearch | parser/wildberries.py:73-76 | A "nothing found" page ends the search with (None, timestamp). Its cards are not read. |
| SearchProperties.ErrorsLookLikeNoResults | parser/wildberries.py:96-101 | A timeout or other error on a page gives the same run and events as a "nothing found" page. |
| SearchProperties.CapBreaks | parser/wildberries.py:86-94 | An unmatched page whose successor number exceeds the cap, with safe search on, ends the loop with a bare None. |
| SearchProperties.CapReached | parser/wildberries.py:86-94 | With safe search and cap N, if the first max(N,1) pages show no match, the result is a bare None and exactly pages 1..max(N,1) are visited. |
| SearchProperties.ScanFromEnds | parser/wildberries.py:63-101 | Every finished run ends at one reached page where a match, a stop page or the cap ends it. Running out of pages means every page was unmatched and under the cap. |
| SearchProperties.FoundOnlyOnMatchingPage | parser/wildberries.py:81-85 | A returned position comes from a reached page with a match. It equals the items on earlier pages plus the index on that page, and it carries the timestamp of the call. |
| SearchProperties.ReturnedPairCarriesTimestamp | parser/wildberries.py:57-101 | Every returned pair carries the single timestamp taken before the loop. |
| SearchProperties.NoneValueOnlyFromCap | parser/wildberries.py:92-94 | A bare None needs safe search on, and the first max(N,1) pages all unmatched. Those pages are the ones visited. |
| SearchProperties.OutOfPagesOnlyWhenAllUnmatched | parser/wildberries.py:63-94 | The loop passes over every observed page only when all are unmatched. With safe search on, there are then fewer of them than the cap. |
| SearchProperties.ScanFromVisitOrder | parser/wildberries.py:60-94 | From page k+1 on, the pages opened are consecutive. They stay within the observed pages and the cap. |
| SearchProperties.VisitOrderAndCap | parser/wildberries.py:60-94 | The pages opened are 1, 2, ..., n in order. With safe search on, n <= max(N,1). |
| SearchProperties.ScanFromExtracts | parser/wildberries.py:66-80 | Every card read, from page k+1 on, right follows opening that page, and that page showed cards. |
| SearchProperties.ExtractOnlyAfterGotoOnCards | parser/wildberries.py:66-80 | Cards are read only from a page that showed cards, right after opening it. |
| SearchProperties.FortySevenAcrossTwoPages | parser/wildberries.py:80-89 | 40 unmatched cards on page 1 and a match at card 7 on page 2 give position 47. |
| Sheets.SetRow | utils/google_sheets.py:119-126 | Writing row n replaces it, or extends the sheet to n rows. Every other row stays as it was. |
| Sheets.ConfigOfSheet | utils/google_sheets.py:55-77 | Reading A1:B1 gives cells A1 and B1 as the API shows them: a cell is missing when neither it nor a later cell of the range holds text. Whether each holds text, and its text, is the sheet's. |
| Sheets.GoogleSheetsClient.GetConfigData | utils/google_sheets.py:55-80 | Returns A1 and B1 as the read shows them, or (None, None) when the read raises. |
| Sheets.HeaderWhenMissing | utils/google_sheets.py:104-114 | The header is written exactly when the sheet is empty, or its one row is not headed "Время", and neither the read nor the header update raises. |
| Sheets.RowPlacement | utils/google_sheets.py:94-132 | Updates go past the rows read, in increasing order. The call succeeds exactly when no call it makes raises and the sheet is not a single empty row. The data row goes last, at row 3 or after the last row. |
| Sheets.AppendingUpdates | utils/google_sheets.py:104-126 | Updates past the end, in increasing order, only extend the sheet. Each written row holds its cells. |
| Sheets.AddRowAppendsOnly | utils/google_sheets.py:94-129 | No row that was read changes. After success, the data row holds (time, article, position). A written header is at row 2. |
| Sheets.ConfigSurvivesAddRow | utils/google_sheets.py:82-126 | Writing a result row leaves the article and the query in A1:B1 as they were. |
| Sheets.NoHeaderOnceTwoRows | utils/google_sheets.py:104-105 | Once the sheet has two rows, no later call writes the header. |
| Sheets.HeaderAtMostOnce | utils/google_sheets.py:104-114 | Over any sequence of calls the header is written at most once, and never on a sheet of two or more rows. |
| Sheets.CallsAppendOnly | utils/google_sheets.py:82-132 | Over any sequence of calls, every row present at the start stays as it was. |
| Sheets.Spreadsheet.UpdateRange | utils/google_sheets.py:119-126 | An update of range An:Cn sets row n, and is recorded in the history. |
| Sheets.GoogleSheetsClient.constructor | utils/google_sheets.py:15-23 | The client keeps its spreadsheet id and its service. |
| Sheets.GoogleSheetsClient.AddPositionData | utils/google_sheets.py:82-132 | Performs exactly the updates of `AddRow` on the sheet, in order, and returns whether all its calls ran. |
| Tasks.SearchArticlePosition | tasks/celery_tasks.py:82-98 | A fresh parser is initialized, searches, and is closed in `finally` when its start-up fails and when its search has ended. |
| Tasks.ScanOnlyVisits | parser/wildberries.py:63-101 | The pagination loop only opens and reads pages; it never closes the browser. |
| Tasks.CloseOnceAfterSearch | tasks/celery_tasks.py:93-98 | Once the search has ended, `close()` was called exactly once, as the parser's last call. The browser was closed once after a normal start, never when it did not launch, and twice when start-up failed after the launch. |
| Tasks.CheckPosition | tasks/celery_tasks.py:22-79 | The task body gives the status, the effects, the parser session's events and the sheet that `TaskSpec` gives for the same inputs. The sheet's update history grows by exactly the updates of the one write, or not at all when nothing is written. |
| TaskProperties.EarlyExits | tasks/celery_tasks.py:32-42 | A client that cannot be built gives its error and does nothing. A missing or empty A1 or B1 gives the "missing data" error after the read alone. |
| TaskProperties.EffectsInOrder | tasks/celery_tasks.py:32-73 | The effects are read, then search, then write, cut short somewhere. The search uses A1 and B1, and at most one row is written, after the search. Only that write changes the sheet, old rows and A1:B1 survive. |
| TaskProperties.SuccessMeansFoundAndWritten | tasks/celery_tasks.py:47-59 | A success status means the article was found on a visited page at the reported position, with the search's timestamp. Its row was written after the sheet's last row. |
| TaskProperties.FoundAndWrittenMeansSuccess | tasks/celery_tasks.py:50-59 | A found position whose row is written gives the success status with it. |
| TaskProperties.NotFoundWritesMarker | tasks/celery_tasks.py:65-73 | not_found means the search returned (None, timestamp) and the "Не найден" row was written. A failing write does not change the status. The converse is NoPositionWritesMarker. |
| TaskProperties.NoPositionWritesMarker | tasks/celery_tasks.py:47-73 | A search that returns (None, timestamp) gives not_found after exactly one write, the "Не найден" row, whatever that write runs into. When the write succeeds, that row is the sheet's new last row. |
| TaskProperties.PageWithoutCardsGivesNotFound | tasks/celery_tasks.py:47-73 | A reached page that shows "nothing found", times out or raises ends the check in not_found, with the marker row written. |
| TaskProperties.FoundButWriteFailsIsError | tasks/celery_tasks.py:50-64 | A found position whose write fails gives the write error. The position row was still handed to the sheet, and the sheet is what that call left. |
| TaskProperties.SessionClosedOnceSearched | tasks/celery_tasks.py:93-98 | A check without a search has no parser session. Once the task reports a status after a search, `close()` has run exactly once, as the session's last step, and the browser was closed as many times as its start-up outcome implies. While the search would go on, `close()` has not run. |
| TaskProperties.CapEndsInErrorWithoutWrite | tasks/celery_tasks.py:45-79 | Passing the safe-search cap makes the unpacking raise. The task reports that error, and nothing is written. |
| TaskProperties.StartupFailureIsError | tasks/celery_tasks.py:45-79 | A browser that fails to start gives an error with its message, and nothing is written. |
| Service.RunSingleCheck | services/check.py:11-43 | The service body has the effects and the parser session, and leaves the sheet, as `SingleCheckSpec` gives. The update history grows by exactly the updates of the one write, or not at all. It swallows every error. |
| Service.SameEffectsAsTask | services/check.py:19-43 | The single check has the scheduled task's effects and parser session, and does to the sheet exactly what the task does. It returns exactly when the task would report a status. |
| Service.SingleCheckWritesOutcome | services/check.py:31-40 | A search that returns a pair makes the single check write one row: the position when the article was found, the "Не найден" marker otherwise. It returns either way. |
| Service.SingleCheckClosesSession | services/check.py:31 | Once the single check returns after a search, `close()` has run exactly once, as the last step of the session. While the search would go on, it has not run. |

## Left out

- Playwright, the browser and rendering: navigating, waiting for network
  idle, the twenty scroll steps with their one-second sleeps, the
  no-results selectors, and BeautifulSoup's card selection are all replaced
  by page observations.
- `quote` of the query, the search URL, and `datetime.now().strftime`: the
  query goes into the page visit unencoded, and the time stamp is a parameter.
- Google credentials, `_get_service` and the API transport. Building the
  client is an input that succeeds or raises with a message. `_get_service`
  itself is not modelled.
- The spreadsheet's own cell handling under `USER_ENTERED` is left out.
  A written position is the decimal text of the number.
- Logging, `asyncio.run`, the Celery app and its settings, the beat
  schedule, the worker and start-up scripts, `main.py` and `run_check`: none
  of these changes what a check computes.
- An exception raised by `browser.close()` itself is left out.
- Parser.WildberriesParser.ScanPages: runs over a finite sequence of
  observed pages. In the source, with safe search off and no page ending
  the search, the loop never ends. The model instead ends with
  `OutOfPages`, which the task and the service report as still searching.
- The read of A:C in `add_position_data` is the sheet's stored rows: the
  API's dropping of trailing empty rows and cells is not applied to it. So
  the model keeps the `IndexError` path for a reply of one empty row, which
  a real sheet does not produce.
