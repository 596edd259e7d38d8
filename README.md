# Library management: a verified model

This project models, in Dafny, the core of an Odoo library-management module
and the controller of its chart dashboard:

- **Books** (`custom.book`): the ISBN constraint, the computed loan count, the
  field defaults and the three state actions.
- **Loans** (`custom.book.loan`): the due date (loan date plus duration), the
  late fine of 1.50 per day, reference numbering on create, the confirm /
  return / mark-lost actions and the daily sweep that marks overdue loans.
- **Members** (`custom.library.member`): member numbering on create, the expiry
  date and loan limit by membership type, and the loan and overdue counts.
- **Dashboard controller** (`LibraryDashboardController`): its bounded attempt
  counters, the three data sources (server, data embedded in the page,
  built-in placeholder), the registry of chart instances with its
  destroy-before-create discipline, the resize sweep, the full cleanup, and the
  re-entry guard and backup restore of a refresh.

Records whose fields the ORM updates in place are classes (`Book.Book`,
`BookLoan.Loan`, `LibraryMember.Member`). Each recordset method loops over a
`seq` of records and modifies only the fields the source writes. The pure
rules behind each computed field are functions, and lemmas state their
properties. Dates are day numbers. Money is integer cents, so the fine is 150
cents per day. "Today" and the next `ir.sequence` value are inputs.

The dashboard controller is a class with the same fields as the JavaScript
object. Its collaborators become values and a small class:
- The page is a `Dom` value: whether the dashboard container exists, the
  element each data selector finds, and the canvases in the document with
  their sizes. It is the page after the chart template has been injected.
- The server's answer is a `Reply` value.
- `JSON.parse` is a function parameter that fails with `None`.
- Chart.js is reduced to its global table of live charts (`Dashboard.ChartJs`),
  plus the set of canvases on which `new Chart` throws.

Asynchronous code is sequenced in the order its timers and promise
continuations fire. A catch block whose retry test names a `const` declared
inside the `try` throws a `ReferenceError` instead of retrying. The model
therefore has no retry there: such a failure is `Crashed`, and the attempt
counter stays incremented. `Dashboard.InitGivesUpOnFourthCall` exhibits this.

Two behaviours of the source are modelled as written and stated as lemmas:

- `renderCharts` reads camelCase keys (`loanTrends`, `categories`, …). The
  chart data uses snake_case keys (`loan_trend`, `book_categories`, …). The
  placeholder data therefore draws only the revenue chart
  (`Dashboard.PlaceholderData`, `Dashboard.PlaceholderDrawsOnlyRevenue`), and
  a load that falls back to it changes the revenue entry of the registry and
  no other (`Dashboard.LibraryDashboardController.LoadChartData`). The server's graph data spells revenue
  `revenue_data`, so it draws no chart at all
  (`Dashboard.ServerDataDrawsNothing`).
- The ISBN check measures length only: 13 characters other than hyphens pass,
  letters included (`Book.LettersPassIsbnCheck`). A lone hyphen is refused,
  while the empty ISBN is skipped.

`fetchDataFromServer` rejects any result without a truthy `success`, so a
bare `{data: …}` reply falls through to the embedded data or the placeholder
(`Dashboard.TierOrder`).

## Model

| member | source | states |
|---|---|---|
| `IrSequence.AssignName` | models/bookloan.py:63-67 | A supplied reference other than 'New' is kept. Otherwise the reference is the sequence value, or 'New' when the sequence yields nothing (False or ""). |
| `IrSequence.AssignNameStable` | models/library_member.py:37-41 | A record created again with the real reference it already got keeps it, whatever the sequence says. |
| `IrSequence.PlaceholderOnlyWithoutSequence` | models/library_member.py:39-40 | Without a supplied reference, the placeholder results exactly when the sequence yields nothing or 'New'. |
| `Book.StripHyphens` | models/book.py:65 | The result of `replace('-', '')` contains no hyphen and is no longer than the input. |
| `Book.StripHyphensKeepsOthers` | models/book.py:65 | Stripping drops exactly the hyphens: every other character keeps its multiplicity. |
| `Book.IsbnAcceptedCountsNonHyphens` | models/book.py:62-66 | A non-empty ISBN passes exactly when it holds 13 characters that are not hyphens. |
| `Book.HyphenInsertionPreservesAcceptance` | models/book.py:65 | Inserting or deleting one hyphen in a non-empty ISBN never changes the verdict. |
| `Book.LoneHyphenRefused` | models/book.py:65 | The empty ISBN is skipped, but "-" (13 digits short once stripped) is refused. |
| `Book.IsbnCheckIsLengthOnly` | models/book.py:65-66 | Any 13 characters without a hyphen pass, whether or not they are digits. |
| `Book.LettersPassIsbnCheck` | models/book.py:65-66 | A concrete ISBN of 13 letters is accepted. |
| `Book.Book.constructor` | models/book.py:21-60 | The record `create` builds is active, available, in new condition, acquired today and has no loans. |
| `Book.Create` | models/book.py:62-66 | Creation succeeds exactly when the ISBN is acceptable, leaving a fresh book with the defaults. Otherwise it raises 'ISBN must be 13 digits' and leaves no book. |
| `Book.ShortIsbnCreateRefused` | models/book.py:62-66 | Creating a book with ISBN "123" is refused and leaves no book. |
| `Book.WriteIsbn` | models/book.py:62-66 | Writing an ISBN succeeds exactly when it is acceptable. A refused write leaves the old ISBN in place. |
| `Book.CheckIsbn` | models/book.py:62-66 | Passes exactly when every book of the set has an acceptable ISBN; otherwise raises 'ISBN must be 13 digits'. |
| `Book.ComputeLoanCount` | models/book.py:68-71 | Each book's loan count equals the number of its loans. |
| `Book.ActionMarksAsBorrowed` | models/book.py:73-75 | Every book of the set becomes borrowed, whatever its state was. |
| `Book.ActionMarkAsAvailable` | models/book.py:77-79 | Every book of the set becomes available, whatever its state was. |
| `Book.ActionMarkAsLost` | models/book.py:81-83 | Every book of the set becomes lost, whatever its state was. |
| `BookLoan.ReturnDate` | models/bookloan.py:35-41 | The due date is set exactly when the loan date is, and lies `loan_duration` days after it. |
| `BookLoan.Fine` | models/bookloan.py:43-61 | The fine is a whole number of 1.50 steps, and is zero unless the loan is returned or overdue with a due date. |
| `BookLoan.LateDays` | models/bookloan.py:47-48 | Lists days that lie strictly after the due date and no later than the stop day. |
| `BookLoan.LateDaysCount` | models/bookloan.py:48 | There are `stop - due` late days when positive, none otherwise (`(a - b).days`). |
| `BookLoan.FineCountsLateDays` | models/bookloan.py:43-61 | The fine `_compute_fine` computes on a given day is 1.50 times the number of calendar days after the due date, up to the actual return (returned) or that day (overdue). |
| `BookLoan.FinePositiveIffLate` | models/bookloan.py:46-59 | A fine is owed exactly when a returned book came back after its due date, or an overdue loan's due date is before today. |
| `BookLoan.ReturnTodayKeepsFine` | models/bookloan.py:73-76 | On the day an overdue loan is returned, the fine `_compute_fine` computes on that day is the same for the returned state as for the overdue one. The stored fine, frozen since the sweep, is not meant. |
| `BookLoan.SweptLoanOwesFine` | models/bookloan.py:82-91 | A loan the sweep selects owes at least one day's fine in the fine `_compute_fine` computes on the sweep day, the value stored when it turns overdue. |
| `BookLoan.Loan.Create` | models/bookloan.py:11-67 | A new loan gets its reference from the naming rule. It gets the loan date (default today), the duration (default 14), state draft, its due date from the loan date and a zero fine. |
| `BookLoan.ComputeReturnDate` | models/bookloan.py:35-41 | Every loan of the set gets the due date of its loan date and duration. |
| `BookLoan.ComputeFine` | models/bookloan.py:43-61 | Every loan of the set gets the fine of its state and dates, computed on the given day. |
| `BookLoan.ActionConfirm` | models/bookloan.py:69-71 | Every loan of the set becomes confirmed, with no guard on its prior state. |
| `BookLoan.ActionReturn` | models/bookloan.py:73-76 | Every loan of the set becomes returned, with today as its actual return date. |
| `BookLoan.ActionMarkLost` | models/bookloan.py:78-80 | Every loan of the set becomes lost, with no guard on its prior state. |
| `BookLoan.SearchOverdue` | models/bookloan.py:86-89 | The search returns only loans of the table inside the domain (confirmed, due before today), and every such loan. |
| `BookLoan.CronCheckOverdue` | models/bookloan.py:82-91 | Exactly the confirmed loans due before today become overdue; every other loan keeps its state. |
| `LibraryMember.ExpiryOffset` | models/library_member.py:47-56 | A membership lasts 180, 365 or 730 days. |
| `LibraryMember.ExpiryDate` | models/library_member.py:43-58 | The expiry date is set exactly when the membership date is, and lies 1 to 730 days after it. |
| `LibraryMember.LoanLimit` | models/library_member.py:68-80 | The loan limit lies between 3 and 10. |
| `LibraryMember.UnlistedTypeGetsStandardTerms` | models/library_member.py:55-56 | A type outside the four listed gets the standard expiry and loan limit. |
| `LibraryMember.PremiumIsMostGenerous` | models/library_member.py:47-80 | No type lasts longer or allows more loans than premium. |
| `LibraryMember.SearchCount` | models/library_member.py:63 | A count never exceeds the size of the loan table. |
| `LibraryMember.NarrowedDomainCountsFewer` | models/library_member.py:65-66 | Adding a state condition to the member's domain never counts more loans. |
| `LibraryMember.Member.Create` | models/library_member.py:10-41 | A new member gets a number from the naming rule, is active, and gets the membership date (default today) and type (default standard). Expiry and loan limit are computed from these. The counts are those of the loan table for its partner (a partner may already have loans), and the overdue count never exceeds the loan count. |
| `LibraryMember.ComputeExpiryDate` | models/library_member.py:43-58 | Every member of the set gets the expiry date of its membership date and type. |
| `LibraryMember.ComputeLoanLimit` | models/library_member.py:68-80 | Every member of the set gets the loan limit of its type. |
| `LibraryMember.ComputeLoanCount` | models/library_member.py:60-66 | Each member counts its loans and its overdue loans, and the overdue count never exceeds the loan count. |
| `Dashboard.TargetTable` | static/src/js/dashboard_chart.js:686-693 | Each render method's registry key names its canvas. The eight canvases are distinct, and no target writes a key another target writes. |
| `Dashboard.GetCanvasIdForChart` | static/src/js/dashboard_chart.js:756-768 | A key has a canvas exactly when it is one of the eight metric keys, and that canvas is one of the eight dashboard canvases. |
| `Dashboard.CanvasMappingIsOneToOne` | static/src/js/dashboard_chart.js:757-766 | The mapping pairs the eight metric keys one-to-one with the eight canvases. |
| `Dashboard.RenderKeysMissMetricKeys` | static/src/js/dashboard_chart.js:686-693 | Of the keys `renderCharts` reads, only "revenue" is a metric key with a canvas. |
| `Dashboard.PlaceholderData` | static/src/js/dashboard_chart.js:445-569 | The placeholder covers the eight metric keys with its fixed loan-status figures, and gives `renderCharts` data for the revenue chart only. |
| `Dashboard.GraphDataTextIsFirstFilled` | static/src/js/dashboard_chart.js:335-352 | The embedded text is "" exactly when no selector yields a value. Otherwise it is the value of the first selector, in list order, that yields one. |
| `Dashboard.FindGraphData` | static/src/js/dashboard_chart.js:344-352 | The selector loop ends with the embedded text defined above. |
| `Dashboard.TierOrder` | static/src/js/dashboard_chart.js:320-427 | The server tier is taken exactly when the reply carries `success`. The embedded tier is taken exactly when it does not and the first filled selector parses. Every fallback tier leaves chart data. |
| `Dashboard.DropCanvas` | static/src/js/dashboard_chart.js:1038-1048 | After the sweep over `Chart.instances`, no live chart remains on the canvas. |
| `Dashboard.CreateKeepsOneChartPerCanvas` | static/src/js/dashboard_chart.js:1024-1080 | Destroy-then-create keeps every canvas to at most one live chart, and the only chart left on the target canvas is the new one. |
| `Dashboard.DrawnByStep` | static/src/js/dashboard_chart.js:1190 | A render method leaves its own target as described (`Drawn`): unchanged, `null`, or a live chart of its type and data recorded under both keys. |
| `Dashboard.DrawnSurvivesStep` | static/src/js/dashboard_chart.js:686-693 | A later render method never destroys or overwrites what an earlier one drew. |
| `Dashboard.RenderStep` | static/src/js/dashboard_chart.js:686-693 | Each step of `renderCharts` extends the drawn targets by one, moves no other key, and keeps one chart per canvas. |
| `Dashboard.PlaceholderDrawsOnlyRevenue` | static/src/js/dashboard_chart.js:686-693 | A render from the placeholder data draws the revenue chart and leaves every other registry key as it was. |
| `Dashboard.ServerDataDrawsNothing` | models/LibraryDashboard.py:98-211 | A render from chart data keyed like the server's graph data leaves the chart registry exactly as it was. |
| `Dashboard.LibraryDashboardController.constructor` | static/src/js/dashboard_chart.js:12-21 | A new controller has no data, an empty registry, both flags down and all counters at zero. |
| `Dashboard.ChartJs.DestroyAllOn` | static/src/js/dashboard_chart.js:1037-1047 | After the sweep over `Chart.instances`, the live charts are exactly those that are not on the canvas. |
| `Dashboard.LibraryDashboardController.SafelyCreateChart` | static/src/js/dashboard_chart.js:1014-1114 | With no canvas, nothing changes. Otherwise the recorded chart and every live chart on the canvas are destroyed. The new chart (unless Chart.js throws) is the only one left there and is recorded under the canvas id. |
| `Dashboard.LibraryDashboardController.RenderChart` | static/src/js/dashboard_chart.js:1190 | A render method stores what `safelyCreateChart` returned, a chart or null, under its own key, keeping the registry well keyed. |
| `Dashboard.LibraryDashboardController.RenderChartWithFallback` | static/src/js/dashboard_chart.js:722-754 | Renders when the data holds the key. Otherwise it changes no chart and posts a notice on the key's canvas if the key has one on the page. |
| `Dashboard.LibraryDashboardController.RenderCharts` | static/src/js/dashboard_chart.js:656-720 | A fourth consecutive attempt is rejected and resets the counter. Without data the call is rejected and the attempt stays counted. Otherwise every target ends `Drawn`, no other key changes, the counter resets, and no canvas holds two live charts. A rejected call changes neither the registry nor the live charts. The whole outcome is the predicate `RenderOutcome`, which the callers below carry through. |
| `Dashboard.LibraryDashboardController.HandleResize` | static/src/js/dashboard_chart.js:803-842 | Exactly the entries holding a live chart on a laid-out canvas are resized. Those whose resize throws are removed, and the rest of the registry is untouched. |
| `Dashboard.LibraryDashboardController.CleanupAllChartInstances` | static/src/js/dashboard_chart.js:1615-1686 | Destroys every chart the registry records, then every chart still live. Returns true with the registry empty and no live chart left. |
| `Dashboard.LibraryDashboardController.FetchDataFromServer` | static/src/js/dashboard_chart.js:572-654 | Succeeds exactly when the reply carries `success`, and only then replaces the chart data with the reply's data. It then renders, leaving the counter and the registry as `RenderOutcome` gives for that data. A refused reply changes nothing. |
| `Dashboard.LibraryDashboardController.LoadChartData` | static/src/js/dashboard_chart.js:295-443 | A fourth consecutive attempt is rejected and resets the counter. Without the container the call is rejected and the attempt stays counted. Otherwise it installs the data of the tier `Tier` picks, resets the counter and renders it (`RenderOutcome`). The rejections leave the render counter and the registry alone. A placeholder load, once drawn, changes only the revenue entry. |
| `Dashboard.LibraryDashboardController.LoadFromPage` | static/src/js/dashboard_chart.js:329-420 | Takes the embedded data exactly when a selector finds text that parses, and the placeholder otherwise. It installs that data and renders it (`RenderOutcome`). A drawn placeholder changes only the revenue entry. |
| `Dashboard.LibraryDashboardController.SetUpCharts` | static/src/js/dashboard_chart.js:67-83 | Loads exactly when the container exists and the load gate is open. The chosen tier's data is then rendered into the emptied registry. A rejected load leaves the registry and the live charts empty and the render counter as it was. |
| `Dashboard.LibraryDashboardController.Init` | static/src/js/dashboard_chart.js:23-113 | Does nothing once initialized, and gives up (resetting the counter) on a fourth consecutive attempt. A missing Chart.js or a rejected load crashes, with the attempt still counted. Otherwise it initializes with the loaded data, rendered into the registry the cleanup emptied (`RenderOutcome` from an empty registry). A rejected load leaves the registry and live charts empty and the render counter as it was. |
| `Dashboard.LibraryDashboardController.BeginRefresh` | static/src/js/dashboard_chart.js:1457-1467 | Starts only when no refresh is running; the flag is raised and the current data is backed up. |
| `Dashboard.LibraryDashboardController.CompleteRefresh` | static/src/js/dashboard_chart.js:1494-1612 | Refreshed exactly when the server succeeds with data and the render gate is open. On failure the backup is restored. The fatal exit happens exactly when the restore render is rejected. The flag always comes down. The registry is what a render of the new data leaves, or what a render of the backup leaves from the unchanged registry, or, without a backup, the registry as it was. |
| `Dashboard.LibraryDashboardController.RefreshAllCharts` | static/src/js/dashboard_chart.js:1455-1612 | Returns at once, changing nothing, while a refresh runs. Otherwise it is refreshed exactly when the server succeeds with data and the render gate is open, and crashes exactly when there was previous data whose re-render is rejected. It ends with the flag down and, unless refreshed, with the previous data back when there was some, otherwise the reply's data if the reply was accepted. The registry is drawn from the new data, redrawn from the previous data, or untouched when there was none. |
| `Dashboard.OverlappingRefreshes` | static/src/js/dashboard_chart.js:1457-1461 | A refresh requested while another awaits the server is ignored, and the first completes normally. |
| `Dashboard.InitGivesUpOnFourthCall` | static/src/js/dashboard_chart.js:88-112 | With Chart.js missing, three calls crash and the fourth gives up; the retry branch never runs. |

## Left out

- Building and styling the DOM is not modelled: full-width forcing, template injection, canvas recreation, loading overlays, notices, error toasts and the retry button. The page enters the model as the `Dom` value.
- Chart.js internals, chart options, colours and the patched `resize` are not modelled. Chart.js is only its table of live charts and the canvases on which construction throws.
- Network transport is not modelled: RPC probing, `fetch` versus jQuery, and HTTP status. The server's answer is the `Reply` input.
- Timers, debouncing, event listeners, `initDashboard` polling and the global `window.refreshAllCharts` hook are not modelled. Asynchronous steps run in firing order, and `HandleResize` models the body of the resize timer.
- `Dashboard.LibraryDashboardController.CompleteRefresh` models a refresh whose server answer arrives before anything else runs. Other calls interleaved in that window are shown only by `Dashboard.OverlappingRefreshes`.
- `Dashboard.LibraryDashboardController.LoadChartData` treats `JSON.parse` as yielding a chart-data object or failing. JSON that parses to a non-object, such as `null`, is not modelled.
- `Dashboard.LibraryDashboardController.HandleResize` treats a canvas as in the document when an element with its id is present. It does not distinguish a detached element with the same id.
- The `error` field, console logging and the error messages of rejected promises are not modelled.
- chart_setup.js, chart_loader.js, reset_assets.js, controllers/main.py and the dashboard record in models/LibraryDashboard.py are not part of this model. Only the metric keys of its graph data are used, in `Dashboard.ServerDataDrawsNothing`.
- The author and genre models (models/author.py, models/book_genre.py, and the genre class in models/book.py) are not modelled. They hold plain fields and an SQL uniqueness constraint that is not modelled.
- Floating point is not modelled: the fine is integer cents (150 per day), exact for whole days.
- Dates are integer day numbers; calendar arithmetic and `timedelta` reduce to addition.
- `ir.sequence` is not modelled: its next value is an input, and so is today's date.
- `IrSequence.AssignName`: compares with the untranslated "New". The source compares with and falls back to `_('New')`, the placeholder translated into the user's language, and translation is not modelled.
- `Book.Book.constructor` builds the record without checking the ISBN. The constraint on create is modelled by `Book.Create`, and on write by `Book.WriteIsbn`.
- ORM persistence, `mail.thread` tracking, record rules and the re-triggering of stored computed fields are not modelled. Each compute method is modelled as one call over a recordset.
- `BookLoan.ComputeFine`: `today` is an input, and the model gives the fine computed on that day. In the program `fine_amount` is stored and recomputed only when `return_date`, `actual_return_date` or `state` change. So an overdue loan's stored fine does not grow day by day. It is fixed on the day the sweep marks the loan overdue, and it changes again when the loan is returned.
