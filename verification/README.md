# Enterprise copilot: question → SQL → result

A Dafny model of the decision logic of a small finance "copilot" front end. A user
either clicks a dashboard tile (a query template) or types a question. A template
renders SQL for the chosen accounting backend. A typed question is mapped to a template
by keyword rules, or else turned into an explanatory SQL comment. A mock executor
answers the SQL: a comment gets a stub answer, and a query is matched against marker
substrings to pick a canned data set or a generic answer. The page records the question in a
ten-entry "Recent Searches" list and shows the answer. The results panel decides what
to show: a spinner, a summary, or the full table with metrics, trend badges and
currency-formatted cells.

Modules, one per part of the program:

- `Text` (text.dfy): ASCII lower-casing, `includes`, ECMAScript `trim`, and the
  substring facts the routing proofs use.
- `Domain` (domain.dfy): personas, data sources, KPI entries, query results, and a
  first-match search modelled on `Array.prototype.find`.
- `Templates` (templates.dfy): the ten-entry template catalogue and each template's
  SQL per data source.
- `Executor` (executor.dfy): the mock executor. It has a stub check, an error answer,
  three ordered canned patterns and a default.
- `Intent` (intent.dfy): the keyword rules for typed questions and the note for
  unrecognised ones.
- `Pipeline` (pipeline.dfy): which answer every template and every question reaches,
  stated against a table of intended outcomes.
- `History` (history.dfy): the recent-questions list.
- `App` (app.dfy): the page state and its handlers (tile click, search, history click,
  follow-up click, back, source switch), and the invariant they keep.
- `View` (view.dfy): the results panel's choices and the page's panel switch.

Strings are written as concatenations of short pieces. This only changes how they are
written, not their value. The verifier's cost of reasoning about a string literal grows
quickly with its length. The pieces concatenate to the source's literals character for
character. A JavaScript template literal's `\n` is a newline, and so is Dafny's.

A KPI entry's `label` field is called `name` here, because `label` is a reserved word in
Dafny.

A few shapes of the answers and runs, each as the source has it:

- The stub answer has one `Message` row (src/lib/mcp.ts:22-23).
- The error answer has an `Error` column and no rows (src/lib/mcp.ts:50).
- Runs are not numbered, and an older run's answer is not discarded when a newer run
  is started (src/App.tsx:34-77).
- The narrative texts are fixed per canned data set (src/lib/mcp.ts:59-156).

## Model

| member | source | states |
|---|---|---|
| Domain.ParsePersona | src/lib/types.ts:3 | a stored persona string is accepted exactly when it is one of the four persona names, and reads back as the persona with that name |
| Domain.PersonaRoundTrip | src/lib/types.ts:3 | every persona's name reads back as that persona |
| Domain.ParseDataSource | src/lib/types.ts:4 | a stored source string is accepted exactly when it is one of the five identifiers |
| Domain.DataSourceRoundTrip | src/lib/types.ts:4 | every data source's identifier reads back as that source |
| Domain.DisplayNamesDistinct | src/components/Layout.tsx:43-47 | different data sources are shown under different labels |
| Domain.FirstIndex | src/App.tsx:35 | the search returns the first position whose element satisfies the test, no earlier element does, and it finds nothing exactly when no element does |
| Text.ToLower | src/App.tsx:62 | the lowered text has the same length and no ASCII capital; each capital becomes its lower-case letter and every other character is kept |
| Text.TrimStart | src/lib/mcp.ts:19 | dropping leading whitespace leaves the suffix that starts at the first non-whitespace character |
| Text.TrimEnd | src/lib/mcp.ts:19 | dropping trailing whitespace leaves the prefix that ends at the last non-whitespace character |
| Text.TrimEmptyIffBlank | src/App.tsx:81 | a string trims to nothing exactly when all its characters are whitespace |
| Text.TrimStartsWithDashes | src/lib/mcp.ts:19 | the trimmed text starts with "--" exactly when the text without its leading whitespace does |
| Templates.RegistryIdsDistinct | src/lib/templates.ts:3-117 | the catalogue has ten templates and no two share an id |
| Templates.RegistryComplete | src/lib/templates.ts:3-117 | every template is in the catalogue |
| Templates.Find | src/App.tsx:35-36 | a lookup returns a template with the requested id, and returns none exactly when no template has that id |
| Templates.FindRoundTrip | src/App.tsx:35 | looking up a template's own id finds that template |
| Templates.Sql | src/lib/templates.ts:3-117 | a template's SQL for a source starts with "SELECT " where the template has a query for that source (a Sage query on SageIntacct7), and with "-- " everywhere else |
| Templates.SageQueryIsQuery | src/lib/templates.ts:8-92 | each of the five SageIntacct7 queries starts with "SELECT " |
| Templates.CommentSqlIsComment | src/lib/templates.ts:53-116 | each of the five comment-only templates produces text starting with "-- " |
| Templates.SageOnlyFallback | src/lib/templates.ts:8-92 | a template with a Sage query gives every other source exactly the "NetSuite implementation not available" comment, and gives SageIntacct7 a SELECT query |
| Templates.CommentTemplateIgnoresSource | src/lib/templates.ts:53-116 | a comment-only template gives every source the same "-- " text |
| Templates.SqlIsCommentIff | src/lib/templates.ts:3-117 | generated SQL starts with "--" exactly when the template has no query for the source, and it is never empty |
| Templates.ArAgingSqlMarkers | src/lib/templates.ts:10-16 | the receivables-aging query mentions both "Arinvoice" and "Whendue <" |
| Templates.VendorSpendSqlMarkers | src/lib/templates.ts:27-32 | the vendor-spend query mentions "Apbill" and "TotalSpend" but not "Arinvoice" |
| Templates.CustomerProfitabilitySqlMarkers | src/lib/templates.ts:43-48 | the customer-profitability query mentions none of "Whendue <", "Apbill", "TotalSpend", "Cash Flow", "Inflow" |
| Templates.CashFlowSqlMarkers | src/lib/templates.ts:66-72 | the cash-flow query mentions "Arinvoice" and "Inflow" but neither "Whendue <" nor "TotalSpend" |
| Templates.TopExpensesSqlMarkers | src/lib/templates.ts:83-88 | the top-expenses query mentions none of "Arinvoice", "Cash Flow", "TotalSpend" |
| Executor.IsComment | src/lib/mcp.ts:19 | a statement counts as a comment exactly when "--" follows its leading whitespace, and then it contains "--" |
| Executor.Matches | src/lib/mcp.ts:62-121 | each of the three marker tests needs the receivables or payables table name or the "Cash Flow" label |
| Executor.IsCommentAfterPrefix | src/lib/mcp.ts:19 | text that starts with a known non-blank prefix is a comment exactly when it starts with "--" |
| Executor.MatchPattern | src/lib/mcp.ts:62-145 | the chosen data set's markers are present, nothing is chosen exactly when no marker set matches, and a later data set is chosen only when every earlier one fails |
| Executor.Classify | src/lib/mcp.ts:15-56 | the stub is chosen exactly for comments, the error answer exactly for a failed non-comment request, a canned answer exactly when a pattern matches, and otherwise the default |
| Executor.StubResult | src/lib/mcp.ts:19-27 | the stub echoes the SQL, has the single `Message` column and one row, a summary, empty insights and follow-ups, and no metrics |
| Executor.FailureResult | src/lib/mcp.ts:46-56 | the error answer echoes the SQL, has the `Error` column, no rows, a non-empty summary, empty insights and follow-ups, and no metrics |
| Executor.ArAgingResult | src/lib/mcp.ts:62-90 | the receivables answer is well shaped with customer, amount-due and invoice-count columns, five rows, narrative and two metrics |
| Executor.VendorSpendResult | src/lib/mcp.ts:92-119 | the vendor answer is well shaped with vendor and total-spend columns, five rows, narrative and one metric |
| Executor.CashFlowResult | src/lib/mcp.ts:121-145 | the cash-flow answer is well shaped with type and amount columns, two rows, narrative and one metric |
| Executor.FallbackResult | src/lib/mcp.ts:148-155 | the default answer is well shaped with the single `Result` column and one row, empty insights and follow-ups, and no metrics |
| Executor.ResultFor | src/lib/mcp.ts:59-156 | every answer echoes the SQL, lists each column once, gives every row exactly the listed columns as keys, and has its outcome's columns |
| Executor.OnlyFailureIsEmpty | src/lib/mcp.ts:48-51 | an answer has no rows exactly when it is the error answer |
| Executor.KpisOnlyForCannedData | src/lib/mcp.ts:85-88 | an answer carries a non-empty metric list exactly when it is one of the three canned data sets, and every answer has a summary |
| Executor.Execute | src/lib/mcp.ts:15-57 | the result echoes the SQL and is well shaped; it has no rows exactly when a non-comment request fails; it has metrics exactly when a non-comment request succeeds and a pattern matches |
| Executor.ColumnsIdentifyOutcome | src/lib/mcp.ts:22 | different outcomes have different column lists, so the columns tell which branch answered |
| Executor.CommentIgnoresFault | src/lib/mcp.ts:19-30 | a comment gets the stub whether or not the request would fail, because the stub check comes before the request |
| Intent.Resolve | src/App.tsx:62-68 | the chosen rule is in the rule table and fires on the lower-cased text, and no rule is chosen exactly when none fires |
| Intent.UnresolvedNote | src/App.tsx:67 | the note for an unrecognised question starts with "--" and contains the question verbatim |
| Intent.QuestionSql | src/App.tsx:61-68 | a question's SQL is never empty; it is a "--" comment exactly when no rule fires or the source is not SageIntacct7; an unrecognised question's SQL contains the question |
| Intent.RuleTargetsRegistered | src/App.tsx:63-65 | both rules name registered templates (vendor spend and receivables aging), so the empty-string fallback is never taken |
| Intent.ResolveCases | src/App.tsx:62-68 | spend or vendor words pick vendor spend; otherwise due, ar or aging pick receivables aging; a question with none of the five is unresolved, and only such a question is |
| Intent.QuestionSqlCases | src/App.tsx:61-68 | a question runs the vendor-spend SQL, the receivables SQL or the unresolved note, by the same keyword cases |
| Intent.VendorWinsOverReceivables | src/App.tsx:62-65 | "Who are my top vendors?" contains "ar" but still picks vendor spend |
| Intent.ShoutedVendorQuestion | src/App.tsx:62 | matching ignores ASCII case: "Top VENDORS" picks vendor spend |
| Intent.QuarterlyMeansReceivables | src/App.tsx:64 | keywords match inside words: "Quarterly" picks receivables aging |
| Intent.UnrecognisedQuestion | src/App.tsx:66-67 | "Net income" matches no rule |
| Pipeline.GeneratedCommentIff | src/lib/mcp.ts:19 | the executor takes generated SQL for a comment exactly when the template has no query for the source |
| Pipeline.ArAgingSqlRoute | src/lib/mcp.ts:62 | the receivables query selects the receivables data |
| Pipeline.VendorSpendSqlRoute | src/lib/mcp.ts:92 | the vendor-spend query selects the vendor data |
| Pipeline.CashFlowSqlRoute | src/lib/mcp.ts:121 | the cash-flow query selects the cash-flow data |
| Pipeline.CustomerProfitabilitySqlRoute | src/lib/mcp.ts:148-155 | the customer-profitability query matches no pattern and gets the default answer |
| Pipeline.TopExpensesSqlRoute | src/lib/mcp.ts:148-155 | the top-expenses query matches no pattern and gets the default answer |
| Pipeline.SageQueryPattern | src/lib/mcp.ts:59-156 | each Sage query selects the data set the intended-outcome table assigns its template |
| Pipeline.TemplateRouting | src/App.tsx:44-45 | for every template, source and transport outcome, executing the template's SQL gives the answer the intended-outcome table assigns; every template on a non-Sage source gets the stub |
| Pipeline.TemplateAnswer | src/App.tsx:44-46 | every template's SQL is non-empty, and its answer has the columns of its intended outcome |
| Pipeline.UnresolvedQuestionRouting | src/App.tsx:66-70 | an unrecognised question gets the stub, whatever the source and transport |
| Pipeline.QuestionRouting | src/App.tsx:62-70 | a question with spend words gets the vendor-spend tile's answer, and otherwise one with receivable words gets the receivables tile's answer |
| History.Without | src/App.tsx:29 | removing a question leaves exactly the other entries, changes nothing when it is absent, and keeps a duplicate-free list duplicate-free |
| History.Add | src/App.tsx:29 | the question comes first and occurs once; the list has at most ten entries, holds only the question and earlier entries, and loses nothing while there is room; a duplicate-free list stays duplicate-free |
| History.WithoutAt | src/App.tsx:29 | removing a question that occurs only at one position closes the gap and keeps the order of the rest |
| History.AddExisting | src/App.tsx:29 | asking a question already listed moves it to the front, keeps the others in order, and keeps the length |
| History.AddNew | src/App.tsx:29 | asking a new question puts it in front; when the list is full the oldest entry falls off |
| History.AddIdempotent | src/App.tsx:29 | asking the same question twice in a row records it once |
| History.RepeatAfterOther | src/App.tsx:29 | asking X, Y, then X leaves [X, Y] |
| History.AddAllKeepsShape | src/App.tsx:27-32 | after any sequence of questions the list is duplicate-free, at most ten long, shows the last question first, and holds only earlier entries or asked questions |
| History.AddAllDistinct | src/App.tsx:27-32 | after different new questions the list is those questions newest first followed by the earlier entries, cut to the first ten |
| App.InitialValid | src/App.tsx:13-19 | the first render has an empty, hence valid, history and no result |
| App.Begin | src/App.tsx:38-41 | starting a run turns the spinner on, clears the result, puts the question in the input and first in the history, and keeps the page valid |
| App.Finish | src/App.tsx:46-50 | an arriving answer is shown and the spinner stops; nothing else changes |
| App.Fail | src/App.tsx:47-50 | a thrown run stops the spinner and leaves the result as it was |
| App.FailedRunShowsNothing | src/App.tsx:72-76 | a run that throws ends with no result shown but with its question recorded |
| App.RunTemplate | src/App.tsx:34-52 | an unknown id leaves the page unchanged; a known id records the template's description (not its id) and shows the answer to its SQL for the current source; the page stays valid |
| App.TemplateRunShows | src/App.tsx:43-46 | a tile's answer has the columns of the outcome its template is meant to reach on the current source |
| App.RunQuery | src/App.tsx:54-77 | a question is recorded first in the history and answered with the SQL it resolves to; an unrecognised question shows the stub's `Message` column; the page stays valid |
| App.Search | src/App.tsx:79-83 | a blank or whitespace-only question is never run; any other question is run as typed |
| App.Step | src/App.tsx:100-184 | every user action keeps the history duplicate-free and at most ten long and any shown result well shaped; a run starts and finishes within one action (see the overlapping-runs line under Left out), so no action leaves the spinner on; an action that changes the history puts the question now in the input at its head; only choosing a source changes the source |
| App.ReplayValid | src/App.tsx:27-83 | any session from a valid page with no run waiting stays valid, and between actions no run is waiting, because each run finishes within its action |
| App.HistoryClickKeepsLength | src/App.tsx:128 | re-running a listed question moves it to the front and keeps the others in order |
| App.BackKeepsQuestion | src/components/ResultsView.tsx:40-48 | the back button of the full result view clears the shown result and changes nothing else; without that view on screen going back does nothing |
| View.ScreenFor | src/components/ResultsView.tsx:14-35 | the spinner shows exactly while loading; the full view exactly for a result with rows; the summary alone exactly for a result without rows but with a non-empty summary |
| View.AnswersAreNeverBlank | src/components/ResultsView.tsx:26-35 | no executor answer renders as nothing, and only the error answer is shown by its summary alone |
| View.ShowsKpiRow | src/components/ResultsView.tsx:52 | the metric row appears only in the full view: never while loading, and only for a result with rows and metrics |
| View.KpiRowOnlyForCannedData | src/components/ResultsView.tsx:52 | the metric row appears exactly for the three canned data sets |
| View.BadgeFor | src/components/ResultsView.tsx:59-66 | a badge appears exactly when the metric has a trend and carries its trend description; the arrow points up exactly for an upward trend |
| View.NeutralBadgeDiffersOnlyInTone | src/components/ResultsView.tsx:62-65 | a neutral trend has the same downward arrow as a fall, and only its colour differs |
| View.ToneIdentifiesTrend | src/components/ResultsView.tsx:62-63 | badges of the same colour belong to the same trend |
| View.RenderCell | src/components/ResultsView.tsx:108-111 | each cell carries the row's value for its column, or none when the row lacks the column |
| View.CurrencyRule | src/components/ResultsView.tsx:109 | a number goes to the currency formatter when its column names an amount, spend, revenue or money due; any other value only when the column names spend, revenue or money due |
| View.ReadingsDiffer | src/components/ResultsView.tsx:109 | the currency test as written and the number-guarded reading differ exactly on a non-number in a spend, revenue or due column |
| View.MoneyColumnsFormatAnyValue | src/components/ResultsView.tsx:109-110 | a column named for spend, revenue or money due goes to the currency formatter whatever its value |
| View.AmountColumnsNeedNumbers | src/components/ResultsView.tsx:109-111 | a column named only for an amount goes to the currency formatter exactly when its value is a number |
| View.OtherColumnsAreText | src/components/ResultsView.tsx:109-111 | a column naming no money keyword is shown as text |
| View.NameColumnsAgree | src/components/ResultsView.tsx:109 | on the executor's text columns the two readings of the currency test agree |
| View.Table | src/components/ResultsView.tsx:99-112 | the table has one line per row and one cell per column, in column order |
| View.RowCount | src/components/ResultsView.tsx:93 | the row-count label equals the number of table lines |
| View.WellShapedTableIsFull | src/components/ResultsView.tsx:105-112 | in a well-shaped result no cell lacks a value |
| View.MainPanel | src/App.tsx:175-183 | the dashboard with its tiles shows exactly when no run is waiting and no result is shown, and only when the results panel would render nothing |
| View.ShowsHistory | src/App.tsx:121 | the recent questions are listed only above the dashboard or the spinner, never beside an answer |
| View.RunningShowsSpinner | src/App.tsx:175-184 | while a run waits, the results panel shows the spinner and the question just asked leads the history |
| View.AnsweredShowsResult | src/App.tsx:121-184 | after a question is answered, the results panel shows rows or a summary and the history list is hidden |
| View.BackShowsDashboard | src/App.tsx:175-184 | going back from the full result view shows the dashboard with the recent questions listed; on the dashboard, which has no back button, nothing changes |

## Left out

- Network access is not modelled: the endpoint and token (src/lib/mcp.ts:5-6), the commented-out request (35-41) and the 800 ms delay (32). Execution is a pure function of the SQL.
- The request failing is a `fault` parameter of `Execute`. In the current source nothing in the `try` block can throw, so the error answer is out of reach there; the parameter keeps the branch in the model.
- A run's handler cannot throw in the current source either. `App.Fail` models the `catch` path of src/App.tsx:47-51 and 72-76 for the same reason.
- Overlapping runs are not modelled. `RunTemplate` and `RunQuery` apply their start and finish in one step, and `Begin`, `Finish` and `Fail` are the separate halves. So `App.Step` and `App.ReplayValid` never see a run waiting between actions, and a second run started while one waits is not modelled.
- Console logging is not modelled, and neither is re-creating the services on every render (src/App.tsx:24-25). The executor's data source only labels a log line.
- src/lib/llm.ts is not part of this model: its summary generator is never called.
- The persona selector, the settings modal, icons and CSS classes are presentation only. So is the rest of src/components/Layout.tsx and src/components/Dashboard.tsx; only the source-label lookup is modelled (`DataSource.DisplayName`).
- `formatCurrency` and `cn` come from a utility file that is not part of this model. A cell records only whether it goes to the currency formatter, not the formatted text.
- Row values are `real` or `string`; JavaScript's floating point is not modelled, and nothing is proved about arithmetic.
- Text.ToLower folds only ASCII capitals; JavaScript's full Unicode case mapping is not modelled. The rule keywords are ASCII.
- `ChatMessage` is declared but used by no logic; it is modelled only as a type.
- The results panel's `!result.data` test is covered by the empty-rows case, since a result's rows are always present in the model.
- The submit button's disabled state (src/App.tsx:113) is presentation. `Search` models the handler, which checks only for a blank question.
