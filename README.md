# Trust-score dashboard: a Dafny model of its client-side logic

The dashboard is a React single-page application. It shows consumer and
merchant trust scores fetched from a backend. This project models the part
of that client that decides things, and proves properties of the model:

- **The generated-chart renderer.** It resolves an AI-generated chart
  snippet to one of three chart families by matching
  `/import.*Responsive(\w+).*from '@nivo\/(\w+)'/`. It then looks up the
  first group among `Line`, `Bar` and `Pie`, and picks what to show: a
  spinner, an error, a no-data notice or the chart.
  - The regular expression is given a declarative meaning. That meaning is
    the match JavaScript's backtracking reports: the leftmost match, then
    the longest `.*`, then the longest `\w+`.
  - A left-to-right scanner is proved to compute exactly that match.
- **The colour helpers** of `utils/index.ts`: the tier colour and the
  trust-score colour.
- **The AI chat panel** of both dashboards:
  - submit, clear and suggested prompt, as transitions on the panel's state;
  - each dashboard's initial data load;
  - the merchant dashboard's page render, which throws on a `null` body;
  - a class per dashboard whose fields are its state hooks and whose
    methods are proved to follow those transitions;
  - an invariant that every handler keeps.
- **The two paginated listings** (consumers, merchants):
  - the fetch effect with its `limit`/`offset` request;
  - the page and page-size handlers and the query-result handler;
  - the loading/error/table precedence;
  - the per-row cells: the loyalty chip, the trust score or `N/A`, and the
    exclusivity chip.
- **The merchant profile page:**
  - its load effect;
  - the loading/error/profile precedence;
  - the risk wording, and the dispute wording and colour.

Files:

- `wrappers.dfy`: `Option` and `Result`.
- `js.dfy`: the JavaScript semantics the code relies on.
  - JSON values, truthiness, `||` and property reads;
  - `String.prototype.trim`;
  - `toLowerCase` on ASCII;
  - the decimal rendering of a status code.
- `chart_dispatch.dfy`: the regular expression, the scanner and the family lookup.
- `chart_renderer.dfy`: the renderer's effect, its render chain, and the component class.
- `trust_colors.dfy`: `getTierColor` and `getScoreColor`.
- `chat.dfy`: the chat panel's state, its transitions, invariants and the chart section.
- `consumer_dashboard.dfy` and `merchants_dashboard.dfy`: the two dashboard components.
- `listing.dfy`: the listing state and transitions both tables share.
- `listing_cells.dfy`: the per-row cell choices.
- `consumers_listing.dfy` and `merchants_listing.dfy`: the two table components.
- `merchant_detail.dfy`: the merchant profile page.

Some inputs come from outside the program: HTTP responses, the decoded JSON
body, and the outcome of the simulated load. These are parameters of the
handlers that consume them.

## Model

| member | source | states |
|---|---|---|
| ChartDispatch.FamilyName | src/components/DynamicChartRenderer.jsx:27-31 | each key of `chartComponents` is a non-empty word, so `(\w+)` can capture it; `Lookup` finds the family back from its key |
| ChartDispatch.Message | src/components/DynamicChartRenderer.jsx:19-36 | both messages are non-empty; the unsupported message, and only it, starts with `Unsupported chart type: `, and the rest of it reads back as the token |
| ChartDispatch.Candidate | src/components/DynamicChartRenderer.jsx:18 | the ways the expression can match: a match needs room for `import`, `Responsive`, a group of at least one character and the whole package clause |
| ChartDispatch.BestAt | src/components/DynamicChartRenderer.jsx:18 | the match at a position that backtracking tries first; its first group is a whole word run unless the package clause starts right where it ends |
| ChartDispatch.Preferred | src/components/DynamicChartRenderer.jsx:18 | the match `String.prototype.match` reports: leftmost, then preferred; it is exactly what the scanner finds from the start of the code |
| ChartDispatch.LineEnd | src/components/DynamicChartRenderer.jsx:18 | `.` cannot cross a line break: the result is the first line break at or after the position, or the end of the code |
| ChartDispatch.WordEnd | src/components/DynamicChartRenderer.jsx:18 | the end of the longest run of `\w` characters from a position |
| ChartDispatch.LastTail | src/components/DynamicChartRenderer.jsx:18 | the last start of `from '@nivo/<word>'` in a range, and that no later one exists in the range (none at all when it returns nothing) |
| ChartDispatch.LastResponsive | src/components/DynamicChartRenderer.jsx:18 | the last `Responsive` followed by a word character in a range, and that no later one exists |
| ChartDispatch.MatchAt | src/components/DynamicChartRenderer.jsx:18 | a hit at i starts its `import` at i, has its `Responsive` after it, and ends its non-empty first group before the end of i's line (`MatchAtSpec` proves it is the preferred match at i) |
| ChartDispatch.MatchFrom | src/components/DynamicChartRenderer.jsx:18 | a hit from i is the scanner's hit at an `import` at or after i (`MatchFromSpec` proves it is the leftmost preferred match) |
| ChartDispatch.LeftmostIsFound | src/components/DynamicChartRenderer.jsx:18 | a leftmost, backtracking-preferred match is the one the scanner returns from position 0 |
| ChartDispatch.TailOnLine | src/components/DynamicChartRenderer.jsx:18 | the package clause of any match lies on the same line as its `import` |
| ChartDispatch.WordRunBound | src/components/DynamicChartRenderer.jsx:18 | every run of word characters from a position ends at or before `WordEnd` |
| ChartDispatch.CandidateBounds | src/components/DynamicChartRenderer.jsx:18 | any match at `import` position i uses a `Responsive` the scanner can see, before the last package clause of the line |
| ChartDispatch.MatchAtComplete | src/components/DynamicChartRenderer.jsx:18 | whenever the expression can match at i, the scanner finds a match there, with a `Responsive` at least as far right |
| ChartDispatch.CandidateOfParts | src/components/DynamicChartRenderer.jsx:18 | the pieces the scanner finds on one line assemble into a match |
| ChartDispatch.MatchAtSound | src/components/DynamicChartRenderer.jsx:18 | what the scanner returns at i is a match of the expression |
| ChartDispatch.MatchAtBest | src/components/DynamicChartRenderer.jsx:18 | what the scanner returns at i is the one backtracking prefers: the greediest `.*`, then the greediest `\w+` |
| ChartDispatch.MatchAtSpec | src/components/DynamicChartRenderer.jsx:18 | at an `import`, the scanner returns nothing exactly when there is no match at i, and otherwise the preferred match at i |
| ChartDispatch.NoneNearEnd | src/components/DynamicChartRenderer.jsx:18 | no match starts closer to the end than the length of `import` |
| ChartDispatch.SkipPosition | src/components/DynamicChartRenderer.jsx:18 | a position with no match can be skipped without changing which match is leftmost |
| ChartDispatch.MatchFromSpec | src/components/DynamicChartRenderer.jsx:18 | scanning from i finds nothing exactly when no match starts at or after i, and otherwise the leftmost, preferred match |
| ChartDispatch.Extract | src/components/DynamicChartRenderer.jsx:18-24 | `match` fails exactly when no match exists; otherwise the token is the first group of the preferred match (`IsGroup`) |
| ChartDispatch.Lookup | src/components/DynamicChartRenderer.jsx:27-33 | a family is found only under its own exact name; any other token finds none |
| ChartDispatch.Resolve | src/components/DynamicChartRenderer.jsx:16-39 | the "no chart type" error is raised exactly when nothing matches; a family is returned only for the preferred group; the unsupported-type error carries the preferred group, and that group names no family |
| ChartDispatch.MessagesDistinguishErrors | src/components/DynamicChartRenderer.jsx:19-36 | the two error messages differ, and distinct unsupported tokens give distinct messages |
| ChartDispatch.TokenIsWholeWordRun | src/components/DynamicChartRenderer.jsx:18 | the first group stops inside a word run only when the package clause starts right there (backtracking hands `from` back) |
| ChartDispatch.GrowToken | src/components/DynamicChartRenderer.jsx:18 | a word character before the package clause can extend the first group |
| ChartDispatch.PreferredUnique | src/components/DynamicChartRenderer.jsx:18 | a code has at most one preferred match |
| ChartDispatch.ImportLineLayout | src/components/DynamicChartRenderer.jsx:18 | the character layout of `import { Responsive<name> } from '@nivo/<pkg>'` |
| ChartDispatch.ImportLineCandidate | src/components/DynamicChartRenderer.jsx:18 | such an import line matches, with the first group being the name |
| ChartDispatch.ImportLineSingleR | src/components/DynamicChartRenderer.jsx:18 | on such a line the only `R` is the one that starts `Responsive` |
| ChartDispatch.ImportLineNameEnds | src/components/DynamicChartRenderer.jsx:18 | on such a line the name is followed by a non-word character |
| ChartDispatch.ImportLinePreferred | src/components/DynamicChartRenderer.jsx:18 | on such a line the name's match is the preferred one |
| ChartDispatch.ImportLineToken | src/components/DynamicChartRenderer.jsx:18-23 | on such a line the extracted chart type is exactly the name |
| ChartDispatch.ImportLineName | src/components/DynamicChartRenderer.jsx:18 | the name sits right after `import { Responsive` |
| ChartDispatch.ExtractNamed | src/components/DynamicChartRenderer.jsx:18-23 | a preferred match at the start whose group is a name makes the extraction return that name |
| ChartDispatch.ExtractPreferred | src/components/DynamicChartRenderer.jsx:18-23 | whenever a preferred match exists, the extraction returns its first group |
| ChartDispatch.ExtractSome | src/components/DynamicChartRenderer.jsx:18-23 | a preferred match makes the extraction succeed |
| ChartDispatch.PreferredGroup | src/components/DynamicChartRenderer.jsx:18-23 | any token witnessed by a preferred match is that match's group |
| ChartDispatch.ResolveImportLine | src/components/DynamicChartRenderer.jsx:16-39 | on such a line the outcome depends on the name alone: its family for `Line`/`Bar`/`Pie`, else the unsupported-type error naming it; the package is ignored |
| ChartDispatch.LineCanvasIsUnsupported | src/components/DynamicChartRenderer.jsx:18-36 | `ResponsiveLineCanvas` is reported as the unsupported type `LineCanvas` |
| ChartDispatch.PackageIsIgnored | src/components/DynamicChartRenderer.jsx:18-33 | `ResponsiveLine` imported from `@nivo/bar` still resolves to Line |
| ChartDispatch.LookupIsCaseSensitive | src/components/DynamicChartRenderer.jsx:27-36 | `Responsiveline` is unsupported |
| ChartRenderer.MessageNonEmpty | src/components/DynamicChartRenderer.jsx:20-35 | both error messages are non-empty, so a stored error is truthy |
| ChartRenderer.Effect | src/components/DynamicChartRenderer.jsx:11-48 | a falsy code changes nothing; otherwise exactly one hook is set. The "no chart type" error is stored exactly when nothing matches. A stored family is named by the preferred group. A stored error is truthy |
| ChartRenderer.EffectKeepsExclusive | src/components/DynamicChartRenderer.jsx:41-46 | the component and the error are never both set |
| ChartRenderer.EffectForgetsPrior | src/components/DynamicChartRenderer.jsx:41-46 | on a truthy code the result does not depend on the previous hooks |
| ChartRenderer.Render | src/components/DynamicChartRenderer.jsx:50-83 | spinner exactly while loading; then the error alert with its prefix exactly when the error is truthy; then the no-data notice exactly when the component or the data is missing; otherwise the chart of the stored family over the given data |
| ChartRenderer.RenderAfterEffect | src/components/DynamicChartRenderer.jsx:11-83 | after the effect on a truthy code: the resolved family's chart (or the no-data notice for falsy data), or the alert carrying the resolver's message |
| ChartRenderer.EmptyArrayRendersChart | src/components/DynamicChartRenderer.jsx:66 | `[]` is truthy, so a resolved family with `[]` data still renders a chart |
| ChartRenderer.ChartRendererComponent.constructor | src/components/DynamicChartRenderer.jsx:8-9 | both hooks start `null` |
| ChartRenderer.ChartRendererComponent.OnChartCode | src/components/DynamicChartRenderer.jsx:11-48 | the fields become `Effect` of the old fields, and exclusivity is kept |
| TrustColors.TierColor | src/utils/index.ts:1-14 | each of the four exact tier names gets its own colour; a missing tier or any other spelling gets the grey default |
| TrustColors.LowerCaseGoldIsDefault | src/utils/index.ts:1-14 | `gold` and a missing tier get the default colour |
| TrustColors.ScoreBand | src/utils/index.ts:16-20 | a score is in the top band from 90, the middle band from 70 up to 90, and the bottom band below 70 |
| TrustColors.ScoreColor | src/utils/index.ts:16-20 | green exactly from 90, orange exactly in [70, 90), red exactly below 70 |
| TrustColors.ScoreBandMonotone | src/utils/index.ts:16-20 | a higher score never lands in a worse band |
| TrustColors.BandColorInjective | src/utils/index.ts:16-20 | the colour identifies the band |
| ListingCells.LowerAsciiMatches | src/components/ConsumersListing.jsx:88 | the strings that lower-case to a lower-case word are exactly its case variants |
| ListingCells.LoyaltyTierColor | src/components/ConsumersListing.jsx:87-98 | a warning chip exactly when the lower-cased tier is `gold`; secondary exactly for `bronze`; default otherwise (a missing tier included); never primary |
| ListingCells.LoyaltyTierColorIgnoresCase | src/components/MerchantsListing.jsx:71-82 | spellings equal up to case get the same chip colour |
| ListingCells.GoldVariantsAreWarning | src/components/MerchantsListing.jsx:71-82 | every case variant of `gold` is a warning chip |
| ListingCells.GoldChipVersusTierColor | src/components/MerchantsListing.jsx:71-82 | `GOLD` is a warning chip in the tables but gets the default colour from `getTierColor` |
| ListingCells.TierLabel | src/components/ConsumersListing.jsx:175 | the tier itself when it is non-empty, otherwise `N/A`; never empty |
| ListingCells.TierChip | src/components/MerchantsListing.jsx:182-186 | the chip's label is the tier as written when it is non-empty, `N/A` otherwise, and its colour is the loyalty colour; a missing or empty tier shows `N/A` in the default colour |
| ListingCells.FormatTrustScore | src/components/ConsumersListing.jsx:100-102 | `N/A` exactly when the value is not a number; otherwise that number, to be shown with two decimals |
| ListingCells.NumericStringIsNotAvailable | src/components/MerchantsListing.jsx:84-86 | the string `"87.5"` and `null` both show `N/A` |
| ListingCells.ExclusivityChip | src/components/MerchantsListing.jsx:170-174 | `Yes` in primary exactly when the flag is truthy, `No` in the default colour otherwise |
| ListingCells.ExclusivityFollowsTruthiness | src/components/MerchantsListing.jsx:170-174 | the string `"false"` shows Yes; `0` and `""` show No |
| Listing.Initial | src/components/ConsumersListing.jsx:21-27 | the listing starts on the spinner, with no rows, no error and no query mode, and its first request asks for 10 rows at offset 0 |
| Listing.RequestFor | src/components/ConsumersListing.jsx:38-42 | the limit is the page size; for a positive size the offset is a multiple of it that divides back to the page |
| Listing.OffsetDividesBack | src/components/MerchantsListing.jsx:38-42 | `page * size` divided by a positive size gives the page, with no remainder |
| Listing.Fetch | src/components/ConsumersListing.jsx:30-60 | the request is for the current page; loading ends; page, size and mode are kept. On success the rows and count are the fetched ones and the error is cleared. On failure the old rows stay and the fixed message is set |
| Listing.ChangePage | src/components/ConsumersListing.jsx:62-64 | only the page changes; a fetch is due exactly when it differs; the next request asks for that page at the current size |
| Listing.ChangeRowsPerPage | src/components/ConsumersListing.jsx:66-69 | the new size and page 0, nothing else changed; the next request is for the first page at that size |
| Listing.AfterQueryResult | src/components/ConsumersListing.jsx:75-85 | an error result changes nothing; rows replace the table with a count of 1, enter query mode and clear the error, keeping loading, page and size; once loaded they are shown unpaginated |
| Listing.Render | src/components/ConsumersListing.jsx:104-196 | spinner exactly while loading; then the alert exactly for a truthy error, showing that error's text; then the rows, paginated (count, page, size, options 5/10/25/50) exactly when not in query mode |
| Listing.ChangePageOnlyPage | src/components/ConsumersListing.jsx:62-64 | only the page changes, and the fetch effect reruns exactly when it differs |
| Listing.ChangeRowsPerPageResets | src/components/ConsumersListing.jsx:66-69 | the new size, back to page 0, nothing else changed; the effect reruns exactly when page or size differ |
| Listing.ChangeRowsPerPageRequestsFirstPage | src/components/MerchantsListing.jsx:66-69 | the next request after a size change asks for the first page of the new size |
| Listing.FailedFetchShowsMessage | src/components/ConsumersListing.jsx:51-123 | a failed fetch shows the fixed message, whatever rows were there |
| Listing.LoadedFetchShowsRows | src/components/ConsumersListing.jsx:48-50 | a successful fetch shows exactly the fetched rows, counted by their number |
| Listing.QueryResultEffect | src/components/ConsumersListing.jsx:75-85 | an error result changes nothing; rows replace the table unpaginated, with a count of 1 |
| Listing.QueryModeSticky | src/components/MerchantsListing.jsx:92-102 | no sequence of handlers leaves query mode, so pagination never comes back |
| ConsumersListing.CellsOf | src/components/ConsumersListing.jsx:162-179 | the score cell is `formatTrustScore` of the row's score: `N/A` exactly for a non-number, otherwise that very number; the tier chip is the row's chip, labelled with the tier or `N/A` in the loyalty colour; id and name are shown as they are |
| ConsumersListing.ConsumersListingPage.constructor | src/components/ConsumersListing.jsx:21-27 | the hooks start as the initial listing state |
| ConsumersListing.ConsumersListingPage.FetchConsumers | src/components/ConsumersListing.jsx:30-60 | the fields and the request sent are `Listing.Fetch` of the old fields with the consumers' message |
| ConsumersListing.ConsumersListingPage.HandleChangePage | src/components/ConsumersListing.jsx:62-64 | the fields follow `Listing.ChangePage` |
| ConsumersListing.ConsumersListingPage.HandleChangeRowsPerPage | src/components/ConsumersListing.jsx:66-69 | the fields follow `Listing.ChangeRowsPerPage` |
| ConsumersListing.ConsumersListingPage.HandleQueryResult | src/components/ConsumersListing.jsx:75-85 | the fields follow `Listing.AfterQueryResult` |
| ConsumersListing.FailedFetchShowsConsumersMessage | src/components/ConsumersListing.jsx:53 | a failed fetch shows "Failed to load consumers. Please try again." |
| MerchantsListing.CellsOf | src/components/MerchantsListing.jsx:163-187 | the exclusivity chip is the row's chip, reading Yes exactly for a truthy flag; the score cell is `N/A` exactly for a non-number, otherwise that very number; the tier chip is labelled with the tier or `N/A` in the loyalty colour; id and name are shown as they are |
| MerchantsListing.MerchantsListingPage.constructor | src/components/MerchantsListing.jsx:21-27 | the hooks start as the initial listing state |
| MerchantsListing.MerchantsListingPage.FetchMerchants | src/components/MerchantsListing.jsx:30-60 | the fields and the request sent are `Listing.Fetch` of the old fields with the merchants' message |
| MerchantsListing.MerchantsListingPage.HandleChangePage | src/components/MerchantsListing.jsx:62-64 | the fields follow `Listing.ChangePage` |
| MerchantsListing.MerchantsListingPage.HandleChangeRowsPerPage | src/components/MerchantsListing.jsx:66-69 | the fields follow `Listing.ChangeRowsPerPage` |
| MerchantsListing.MerchantsListingPage.HandleQueryResult | src/components/MerchantsListing.jsx:92-102 | the fields follow `Listing.AfterQueryResult` |
| MerchantsListing.FailedFetchShowsMerchantsMessage | src/components/MerchantsListing.jsx:53 | a failed fetch shows "Failed to load merchants. Please try again." |
| Js.Truthy | src/components/ConsumerDashboard.jsx:41 | exactly `undefined`, `null`, `false`, `0` and the empty string are falsy |
| Js.LowerAscii | src/components/ConsumersListing.jsx:88 | the result has the same length, with each ASCII capital replaced by its small letter and every other character kept |
| Js.Member | src/components/ConsumerDashboard.jsx:41 | reading a property throws exactly on `null`/`undefined`, gives the field when present and `undefined` otherwise |
| Js.Or | src/components/ConsumerDashboard.jsx:41 | `a \|\| b` is `a` exactly when `a` is truthy |
| Js.Trim | src/components/ConsumerDashboard.jsx:47-49 | the result is the middle of the prompt, with only whitespace removed on each side and no whitespace left at either end; it is empty exactly when the prompt is all whitespace |
| Js.TrimIdempotent | src/components/MerchantsDashboard.jsx:46-48 | trimming a trimmed prompt changes nothing |
| Js.DecimalString | src/components/ConsumerDashboard.jsx:76-78 | `${status}` is a string of digits, without a leading zero, that reads back as the status |
| Chat.IsChartReply | src/components/ConsumerDashboard.jsx:85 | the reply is a chart exactly when the value of `data.isChart \|\| data.status === "chart_code"` is truthy; a `chart_code` status always is |
| Chat.Blank | src/components/ConsumerDashboard.jsx:47 | `!prompt.trim()` holds exactly when every character of the prompt is white space or a line terminator |
| Chat.StatusLabel | src/components/ConsumerDashboard.jsx:82 | a truthy status is kept; otherwise `success` |
| Chat.FailureMessage | src/components/ConsumerDashboard.jsx:76-107 | never empty; a non-empty rejection message is kept; an empty one becomes "Failed to get AI response"; an HTTP failure starts with "HTTP error! status: " |
| Chat.HttpMessageCarriesStatus | src/components/MerchantsDashboard.jsx:75-77 | the status code can be read back from the HTTP error message |
| Chat.AiEntryFor | src/components/ConsumerDashboard.jsx:94-103 | the entry carries the reply's response, status and note; its flag is `data.isChart` when that is truthy, and is truthy exactly for a chart reply |
| Chat.Pending | src/components/ConsumerDashboard.jsx:50-62 | loading on; error, response and status cleared; the user entry appended; prompt and chart fields kept |
| Chat.Settle | src/components/ConsumerDashboard.jsx:81-108 | loading off. A reply appends its AI entry and stores the response and status; the chart flag and code follow the chart rule; the error is kept. A failure only sets the error |
| Chat.Submit | src/components/ConsumerDashboard.jsx:46-110 | a blank prompt changes nothing and sends nothing; otherwise the trimmed prompt is sent with the user type, and the state is `Settle` after `Pending` |
| Chat.Clear | src/components/ConsumerDashboard.jsx:116-121 | history, response, error and status are emptied; the prompt, the chart code, the chart flag and loading keep their values |
| Chat.SetPrompt | src/components/ConsumerDashboard.jsx:112-114 | only the prompt changes, to the given text; the new prompt is blank exactly when the text is all white space |
| Chat.InitialInv | src/components/ConsumerDashboard.jsx:25-36 | the initial hooks satisfy the panel invariant |
| Chat.AppendKeepsWellFormed | src/components/ConsumerDashboard.jsx:61-102 | appending a user entry, optionally followed by an AI entry, keeps every AI entry right after a user entry |
| Chat.SubmitKeepsInv | src/components/ConsumerDashboard.jsx:46-110 | a submit keeps the invariant: not loading, chart flag set exactly when code is stored, AI entries answer user entries |
| Chat.ClearKeepsInv | src/components/ConsumerDashboard.jsx:116-121 | clearing keeps the invariant |
| Chat.SetPromptKeepsInv | src/components/ConsumerDashboard.jsx:112-114 | editing the prompt keeps the invariant |
| Chat.SubmitHistory | src/components/MerchantsDashboard.jsx:55-102 | a non-blank submit keeps the old history as a prefix and appends the trimmed prompt; then, on success only, the AI entry |
| Chat.UserEntryNotBlank | src/components/ConsumerDashboard.jsx:47-62 | a user entry's message is never empty |
| Chat.FailureKeepsChart | src/components/ConsumerDashboard.jsx:104-107 | a failed submit sets a non-empty error, adds no AI entry, clears response and status, and keeps the chart fields |
| Chat.SuccessFollowsChartRule | src/components/ConsumerDashboard.jsx:85-100 | a successful submit has an empty error; the chart flag is the chart rule; code is stored exactly for a chart reply, and it is the response; the AI entry's flag is truthy exactly when the chart flag is set |
| Chat.ClearWhilePendingOrphansReply | src/components/ConsumerDashboard.jsx:116-121 | clearing while a request is pending leaves the reply as the only entry, and the history invariant no longer holds |
| Chat.PanelShown | src/components/ConsumerDashboard.jsx:250 | the renderer is mounted exactly when the chart flag is set and the stored code, as a JavaScript value, is truthy |
| Chat.ChartSection | src/components/ConsumerDashboard.jsx:250-256 | the renderer is mounted exactly when the chart flag is set and the stored code is truthy |
| Chat.ClearKeepsChartSection | src/components/ConsumerDashboard.jsx:116-121 | clearing the chat leaves the chart section as it was |
| Chat.PendingShowsSpinner | src/components/MerchantsDashboard.jsx:249-255 | while a request is pending, a mounted chart section shows the spinner |
| Chat.FailureKeepsChartSection | src/components/MerchantsDashboard.jsx:104-108 | a failed submit leaves the chart section as it was |
| Chat.ChartReplyShowsChart | src/components/ConsumerDashboard.jsx:250-256 | a chart reply whose code resolves shows that family's chart over truthy data |
| Chat.TruthyDataNeverNoData | src/components/DynamicChartRenderer.jsx:66-72 | with truthy data the chart section never shows the no-data notice |
| ConsumerDashboard.SeriesAfterLoad | src/components/ConsumerDashboard.jsx:38-44 | the series is always truthy: the loaded `monthlyCollections` when that is truthy, otherwise `[]` |
| ConsumerDashboard.MissingSeriesIsEmpty | src/components/ConsumerDashboard.jsx:40-42 | a body without the field, a `null` body and a failed fetch all give `[]` |
| ConsumerDashboard.ConsumerDashboardPage.constructor | src/components/ConsumerDashboard.jsx:25-36 | loading, an empty series and the initial chat state |
| ConsumerDashboard.ConsumerDashboardPage.FinishInitialLoad | src/components/ConsumerDashboard.jsx:38-44 | the series becomes `SeriesAfterLoad`; loading ends; the chat is untouched |
| ConsumerDashboard.ConsumerDashboardPage.HandlePromptSubmit | src/components/ConsumerDashboard.jsx:46-110 | the chat fields and the request sent are `Chat.Submit` of the old fields as a consumer; the invariant is kept |
| ConsumerDashboard.ConsumerDashboardPage.StartRequest | src/components/ConsumerDashboard.jsx:50-62 | the chat fields become `Chat.Pending` |
| ConsumerDashboard.ConsumerDashboardPage.ReceiveOutcome | src/components/ConsumerDashboard.jsx:81-108 | the chat fields become `Chat.Settle` |
| ConsumerDashboard.ConsumerDashboardPage.ClearChat | src/components/ConsumerDashboard.jsx:116-121 | the chat fields become `Chat.Clear`; the invariant is kept |
| ConsumerDashboard.ConsumerDashboardPage.HandleSuggestedPrompt | src/components/ConsumerDashboard.jsx:112-114 | only the prompt changes, to the suggestion; nothing is sent |
| ConsumerDashboard.ConsumerDashboardPage.EditPrompt | src/components/ConsumerDashboard.jsx:219 | only the prompt changes |
| ConsumerDashboard.SectionNeverLacksData | src/components/ConsumerDashboard.jsx:250-256 | on this dashboard the chart section never shows the no-data notice |
| MerchantsDashboard.DataAfterLoad | src/components/MerchantsDashboard.jsx:37-43 | any decoded body is stored unchecked; a failed fetch stores the truthy fallback object |
| MerchantsDashboard.MerchantsDashboardPage.constructor | src/components/MerchantsDashboard.jsx:26-35 | loading, the fallback data and the initial chat state |
| MerchantsDashboard.MerchantsDashboardPage.FinishInitialLoad | src/components/MerchantsDashboard.jsx:37-43 | the data becomes `DataAfterLoad`; loading ends; the chat is untouched |
| MerchantsDashboard.MerchantsDashboardPage.HandlePromptSubmit | src/components/MerchantsDashboard.jsx:45-109 | the chat fields and the request sent are `Chat.Submit` of the old fields as a merchant; the invariant is kept |
| MerchantsDashboard.MerchantsDashboardPage.StartRequest | src/components/MerchantsDashboard.jsx:49-61 | the chat fields become `Chat.Pending` |
| MerchantsDashboard.MerchantsDashboardPage.ReceiveOutcome | src/components/MerchantsDashboard.jsx:79-108 | the chat fields become `Chat.Settle` |
| MerchantsDashboard.MerchantsDashboardPage.ClearChat | src/components/MerchantsDashboard.jsx:115-120 | the chat fields become `Chat.Clear`; the invariant is kept |
| MerchantsDashboard.MerchantsDashboardPage.HandleSuggestedPrompt | src/components/MerchantsDashboard.jsx:111-113 | only the prompt changes, to the suggestion |
| MerchantsDashboard.MerchantsDashboardPage.EditPrompt | src/components/MerchantsDashboard.jsx:218 | only the prompt changes |
| MerchantsDashboard.RenderPage | src/components/MerchantsDashboard.jsx:249-277 | the render throws exactly when loading is over and the body is `null` or `undefined`; otherwise the generated-chart section over the data, then the spinner while loading, else the two charts fed from the data's two fields |
| MerchantsDashboard.NullBodyCrashesPage | src/components/MerchantsDashboard.jsx:258-268 | a `null` body crashes the page once loading ends |
| MerchantsDashboard.LoadedPageCrashesOnlyOnNull | src/components/MerchantsDashboard.jsx:37-277 | after the load the page crashes exactly for a `null` or `undefined` body; a failed fetch shows both charts over empty arrays |
| MerchantDetail.RiskLabel | src/components/Merchant-Detail.jsx:289-293 | `low` exactly from 90, `moderate` exactly in [70, 90), `high` exactly below 70 |
| MerchantDetail.RiskMatchesScoreColor | src/components/Merchant-Detail.jsx:289-293 | the risk wording and the score colour agree band by band |
| MerchantDetail.DisputeWord | src/components/Merchant-Detail.jsx:286-287 | singular exactly for a count of one |
| MerchantDetail.DisputeColor | src/components/Merchant-Detail.jsx:259-260 | green exactly for zero disputes, orange otherwise |
| MerchantDetail.DisputeEdgeCases | src/components/Merchant-Detail.jsx:259-287 | zero disputes is plural yet green; one is singular and orange |
| MerchantDetail.ProfileOf | src/components/Merchant-Detail.jsx:121-293 | the profile shows the record; the risk wording, score colour, tier colour, dispute word and dispute colour are the ones their helpers derive from it; low risk goes with green, moderate with orange and high with red; the dispute colour is green exactly for zero |
| MerchantDetail.Render | src/components/Merchant-Detail.jsx:66-89 | spinner exactly while loading; then the alert exactly for a truthy error; then the profile of the stored record, with every label and colour derived from it (`ProfileOf`); with no record the page breaks |
| MerchantDetail.MerchantDetailPage.constructor | src/components/Merchant-Detail.jsx:30-32 | no record, loading, no error |
| MerchantDetail.MerchantDetailPage.FinishLoad | src/components/Merchant-Detail.jsx:36-64 | loading ends; a record is stored, or the error becomes the fixed prefix plus the message; the page stays renderable |
| MerchantDetail.ValidNeverBroken | src/components/Merchant-Detail.jsx:66-89 | once loading is over, a record or a truthy error means the page never reads a missing record |
| MerchantDetail.LoadedShowsProfile | src/components/Merchant-Detail.jsx:55-89 | after a successful load the profile of exactly that record is shown |
| MerchantDetail.FailedShowsAlert | src/components/Merchant-Detail.jsx:57-87 | after a failed load the alert carries the prefixed message |

## Left out

- HTTP, JSON decoding and the `fetch` promise chains are not modelled. What a request produces is a parameter:
  - a decoded body or a rejection for the dashboards' loads;
  - a reply, an HTTP status or a rejection message for the chat and the listings.
- The handlers are modelled as atomic, and the chat invariant (`Chat.Inv`) is proved only for that.
  - Two submits cannot overlap: the prompt field and the Send button are disabled while a request is pending.
  - The Clear button is not disabled, so a clear can fall between the start of a submit and its reply. The history then holds the reply without the prompt before it. `Chat.ClearWhilePendingOrphansReply` states this.
  - React's batching and re-render scheduling are not modelled.
- The renders between a hook update and the effect it triggers are not modelled. For example, a table can briefly show the previous rows before the fetch effect sets `loading`.
- `Date.now()` ids and `toLocaleTimeString()` timestamps of chat entries are clock values and are left out.
- `console.error` logging is left out.
- ListingCells.FormatTrustScore: keeps the number instead of rendering `toFixed(2)`, because floating-point formatting is not modelled. NaN is not modelled either.
- `toLowerCase` is modelled on ASCII letters only (`Js.LowerAscii`).
  - Outside ASCII, only two characters lower-case to something containing an ASCII letter.
  - The Kelvin sign lower-cases to `k`, which occurs in none of `gold`, `silver` and `bronze`.
  - Capital I with dot above lower-cases to `i` followed by a combining dot. The dot keeps any word holding it from equalling `silver`, and the model keeps the character, so that word does not equal `silver` in the model either.
  - So the chip colour is the same as in the source.
- Js.Member: a key lookup does not reach the prototype chain. Keys such as `constructor` or `length` are treated as missing.
- ChartDispatch.Lookup: `chartComponents[chartType]` is modelled on the object's own three keys only. A captured token such as `constructor` would find an inherited function in the source; in the model it is an unsupported type.
- ChartDispatch.ResolveImportLine: the concrete import-line lemmas cover names and packages made of word characters other than `R`. The general `Resolve` contract covers every code.
- The chart library wrappers are not part of this model, and neither are the chart components the renderer would mount. The model stops at the family it selects and the data it passes.
- `QueryTextarea` is not part of this model. The query result is a parameter, and a result object with a falsy `error` field is not representable (`Listing.QueryResult`).
  - As written, `QueryTextarea` collects `onQueryResult` into its remaining props and spreads them onto the text area (src/components/QueryTextarea.jsx:3-10 and 38). Nothing calls the handler, so in the program `isQueryMode` stays `false`.
  - `Listing.QueryResultEffect`, `Listing.QueryModeSticky` and the two `HandleQueryResult` methods therefore describe a handler the program never invokes. They state what it would do if it were wired up.
- Listing tiers are modelled as an optional string (`loyaltyTier: Option<string>` in both row types). A tier that is a number or an object is not representable. On such a tier, `tier?.toLowerCase()` throws and the row's render crashes (src/components/ConsumersListing.jsx:88, src/components/MerchantsListing.jsx:72).
- The rows-per-page handler receives the already parsed page size. `parseInt` of the select's value is not modelled.
- `handleRowClick` navigation and the back button of the profile page are left out, because routing is not part of this model.
- The merchant profile page's load is simulated in the source: a one-second delay, then a fixed record. `FinishLoad` takes its outcome as a parameter instead.
- The chat reply's `response` is taken to be a string. A non-string response (which would then be stored as code) is not modelled.
- MerchantsDashboard.RenderPage: the two fixed charts are modelled by the values they receive. What the chart components do with a field that is missing or not an array is not modelled.
- The consumer detail page, the recommendations section and the navigation bar are not part of this model.
- The percentages on the profile page (`toFixed(1)` of the rates) are left out, as floating-point formatting.
