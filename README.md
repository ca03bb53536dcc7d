# Stock analysis front end: formatters, fetch states and search

This project is a Dafny model of the logic inside a React front end for stock analysis. It covers five parts:

- **The market panel (`MarketOverview`).** It loads the index quotes from `/api/market/overview`, with a timestamp that keeps caches from answering. When a request fails, it shows a detailed error message and three placeholder cards. On mount it also arms an auto-retry timer of 3 s. The code means to retry while an error is shown, after 3 s, 6 s and 9 s. As written, the timer's callback never sees the error, so only the first 3 s timer is ever armed (see "## Findings").
- **The stock page (`StockPage`, routed at `/stock/:symbol`).** It loads a stock's profile from the configured back end. It shows a spinner, an error with a Retry button, a "no data" notice or the formatted profile.
- **The older details page (`StockDetails`).** It loads the same profile from the development back end. Some of its figures sit behind a truthiness test, and it has an analyst-recommendations table.
- **The older home page (`Home`).** It shows featured stocks that link to their pages, plus a market overview loaded once.
- **The search box (`StockSearch`).** It suggests stocks from a fixed list by a case-insensitive substring match once two characters are typed. Submitting opens the page of the trimmed, upper-cased text.

The modules follow the program:

| module | file | what it holds |
|---|---|---|
| `Wrappers` | `wrappers.dfy` | `Option`, which stands for JavaScript's `null`/`undefined` |
| `JsBuiltins` | `js_builtins.dfy` | The JavaScript built-ins the code relies on: `Number.prototype.toFixed`, integer-to-string, `toLowerCase`/`toUpperCase`, `trim`, `includes` |
| `Formatters` | `formatters.dfy` | `formatNumber`, `formatLargeNumber`, `formatBillion`, `formatPercent`/`formatPercentage`, the change chip and its `+` sign, `getIndexName`, and the `x \|\| 'N/A'` fallbacks |
| `Api` | `api.dfy` | The records received from the back end, a request's outcome, the base URL, the request URLs, the `/stock/:symbol` route, and render precedence (spinner, error, no data, content) |
| `MarketOverviewPanel` | `market_overview.dfy` | The `MarketOverview` class and its retry schedule |
| `StockPageView` | `stock_page.dfy` | The `StockPage` class and its layout |
| `StockDetailsView` | `stock_details.dfy` | The `StockDetails` class, its guarded cells and its recommendations table |
| `HomeView` | `home.dfy` | The `Home` class, its featured links and its index cards |
| `StockSearchBox` | `stock_search.dfy` | The `StockSearch` class and its filter |

Four components repeat the same `formatNumber` and change-chip code: `src/components/MarketOverview.js`, `src/pages/StockPage.js`, `src/pages/StockDetails.js` and `src/pages/Home.js`. Two of them, `src/components/MarketOverview.js` and `src/pages/Home.js`, also repeat `getIndexName`. Each helper is defined once here, in `Formatters`.

Each component is a class with the component's state as fields. A request happens in two steps, because the component renders in between:

1. A synchronous start: spinner on, error cleared where the code clears it, and the URL requested.
2. `Settle`, which takes the outcome of the request as an input: `Success(payload)` or `Failure(message, status)`. The market panel's `Settle` also takes whether the browser is online.

Numbers are exact reals. `toFixed` is modelled concretely: the sign, then the magnitude times 10^d rounded half up, written with `d` decimals. Every formatter's contract states the digits it shows in those terms, except `FormatLargeNumber`, whose digits and letter are stated by its companion lemma `Formatters.FormatLargeNumberScale`.

Behaviour worth noting, as the code has it:

- **A missing percentage on the change chip.** The chip shows `formatNumber(changePercent)` followed by `%`. A missing percentage therefore shows "N/A%" (`Formatters.PercentLabel`).
- **Clearing the search box.** A submit clears the box only when the query is not blank; a blank submit changes nothing (`StockSearchBox.StockSearch.HandleSubmit`). Choosing a suggestion clears it as well (`StockSearchBox.StockSearch.HandleSuggestionClick`).
- **The bullet in `StockDetails`.** `src/pages/StockDetails.js:98` stores the bullet between sector and industry as the three characters a mis-decoded UTF-8 "•" becomes. The page shows those three characters (`StockDetailsView.MisencodedBullet`).
- **"$1000.00K" just below a million.** `formatLargeNumber` picks its letter from the exact value and then rounds. A value just below 1e6, 1e9 or 1e12 is therefore shown as 1000.00 of the smaller scale: 999999 shows "$1000.00K" (`Formatters.ThousandBelowNextScale`, `Formatters.ScaledValueRange`).
- **Pages that are never shown.** `Home` and `StockDetails` are not routed by `src/App.js`, which routes `/` to `HomePage` and `/stock/:symbol` to `StockPage`. They are modelled as written all the same.

## Model

| member | source | states |
|---|---|---|
| JsBuiltins.ToFixed | src/pages/StockPage.js:82 | `toFixed(d)`: the text has `d` decimals. It starts with "-" exactly for a negative value, otherwise with a digit. Its digits, read as an integer, are the magnitude with the point moved `d` places, rounded half up. The integer part has no leading zero unless it is "0" itself. |
| JsBuiltins.ShiftIsPow10 | src/pages/StockPage.js:82 | Moving the point `d` places multiplies by 10^d. |
| JsBuiltins.IntToString | src/pages/StockDetails.js:263 | An integer written out starts with "-" exactly when it is negative. The digits after the sign read back as its absolute value. They start with "0" only when they are "0" itself, for the value 0. |
| JsBuiltins.NatToStringRoundTrip | src/components/MarketOverview.js:62 | Reading back a written-out status code or timestamp gives the number. |
| JsBuiltins.ToLower | src/components/StockSearch.js:41 | `toLowerCase` keeps the length and maps every character to lower case, one by one. |
| JsBuiltins.ToUpper | src/components/StockSearch.js:54 | `toUpperCase` keeps the length and maps every character to upper case, one by one. |
| JsBuiltins.Trim | src/components/StockSearch.js:53 | `trim`'s result neither starts nor ends with white space. Everything before the point where it starts in the input is white space, and so is everything after it. |
| JsBuiltins.TrimIsSlice | src/components/StockSearch.js:53 | `trim`'s result is the contiguous slice of the input that starts after the leading white space. |
| JsBuiltins.TrimEmpty | src/components/StockSearch.js:53 | `query.trim()` is empty exactly when the query is all white space. |
| JsBuiltins.Includes | src/components/StockSearch.js:41-42 | `includes` is true exactly when the needle occurs as a contiguous slice. |
| Formatters.FormatNumber | src/pages/StockPage.js:80-83 | "N/A" exactly for a missing value. Otherwise a fixed-point text with the given number of decimals, with a sign exactly for negatives, no leading zero, and digits that are the rounded value. |
| Formatters.FixedIsNotNotAvailable | src/components/MarketOverview.js:113-116 | A formatted number never reads "N/A", so "N/A" identifies the missing value. |
| Formatters.ScaleOf | src/pages/StockPage.js:90-94 | The suffix chosen is the largest magnitude (T, B, M, K) the value reaches, and none below 1e3, negatives included. |
| Formatters.MagnitudeUnique | src/pages/StockPage.js:90-94 | At most one magnitude fits a value, so the descending tests pick the only possible suffix. |
| Formatters.FormatLargeNumber | src/pages/StockPage.js:86-95 | "N/A" exactly for a missing value. Otherwise the text starts with "$". |
| Formatters.FormatLargeNumberScale | src/pages/StockPage.js:86-95 | A value of magnitude m is shown as "$", its quotient by m's divisor to 2 decimals, and m's suffix. Below 1e3 it is shown unscaled with no suffix. |
| Formatters.ScaledValueRange | src/pages/StockPage.js:90-93 | The exact quotient n / divisor, before rounding, is at least 1, and below 1000 for every suffix except T. The figure shown after rounding to two places runs from 1.00 to 1000.00 inclusive at K, M and B. |
| Formatters.ThousandBelowNextScale | src/pages/StockPage.js:86-95 | 999999 is shown as "$" + toFixed(999.999, 2) + "K", and that `toFixed` rounds up to 100000 hundredths and reads "1000.00". So the page shows "$1000.00K": the letter is chosen before rounding. |
| Formatters.FormatBillion | src/pages/StockDetails.js:54-57 | "N/A" exactly for a missing value. Otherwise "$", then the value divided by 1e9 as fixed-point text with 2 decimals (signed exactly for negatives, rounded half up, no leading zero), then "B". This holds at every magnitude. |
| Formatters.FormatBillionAgreesWithLarge | src/pages/StockDetails.js:54-57 | For values in [1e9, 1e12) the billion formatter and the magnitude formatter agree. |
| Formatters.FormatPercent | src/pages/StockPage.js:98-101 | "N/A" exactly for a missing value. Otherwise the value times 100 to 2 decimals, followed by "%". |
| Formatters.PercentLabel | src/pages/StockPage.js:233 | The chip's percentage ends in "%". Before it is the value, unscaled, to 2 decimals: a "-" exactly for a negative value and no leading zero. A missing value shows "N/A%". |
| Formatters.PercentOfFraction | src/pages/StockPage.js:98-101 | A fraction shown by `formatPercent` reads the same as its hundredfold on the change chip. |
| Formatters.SignPrefix | src/pages/StockPage.js:227 | The prefix is "+" exactly when `(change \|\| 0) >= 0`, and empty otherwise. |
| Formatters.ChangeLabel | src/pages/StockPage.js:233 | The chip is the sign, then the change's `formatNumber` figure, then " (", the percentage as given (not scaled) with "%", and ")". The sign is "+" exactly for a gain, a missing change included, and the chip starts with "-" exactly for a present negative change. It never shows "+-". |
| Formatters.GetIndexName | src/components/MarketOverview.js:99-110 | ^GSPC, ^IXIC and ^DJI get a display name different from the symbol. Every other symbol is returned unchanged. |
| Formatters.IndexNamesDistinct | src/components/MarketOverview.js:99-110 | The three known indices have three different display names. |
| Formatters.TextOr | src/pages/StockPage.js:194-205 | `text \|\| fallback`: the text when it is present and non-empty, otherwise the fallback. |
| Api.ApiBase | src/pages/StockPage.js:35-37 | The configured URL when it is set and non-empty, otherwise the fixed default host. |
| Api.StockUrl | src/pages/StockPage.js:56 | The request URL is the base, then "/api/stock/", then the symbol. |
| Api.StockUrlInjective | src/pages/StockPage.js:56 | Two stock requests to one host differ exactly when their symbols do. |
| Api.MarketOverviewUrl | src/components/MarketOverview.js:40 | The URL is the base, then "/api/market/overview?t=", then the timestamp written in decimal. |
| Api.MarketOverviewUrlDistinct | src/components/MarketOverview.js:39-40 | Different timestamps give different URLs. |
| Api.StockPath | src/pages/Home.js:51 | The path is "/stock/" followed by the symbol. |
| Api.RouteSymbol | src/App.js:122 | For a path of the form "/stock/" followed by one segment with no "/", "?", "#" or "%", the route yields that segment as the `symbol` parameter. These are the only paths the pages build. |
| Api.RouteRoundTrip | src/App.js:122 | Navigating to a stock's path yields that same symbol as the route parameter. |
| Api.Precedence | src/pages/StockPage.js:103-176 | The spinner exactly while loading. Then the error exactly when one is set, showing its text. Then "no data" exactly without data. Then the content. |
| MarketOverviewPanel.FailureMessage | src/components/MarketOverview.js:57-66 | Offline, the fixed offline sentence. Online, "Failed to fetch market data", then ": " and the message when there is one, then the status note exactly when a response exists. It is the bare prefix when there is neither. |
| MarketOverviewPanel.FailureMessageShowsDetail | src/components/MarketOverview.js:58-60 | A non-empty rejection message follows the prefix, after ": ". |
| MarketOverviewPanel.FailureMessageShowsStatus | src/components/MarketOverview.js:61-63 | A known status ends the message as " (Status: <code>)". |
| MarketOverviewPanel.FailureMessageStatusInjective | src/components/MarketOverview.js:61-63 | Different statuses give different messages. |
| MarketOverviewPanel.OfflineIgnoresDetails | src/components/MarketOverview.js:64-66 | Offline, the message does not depend on the rejection. |
| MarketOverviewPanel.CardOf | src/components/MarketOverview.js:203-242 | A card shows the index's display name. It is "Data unavailable" exactly for a flagged row. Otherwise it shows `formatNumber` of the price, the change chip of the change and percentage, and the gain colour `(change \|\| 0) >= 0`. |
| MarketOverviewPanel.Cards | src/components/MarketOverview.js:185-247 | One card per row, in order. |
| MarketOverviewPanel.PanelOf | src/components/MarketOverview.js:118-182 | The spinner exactly while loading. Otherwise the warning exactly when an error is set, showing the error's text, above one card per row in order. |
| MarketOverviewPanel.FailurePanel | src/components/MarketOverview.js:70-75 | After a failure the panel shows the message and three unavailable cards: S&P 500, NASDAQ and DOW. |
| MarketOverviewPanel.MarketOverview.constructor | src/components/MarketOverview.js:26-30 | Mounting starts empty and loading at retry 0, with a 3000 ms timer that captured no error. |
| MarketOverviewPanel.MarketOverview.RunEffect | src/components/MarketOverview.js:82-96 | The effect starts a request. Below three retries it arms a timer with delay 3000·(count+1) that captures the current error. At three it arms none. |
| MarketOverviewPanel.MarketOverview.FetchMarketData | src/components/MarketOverview.js:32-49 | The start of a fetch: loading on, error cleared, the timestamped URL requested. The data, the retry count and the timer are unchanged. |
| MarketOverviewPanel.MarketOverview.Settle | src/components/MarketOverview.js:50-78 | Success stores the payload verbatim and keeps the error. Failure sets the message and the three placeholders. Loading is off either way. |
| MarketOverviewPanel.MarketOverview.FireTimerAsWritten | src/components/MarketOverview.js:87-93 | As written: a retry is counted exactly when the error captured by the callback is set. A retry keeps the rows, clears the error and turns loading on. Below three retries it arms the next timer, which captured no error (batched updates, see "React scheduling"); at three it arms none. Without a retry the timer is gone and nothing else changes. A timer that captured no error never retries. |
| MarketOverviewPanel.MarketOverview.FireTimer | src/components/MarketOverview.js:87-93 | As intended: a retry is counted exactly when an error is currently shown. A retry keeps the rows, clears the error and turns loading on. Below three retries it arms the next timer with the next delay; at three it arms none. Without a retry the timer is gone and nothing else changes. |
| MarketOverviewPanel.MarketOverview.Retry | src/components/MarketOverview.js:82-97 | The callback's retry: the count goes up by one and a request starts. Then the effect for the new count runs, starts a request and arms a timer that captured the error just cleared, with the callback's updates batched. It keeps the rows. |
| MarketOverviewPanel.MarketOverview.View | src/components/MarketOverview.js:118-248 | The spinner exactly while loading. Otherwise the warning exactly when an error is set, showing the error's text, and the cards of the current rows in order. |
| MarketOverviewPanel.AutoRetryAsWritten | src/components/MarketOverview.js:82-97 | As written, a failing panel never retries automatically and is left with no timer. |
| MarketOverviewPanel.AutoRetrySchedule | src/components/MarketOverview.js:85-93 | As intended, a failing panel retries after 3000, 6000 and 9000 ms, then stops with three retries and no timer. |
| StockPageView.StockFailureMessage | src/pages/StockPage.js:64 | "Failed to fetch stock data: " followed by the rejection's message, or "Unknown error" when it is empty. |
| StockPageView.StockFailureMessageInjective | src/pages/StockPage.js:64 | Different non-empty rejection messages give different error texts. |
| StockPageView.OverviewOf | src/pages/StockPage.js:194-423 | The route symbol stands in for a missing name or symbol, and "N/A" for missing sector, industry, location and exchange. The price is "$" plus `formatNumber`. The chip is the change chip, and the gain colour is `(change \|\| 0) >= 0`. Market cap and revenue use `formatLargeNumber`, forward P/E uses `formatNumber`, and the 52-week change, profit margin, return on equity and dividend yield use `formatPercent`. The website link appears exactly when the website is truthy. |
| StockPageView.ZeroFiguresShown | src/pages/StockPage.js:279 | A zero market cap or revenue is shown as an amount, not "N/A". |
| StockPageView.StockPage.constructor | src/pages/StockPage.js:43-47 | Mounting starts loading with no data and no error. |
| StockPageView.StockPage.FetchStockData | src/pages/StockPage.js:51-56 | The start of a fetch: loading on, error cleared, the stock's URL requested, and the data kept. |
| StockPageView.StockPage.ChangeSymbol | src/pages/StockPage.js:75-77 | A new route symbol starts a fetch of that symbol. |
| StockPageView.StockPage.Settle | src/pages/StockPage.js:57-71 | Success stores the profile. Failure sets the message and keeps the old data. Loading is off either way. |
| StockPageView.StockPage.Screen | src/pages/StockPage.js:103-176 | The spinner exactly while loading. Then the error view exactly when an error is set, showing its text. Then "no data" exactly when no profile is held. |
| StockPageView.StockPage.NoDataText | src/pages/StockPage.js:164 | The "no data" view reads "No data available for " followed by the route's symbol. |
| StockPageView.FailureHidesOldData | src/pages/StockPage.js:113-151 | A failure after a success shows the error view while the old data is still held. |
| StockDetailsView.MarketCapCell | src/pages/StockDetails.js:136 | "N/A" exactly for a falsy market cap (missing or zero). Otherwise in billions. |
| StockDetailsView.DividendCell | src/pages/StockDetails.js:160 | "N/A" exactly for a falsy yield (missing or zero). Otherwise as a percentage. |
| StockDetailsView.ZeroGuardedAndUnguarded | src/pages/StockDetails.js:184 | A zero market cap or yield shows "N/A", but a zero revenue shows "$0.00B". |
| StockDetailsView.CountIsNotNotAvailable | src/pages/StockDetails.js:263 | A written-out count never reads "N/A". |
| StockDetailsView.RowOf | src/pages/StockDetails.js:262-263 | The rating falls back to "N/A". The count is "N/A" exactly when it is missing or 0. |
| StockDetailsView.RowsOf | src/pages/StockDetails.js:260-265 | One row per recommendation, in order. |
| StockDetailsView.RecommendationsTable | src/pages/StockDetails.js:248-269 | "No recommendations available" exactly for a missing or empty list. Otherwise one row per entry, in order. |
| StockDetailsView.DetailsOf | src/pages/StockDetails.js:89-274 | The title is "<name> (<symbol>)", each falling back to the route's symbol. The classification is sector and industry, falling back to "N/A", around the mis-decoded bullet. The price is "$" plus `formatNumber`. The chip is the change chip, and the gain colour is `(change \|\| 0) >= 0`. Market cap and yield use the guarded cells. Forward P/E uses `formatNumber`, and operating margin and return on equity use `formatPercentage`. Revenue and net income are always in billions. Location and exchange fall back to "N/A". The website shows exactly when it is truthy. The recommendations follow the table rule. |
| StockDetailsView.StockDetails.constructor | src/pages/StockDetails.js:24-28 | Mounting starts loading with no data and no error. |
| StockDetailsView.StockDetails.ChangeSymbol | src/pages/StockDetails.js:30-45 | A new symbol is requested without turning the spinner on or clearing the error. |
| StockDetailsView.StockDetails.Settle | src/pages/StockDetails.js:32-41 | Success stores the profile. Failure sets the fixed message. Loading is off either way. An error once set stays set. |
| StockDetailsView.StockDetails.RequestUrl | src/pages/StockDetails.js:33 | The request goes to "http://localhost:5000", then "/api/stock/", then the current symbol. |
| StockDetailsView.StockDetails.Screen | src/pages/StockDetails.js:65-87 | The spinner exactly while loading. Then the error exactly when one is set. Then "no data" exactly when no profile is held. |
| StockDetailsView.ErrorIsSticky | src/pages/StockDetails.js:30-79 | After one failure, a later symbol change and success still show the error. |
| StockDetailsView.NoSpinnerAfterSymbolChange | src/pages/StockDetails.js:30-71 | After the first answer, a symbol change does not bring the spinner back. |
| HomeView.HandleStockClick | src/pages/Home.js:50-52 | The path opened is "/stock/" followed by the clicked symbol. |
| HomeView.StockClickRoundTrip | src/pages/Home.js:50-52 | A click on a symbol that is one route segment lands on that symbol's page. |
| HomeView.FeaturedLinksRoundTrip | src/pages/Home.js:87-90 | Every featured card opens its own stock's page. |
| HomeView.IndexCardOf | src/pages/Home.js:120-145 | A card shows the index's display name. The price is `formatNumber` of the price, so "N/A" exactly when it is missing. The chip is the change chip, and the colour is `(change \|\| 0) >= 0`. |
| HomeView.Home.constructor | src/pages/Home.js:29-31 | Mounting starts loading with no data and no error. |
| HomeView.Home.Settle | src/pages/Home.js:34-45 | Success stores the rows. Failure sets the fixed message and makes up no rows. Loading is off either way. |
| HomeView.Home.RequestUrl | src/pages/Home.js:36 | The request goes to "http://localhost:5000" then "/api/market/overview", with no query string, so there is no cache-busting timestamp. |
| HomeView.Home.Screen | src/pages/Home.js:110-118 | The spinner exactly while loading. Then the error exactly when one is set, showing its text. Then "No market data available" exactly for a missing or empty list. |
| HomeView.FailedLoad | src/pages/Home.js:110-117 | A failed load shows the error with no rows behind it. |
| HomeView.EmptyAnswer | src/pages/Home.js:116-117 | An empty answer shows "No market data available". |
| StockSearchBox.Filter | src/components/StockSearch.js:40-43 | Exactly the matching entries, kept in their original order. Each matching entry occurs as often as in the input, duplicates included. |
| StockSearchBox.Suggest | src/components/StockSearch.js:38-48 | No suggestions below two characters. Otherwise exactly the matching stocks, in list order. |
| StockSearchBox.FilterSameLower | src/components/StockSearch.js:41-42 | The filter depends on the typed text only through its lower-cased form. |
| StockSearchBox.SuggestCaseInsensitive | src/components/StockSearch.js:41-42 | Typing in capitals suggests the same stocks. |
| StockSearchBox.SymbolSuggestsItself | src/components/StockSearch.js:40-43 | Typing a listed symbol in full, in any case, suggests that stock. |
| StockSearchBox.MatchesOwnSymbol | src/components/StockSearch.js:41-42 | Text equal to an entry's symbol, ignoring case, matches that entry. |
| StockSearchBox.SubmittedSymbol | src/components/StockSearch.js:53-54 | Empty exactly for a blank query. It is the upper-casing, character by character, of a prefix of the query with its leading white space removed. It has no lower-case letters and no white space at either end. |
| StockSearchBox.SubmittedSymbolLength | src/components/StockSearch.js:53-54 | The submitted symbol is as long as the trimmed query, and only white space follows it in the query. So it is the whole trimmed query, upper-cased. |
| StockSearchBox.SubmittedSymbolIsUpper | src/components/StockSearch.js:54 | Upper-casing the submitted symbol again changes nothing. |
| StockSearchBox.SubmitReachesStockPage | src/components/StockSearch.js:54 | A non-blank query without '/', '?', '#' or '%' reaches the stock page as exactly the submitted symbol. |
| StockSearchBox.StockSearch.constructor | src/components/StockSearch.js:29-30 | The box starts empty with no suggestions. |
| StockSearchBox.StockSearch.HandleSearch | src/components/StockSearch.js:34-49 | The box holds the typed value and its suggestions. |
| StockSearchBox.StockSearch.HandleSubmit | src/components/StockSearch.js:51-58 | A blank query changes nothing and opens nothing. Otherwise it opens "/stock/" plus the submitted symbol and clears the box. |
| StockSearchBox.StockSearch.HandleSuggestionClick | src/components/StockSearch.js:61-65 | It opens "/stock/" plus the symbol as listed and clears the box. |
| StockSearchBox.TypeAndSubmit | src/components/StockSearch.js:51-58 | Typing non-blank text and submitting opens its page and leaves an empty box with no suggestions. |
| StockSearchBox.SubmitBlank | src/components/StockSearch.js:53 | Submitting blank text opens nothing and keeps the text. |

## Left out

- **The network.** `axios.get`, its headers and the 15-second timeout are not modelled. A request's outcome is an input of `Settle`. `navigator.onLine` is a boolean parameter.
- **The clock.** The cache-busting timestamp is a parameter. Timer delays are recorded, not waited for.
- **`Math.random` keys and logging.** The `Math.random` list keys and every `console.log`/`console.error` call are not modelled.
- **React scheduling.** When the market panel's timer retries, the callback and the re-run effect each start a request (`Retry`). The model records these starts, but not the two answers racing each other. Each scenario settles one request at a time. The callback's state updates are taken to be applied together before the effect re-runs, as a batching React root does. `src/index.js` mounts the app with the legacy `ReactDOM.render`, which does not batch updates made inside a timer. There the effect may run before `setError(null)` and capture the old error.
- **Floating point.** Numbers are exact reals, so binary floating-point rounding in `toFixed` and in the divisions by 1e3 to 1e12 is not modelled. Neither is the exponent form `toFixed` uses from 1e21 upwards, nor NaN or Infinity.
- Api.RouteSymbol: covers only paths of the form "/stock/<segment>", which are the only ones the pages build. React Router v6 also matches a trailing slash, matches case-insensitively by default, and percent-decodes the parameter, so a segment holding "%41" reaches the page as "A"; none of this is modelled, and segments holding "%" are left out of `IsRouteSegment`, `RouteRoundTrip` and `StockSearchBox.SubmitReachesStockPage`.
- JsBuiltins.ToLower: maps ASCII letters only, because the full Unicode case tables are out of scope.
- JsBuiltins.ToUpper: maps ASCII letters only, for the same reason.
- **Recommendation counts.** They are integers. A fractional count, which the back end does not send, is not modelled.
- **Layout and colour.** JSX layout, styling, icons and the colour of the profit-margin, return-on-equity and dividend-yield cells are not modelled. The pages' own text and figures are.
- **Presentation and shell files.** `src/App.js` (beyond the `/stock/:symbol` route), `src/index.js`, `src/setupProxy.js`, `src/components/Navbar.js`, `src/components/SimpleNavbar.js`, `src/pages/HomePage.js` and `src/pages/Test.js` hold no logic of their own and are not part of this model.

## Findings

| source | as written | input that shows it | evidently intended | confidence | as-written member | corrected member |
|---|---|---|---|---|---|---|
| src/components/MarketOverview.js:87-93 | The timer's callback tests `error` as it was when the effect ran. On mount that is `null`, so every callback finds no error: the retry count stays 0 and no automatic retry happens. | Any failing first request: the panel mounts, the request fails, and the 3000 ms timer fires with `retryCount` still 0. | Retry after 3, 6 and 9 seconds while an error is shown, up to three retries. | not executed | MarketOverviewPanel.AutoRetryAsWritten | MarketOverviewPanel.AutoRetrySchedule |
