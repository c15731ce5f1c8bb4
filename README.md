# News feed state machine

A model of the `News` component of a React news-reading app. The component shows the top headlines of one category. It fetches them page by page from a news API and appends each new page as the reader scrolls.

The network is abstracted away. Each operation takes the response to the request it issues, as a value: a rejected `fetch`, or an HTTP reply with a status code and a body. The body is either a rejected `response.json()` or the parsed fields `status`, `message`, `articles` and `totalResults`, each of which may be absent. With that, both operations are deterministic state transitions.

- `options.dfy`, module `Options`: `Option` (JavaScript's null or undefined) and `Result` (a value, or the message of the thrown `Error`).
- `news_data.dfy`, module `NewsData`: article records, responses, props, the state record and its initial value. It also holds `Settle`, the checks both loaders run on a response (stated by the lemma `SettleCases`): fetch rejected, `response.ok`, body parse, body `status === "ok"`. `Settle` decides what error message is thrown. The message `"HTTP error! status: " + status` is modelled with a decimal printer that is proved to read back to the status.
- `news_view.dfy`, module `NewsView`: `capitalizeFirstLetter`, the document title, the props each `NewsItem` card receives, `hasMore`, and which of the four views `render` returns.
- `news_feed.dfy`, module `NewsFeed`:
  - The class `News`, with fields `articles`, `loading`, `page`, `totalResults` and `error`, plus `progress`, the values passed to `setProgress`.
  - `updateNews` is split at its first `await`. `BeginUpdate` reports 10, issues the request and sets `loading` while clearing the error. `FinishUpdate` takes the response, runs the checks of the `try` block with their progress reports (the method `TryLoad`), then the `catch` and `finally`. `UpdateNews` is the two in a row. A ghost field `inFlight` marks the state in between, when the component renders with `loading` set. `FetchMoreData` models `fetchMoreData`. `updateNews` asks for the current page, `this.state.page`, which is page 1 only until a scroll load has succeeded.
  - Each method is proved against a specification function: `Begun`, `Finished`, `AfterUpdate`, `UpdateTrace` or `AfterFetchMore`.
  - Lemmas relate several operations: append-only scrolling, Retry after a failed scroll, scroll termination, and the view after a load.
- `news_scenarios.dfy`, module `NewsScenarios`: client methods that page a technology feed of 12 results in pages of 5, and that fail the first load with HTTP 401 and with a rejected API key, and that watch a Retry while it awaits its reply.

## Model

| member | source | states |
|---|---|---|
| `NewsData.ResolveProps` | src/Component/News.js:8-12 | A country, pageSize or category left undefined becomes "in", 8 or "general"; a given prop is kept |
| `NewsData.RequestFor` | src/Component/News.js:41 | A request carries the props' country, category, API key and page size, and the page it is asked for |
| `NewsData.HttpErrorMessage` | src/Component/News.js:48 | The message is "HTTP error! status: " followed by the status printed in decimal |
| `NewsData.Decimal` | src/Component/News.js:48 | The status is printed as a non-empty string of decimal digits with no leading zero |
| `NewsData.DecimalRoundTrip` | src/Component/News.js:48 | Reading back the printed status gives the status again |
| `NewsData.HttpErrorMessageHoldsStatus` | src/Component/News.js:47-48 | The HTTP error message is "HTTP error! status: " followed by digits that denote the status code |
| `NewsData.HttpErrorMessageInjective` | src/Component/News.js:85-86 | Different status codes give different HTTP error messages |
| `NewsData.OrElse` | src/Component/News.js:55 | JavaScript's logical-or default on strings: the value when present and non-empty, otherwise the default |
| `NewsData.IsOk` | src/Component/News.js:47 | `response.ok` holds exactly for a status from 200 to 299 |
| `NewsData.Settle` | src/Component/News.js:44-56 | A response is accepted only as a 2xx reply with a parsed body; a rejected fetch fails with the rejection's own message |
| `NewsData.SettleCases` | src/Component/News.js:44-60 | Success exactly when fetch resolves, the status is 2xx, the body parses and its status is "ok". A non-2xx status fails with "HTTP error! status: N". A rejected fetch or parse fails with its own message. A body error fails with its message, or "News API error" when that is absent or empty. On success, absent articles become [] and an absent total becomes 0 |
| `NewsData.CheckedFailureHasMessage` | src/Component/News.js:47-56 | The errors the component raises itself (HTTP status, body status) always have a non-empty message |
| `NewsView.UpperAscii` | src/Component/News.js:23 | `toUpperCase` on one ASCII character: a-z map to A-Z at the same offset; other characters are unchanged |
| `NewsView.Capitalize` | src/Component/News.js:22-24 | Length is kept, the first character is upper-cased and no longer lower-case, and every later character is unchanged; "" stays "" |
| `NewsView.CapitalizeIdempotent` | src/Component/News.js:22-24 | Capitalising twice is the same as capitalising once |
| `NewsView.Title` | src/Component/News.js:35 | The document title is the capitalised category followed by " - NewsMonkey" |
| `NewsView.Heading` | src/Component/News.js:140 | The heading is "NewsApp - Top ", the capitalised category, then " Headlines" |
| `NewsView.SourceName` | src/Component/News.js:160 | `source?.name`: absent when the article has no source object, otherwise that object's name, itself possibly absent |
| `NewsView.CardOf` | src/Component/News.js:153-161 | A missing title or description becomes "". A missing or empty source name becomes "Unknown", so the source is never empty. Image, link, author and date are passed through |
| `NewsView.Cards` | src/Component/News.js:151-163 | One card per article, in list order |
| `NewsView.HasMore` | src/Component/News.js:146 | More is offered exactly when the list is shorter than totalResults, so a total of 0 or a full list offers none |
| `NewsView.IsTruthy` | src/Component/News.js:109 | An error counts as set exactly when it is a non-empty string; null and "" do not |
| `NewsView.Render` | src/Component/News.js:107-146 | Exactly one view, in priority order. A truthy error selects the error view with that message. Loading with an empty list selects the spinner. Not loading with an empty list selects "No Articles Found". Otherwise the list is shown, with hasMore exactly when the list is shorter than totalResults |
| `NewsView.ErrorHidesArticles` | src/Component/News.js:109-122 | With an error set, adding articles does not change the view |
| `NewsFeed.Begun` | src/Component/News.js:42 | While a load awaits its reply, loading is set and the error is cleared; articles, page and total are kept |
| `NewsFeed.Finished` | src/Component/News.js:58-69 | Once the reply is judged, loading is false and page kept. On success, articles and totalResults take the page's values and error is left as it was. On failure, articles are emptied, error is the thrown message and totalResults is kept |
| `NewsFeed.AfterUpdate` | src/Component/News.js:42-69 | `page` is unchanged and loading is false. On success, articles and totalResults are replaced by the page's values and error is null. On failure, articles are emptied, error is the thrown message and totalResults is unchanged |
| `NewsFeed.UpdateTrace` | src/Component/News.js:39-72 | Progress starts at 10, stays within 0..100 and ends at 100. It is [10, 30, 70, 100] on success and [10, 100] when fetch rejects |
| `NewsFeed.UpdateTraceRises` | src/Component/News.js:39-72 | Within one load, each reported value is larger than the one before |
| `NewsFeed.TryLoad` | src/Component/News.js:44-62 | The awaited part of the try block, step by step. It throws exactly when `Settle` fails, with `Settle`'s message, and otherwise yields `Settle`'s page. The values it reports are `UpdateTrace` without its first 10 and its final 100 |
| `NewsFeed.NextPage` | src/Component/News.js:81 | A scroll load asks for the page after the last one loaded |
| `NewsFeed.AfterFetchMore` | src/Component/News.js:79-104 | `loading` is unchanged. On success, the old articles are followed by the page's, page becomes page + 1, totalResults is updated and error is kept. On failure, only error changes |
| `NewsFeed.UpdateNeverAppends` | src/Component/News.js:58-62 | After a successful load, the list does not depend on the articles held before |
| `NewsFeed.UpdateIdempotent` | src/Component/News.js:58-69 | Loading again with the same response gives the same state |
| `NewsFeed.RetryAfterFailedScroll` | src/Component/News.js:79-104 | A failed scroll keeps the page, so Retry re-requests the last loaded page, one below the page that failed. On success only that page's articles remain |
| `NewsFeed.RunFetchMoreAppends` | src/Component/News.js:95-99 | After any run of scroll loads, the articles are the old list followed by each successful page in order. The page has advanced once per success, and loading is unchanged |
| `NewsFeed.ErrorSticksWhileScrolling` | src/Component/News.js:95-103 | Scroll loads never clear an error |
| `NewsFeed.ScrollTerminates` | src/Component/News.js:143-146 | If every page brings at least one article and the same total, enough loads to reach the total make hasMore false |
| `NewsFeed.UpdateSelectsView` | src/Component/News.js:109-135 | After a load that failed with a non-empty message, the error view shows it. After a successful load, the view is "No Articles Found" or the list, never the spinner |
| `NewsFeed.CheckedFailureShowsError` | src/Component/News.js:47-56 | A load that fails on an HTTP status or on the body's status always ends in the error view, showing the thrown message |
| `NewsFeed.AwaitingUpdateView` | src/Component/News.js:42 | While a load awaits its reply, an empty list shows the spinner (as on a Retry after a failed load) and a non-empty list stays on screen |
| `NewsFeed.DefaultMount` | src/Component/News.js:8-12 | A component given no country, pageSize or category first requests page 1 of "general" headlines for "in" in pages of 8, titled "General - NewsMonkey" |
| `NewsFeed.BarValue` | src/App.js:16-18 | The bar shows the last reported value, 0 before any; once every cycle has ended it shows 0 or 100 |
| `NewsFeed.News.constructor` | src/Component/News.js:26-36 | Starts with no articles, loading, page 1, totalResults 0, no error and no progress reported |
| `NewsFeed.News.DocumentTitle` | src/Component/News.js:35 | This instance's title is its category capitalised, followed by " - NewsMonkey" |
| `NewsFeed.News.View` | src/Component/News.js:106-146 | What this instance renders, from its own fields: its error when truthy, the spinner while loading an empty list, "No Articles Found" for an empty list otherwise, else its cards under its heading with hasMore exactly when the list is shorter than totalResults |
| `NewsFeed.News.BeginUpdate` | src/Component/News.js:40-42 | Reports 10 and requests the current page. The new state is `Begun` of the old one, and the component is awaiting a reply |
| `NewsFeed.News.FinishUpdate` | src/Component/News.js:44-72 | Runs `TryLoad` on the reply. The new state is `Finished` of the old one, the rest of `UpdateTrace` is reported, the bar ends at 100 and the component no longer awaits |
| `NewsFeed.News.UpdateNews` | src/Component/News.js:38-73 | Requests the current page. The new state is `AfterUpdate` of the old one, and the values in `UpdateTrace` are reported in order, so the bar ends at 100. Keeps the invariant, which holds in every state, awaiting or not: page >= 1; while awaiting, loading is set and the last report is 10; between loads, loading holds exactly until the first load ends and every progress cycle has ended at 100 |
| `NewsFeed.News.FetchMoreData` | src/Component/News.js:79-104 | Requests page + 1. The new state is `AfterFetchMore` of the old one, no progress is reported, whether a load is awaited is unchanged, and the invariant is kept |
| `NewsFeed.News.SpinnerOnlyWhileLoading` | src/Component/News.js:124-126 | The spinner can only show while the list is empty, and only before the first load or while a load awaits its reply |

## Left out

- The `fetch` call, the URL string with the API key, and JSON parsing. The response is an input value. The requested query parameters are returned as a `Request`.
- `componentDidMount` only calls `updateNews`. A client calls `News.UpdateNews` after construction.
- Async interleaving beyond the first `await` of `updateNews`, and responses that arrive after unmount. `fetchMoreData` is atomic. `setState` batching is not modelled: each `setState` takes effect at once.
- `News.BeginUpdate`: requires that no earlier `updateNews` is still awaiting, so two overlapping `updateNews` calls (a Retry pressed twice) are not modelled.
- `News.FinishUpdate`: the reports of 30 and 70 happen together with the final state change. The renders between the two `await`s, where only the bar differs, are not separate states.
- React rendering, JSX markup, the infinite-scroll library's trigger, the `Spinner`/`NewsItem` visuals and `console.error`. Only the chosen view and the card props are modelled.
- The `document.title` write. Only the title string is computed.
- JSON fields of unexpected types: a non-string `message`, a non-array `articles`, a string or non-integer `totalResults`. Fields are either absent or of their expected type.
- A body that parses to `null`. Reading `parsedData.status` then throws a `TypeError` at line 54, after progress 70. The model's parsed body always has fields.
- `NewsView.UpperAscii`: covers ASCII only. Other characters are left unchanged, whereas JavaScript's `toUpperCase` may change them or the string's length.
- src/App.js: the route table, the `LoadingBar` and the API key lookup are UI composition. Its `setProgress` stores only the last value. `NewsFeed.BarValue` models that value, and `News.UpdateNews` ensures it is 100 afterwards. The route table and key lookup are not part of this model.
- That a first page holds `min(pageSize, totalResults)` articles. This is a promise of the news API, not of the component, so nothing is assumed about how many articles a response carries.
