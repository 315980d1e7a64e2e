# Loan applications listing: pagination controller and endpoint configuration

This project models the core of a small browser UI that lists loan
applications fetched page by page from a REST endpoint.

- The listing component (`src/Applications.tsx`) is modelled as a state machine.
  - Its state is the accumulated list, `loading`, `error`, `newlyLoadedCount`
    and the pagination `{hasMore, nextPage}`.
  - Its events are mount, Load More, Try Again, the end of a pending request
    and the end of the entrance animation.
  - Each request has two steps. `Fetch` issues it: `loading` is set, the error
    is cleared, and the URL handed to `fetch` is recorded. `Complete` ends it
    with an outcome given as a parameter: an ok response with its records and
    `Link` header, a non-ok status, or a thrown value. So no I/O appears in
    the model.
  - `loading = true` together with a pending `(page, append)` marks the window
    between the two steps.
- The endpoint configuration (`src/config/env.ts`) is a pure function of an
  optional override string.

Modules:

- `Wrappers` (wrappers.dfy): `Option` and `Result`.
- `Text` (text.dfy): the decimal rendering of a page number, its inverse,
  and `includes` substring search.
- `Env` (env.dfy): how the endpoint is resolved, and `getApiEndpoint`.
- `Protocol` (protocol.dfy): the request URL `<endpoint>?_page=<N>&_limit=5`,
  its parser, and the `rel="next"` check on the `Link` header.
- `Applications` (applications.dfy): the records, the state, the transitions,
  and the state invariant `Valid`.
- `View` (view.dfy): the render conditions, as a `Screen` value.
- `Pagination` (pagination.dfy): properties over several events. Load More
  rounds concatenate pages, a retry starts over, and two scenarios come from
  the component's tests.

The controller takes the configured endpoint string as a parameter. If it is
empty, the request ends at once with the configuration error, as in the
source, where `getApiEndpoint()` is called inside the `try`. `Env` proves
that the resolved configuration is never empty, so that path is never taken.

Behaviour of the code that a reader might not expect, which the model follows:

- A failed Load More keeps the records already loaded. The list and the
  pagination are untouched on every failure.
- `nextPage` becomes the requested page + 1 after every ok response, whether
  or not a next page was announced.
- The error view is chosen by JavaScript truthiness. An `Error` thrown with
  an empty message is stored, but the list stays on screen
  (`View.EmptyErrorMessageKeepsList`).
- Try Again does not reset `newlyLoadedCount`. The next successful
  replace-mode response sets it to 0.

## Model

| member | source | states |
|---|---|---|
| Text.NatToDecimal | src/Applications.tsx:40 | a page number prints as a canonical decimal numeral: at least one digit, all digits, and a leading zero only for 0 |
| Text.DecimalRoundTrip | src/Applications.tsx:40 | reading back the printed page number gives the page |
| Text.CanonicalRoundTrip | src/Applications.tsx:40 | every canonical numeral is the printing of exactly one number, so printing is a bijection onto canonical numerals |
| Text.Includes | src/Applications.tsx:52 | the left-to-right scan answers true exactly when the marker occurs at some index of the header |
| Protocol.RequestUrl | src/Applications.tsx:39-41 | the request URL starts with the endpoint followed by `?_page=`, ends with `&_limit=5`, and has a canonical page numeral between them |
| Protocol.RequestUrlRoundTrip | src/Applications.tsx:39-41 | parsing the URL requested for page N gives back N |
| Protocol.ParsedUrlIsRequestUrl | src/Applications.tsx:39-41 | any URL that parses as page N is exactly the request URL of page N |
| Protocol.RequestUrlInjective | src/Applications.tsx:39-41 | different pages are requested through different URLs |
| Protocol.HasNextPage | src/Applications.tsx:50-53 | a next page is announced iff the `Link` header is present and `rel="next"` occurs in it; a missing or empty header means no |
| Protocol.NextLinkDetected | src/Applications.test.tsx:57-62 | the header the tests' endpoint sends is read as announcing a next page; a response without the header is not |
| Env.ResolveEndpoint | src/config/env.ts:1-7 | the endpoint is the override when that is a non-empty string, otherwise `http://localhost:3001/api/applications`; it is never empty |
| Env.GetApiEndpoint | src/config/env.ts:9-19 | throws exactly when the configured value is empty, with the fixed message; otherwise returns the value unchanged |
| Env.GetApiEndpointNeverThrows | src/config/env.ts:3-16 | for every override, `getApiEndpoint` returns the resolved endpoint, so its throw is unreachable |
| Env.DefaultWithoutOverride | src/config/env.test.ts:21-30 | with no override, or an empty one, the endpoint is the default URL |
| Applications.InitialState | src/Applications.tsx:26-33 | the initial state is valid: empty list, not loading, no error, count 0, pagination `{true, 1}` |
| Applications.Merge | src/Applications.tsx:55-65 | append mode keeps the previous records as the prefix and the page as the suffix, with lengths adding up; replace mode yields exactly the page |
| Applications.Fail | src/Applications.tsx:70-79 | a failure records the message and ends loading; the list, the pagination and the count are untouched |
| Applications.Fetch | src/Applications.tsx:35-41 | issuing a request sets `loading`, clears the error and fetches the page's request URL, without touching data; an empty endpoint ends it at once with the configuration error |
| Applications.Complete | src/Applications.tsx:43-79 | an ok response sets `hasMore` from the `Link` header and `nextPage` to the page + 1, then appends (count = page size) or replaces (count 0); a non-ok status or a throw sets the matching message and leaves the data as it was; `loading` ends either way |
| Applications.NotOkIsThrownError | src/Applications.tsx:43-76 | a non-ok status behaves exactly like a thrown `Error("Failed to fetch applications")` |
| Applications.Mount | src/Applications.tsx:98-100 | mounting fetches page 1 once, in replace mode, from the initial state |
| Applications.LoadMore | src/Applications.tsx:82-86 | while loading or with no next page the state is unchanged and nothing is fetched; otherwise `nextPage` is fetched in append mode; the list, the pagination and the newly loaded count are kept |
| Applications.AnimationDone | src/Applications.tsx:57-59 | the timer callback after an appended page clears the newly loaded count and changes nothing else in the state |
| Applications.Retry | src/Applications.tsx:88-96 | from any state the list is emptied, the pagination reset to `{true, 1}`, the error cleared and page 1 fetched in replace mode; the newly loaded count is left as it was |
| Applications.ApplyPreservesValid | src/Applications.tsx:35-100 | every event keeps the invariant: `loading` iff a request is pending, no error while loading, pages numbered from 1 |
| Applications.RunPreservesValid | src/Applications.tsx:35-100 | every event sequence keeps the invariant, and every URL it fetches is the request URL of some page numbered from 1 |
| View.Render | src/Applications.tsx:102-143 | the error view appears iff the error is a non-empty string, and it hides the list and Load More; otherwise all records are shown in order, Load More iff `hasMore` and not loading, the loading indicator iff loading into an empty list, and a row is flagged iff it is among the last `newlyLoadedCount` |
| View.FlaggedRowsAreSuffix | src/Applications.tsx:110-112 | the flagged rows form a suffix of the list |
| View.AppendFlagsExactlyNewPage | src/Applications.tsx:55-124 | after an appended page arrives, exactly the page's records are flagged, and they follow the earlier records |
| View.FailureShowsErrorView | src/Applications.tsx:70-105 | a failed request shows the error view, except an `Error` thrown with an empty message, and the records and pagination are kept underneath |
| View.EmptyErrorMessageKeepsList | src/Applications.tsx:72-105 | an `Error` with an empty message does not bring up the error view; the list stays, with Load More when a next page is known |
| View.RetryShowsInitialLoading | src/Applications.tsx:88-139 | after Try Again the screen is the loading indicator, with no records and no Load More |
| View.AnimationEndClearsFlags | src/Applications.tsx:57-59 | when the entrance animation ends no row is flagged, and nothing else on screen changes: the same records in the same order with the same Load More and loading indicators, or the same error view |
| Pagination.LoadMoreRound | src/Applications.tsx:82-86 | one Load More round from an idle state fetches `nextPage`, appends its records, advances the cursor by one and leaves no error; the idle state may hold an empty error message, which keeps Load More on screen |
| Pagination.LoadMoreRoundsConcatenate | src/Applications.tsx:55-69 | after k Load More rounds with ok responses, the list is the earlier list followed by the k pages in request order, pages nextPage … nextPage+k−1 were fetched in that order, and the cursor advanced by k; this holds also from a state holding an empty error message, and no error is left after the first round |
| Pagination.RetryThenSuccessShowsFirstPage | src/Applications.tsx:88-96 | an ok response after a retry shows exactly that page's records, with the cursor on page 2 and no error |
| Pagination.RetryRestartsAtFirstPage | src/Applications.tsx:88-96 | when the retry handler is called as a function after k Load More rounds, the fetches are pages nextPage … nextPage+k−1 and then page 1; the list is empty, the pagination is `{true, 1}`, page 1 is pending in replace mode, and the last page's newly loaded count survives |
| Pagination.FailedLoadMore | src/Applications.tsx:43-79 | after k Load More rounds, one more round with a non-ok response fetches the next page, brings up the error view with the fixed message, and keeps the k pages' records and the cursor underneath |
| Pagination.FailedLoadMoreThenRetry | src/Applications.tsx:88-105 | a session on screen: k rounds, a failed round whose error view offers Try Again, then Try Again; the fetches are the k+1 pages in order then page 1, the list is empty, the pagination `{true, 1}`, no error, and page 1 pending in replace mode |
| Pagination.FirstPageUrl | src/Applications.test.tsx:79-81 | page 1 of the default endpoint is fetched as `http://localhost:3001/api/applications?_page=1&_limit=5` |
| Pagination.SecondPageUrl | src/Applications.test.tsx:170-173 | page 2 of the default endpoint is fetched as `http://localhost:3001/api/applications?_page=2&_limit=5` |
| Pagination.LoadMoreScenario | src/Applications.test.tsx:122-177 | page 1 with a next link shows Load More; page 2 without one appends a third record in order, and Load More disappears; the two fetches carry the literal page 1 and page 2 URLs |
| Pagination.RetryScenario | src/Applications.test.tsx:239-279 | a thrown error shows its message; Try Again fetches the literal page 1 URL again, and its records replace the error view |

## Left out

- Date formatting (`src/utils/date.ts`) and amount formatting (`src/SingleApplication.tsx`) are left out. They rely on the JavaScript `Date` and locale runtime.
- The error banner (`src/ErrorMessage.tsx`) is left out beyond its role in `View.Render`. Its icon, title and default text are presentation only.
- `fetch`, JSON parsing and `console.error` logging are left out. A response is modelled by its outcome: records and `Link` header, non-ok, or a thrown message. A body that fails to parse is a thrown message.
- React hook scheduling and re-rendering are left out. Each event applies its state updates in one step.
- The 1000 ms timer that clears `newlyLoadedCount` becomes an `AnimationEnded` event with no timing. The fractional `animationDelay` (index × 0.1) is left out.
- Stale responses are left out: requests are serialised. Issuing a request replaces the pending one, so a response to a superseded request is never applied. A completion with nothing pending changes nothing.
- Page numbers are unbounded natural numbers. In the source `page` is a JavaScript number. It starts at 1 and only ever gains 1, so it is never negative or fractional. The model also assumes every page stays below 2^53. Below that bound `page + 1` is exact in floating point, and `${page}` prints the canonical decimal numeral. That numeral is what `Text.NatToDecimal` produces. From 2^53 on, `nextPage` would stop advancing. From 10^21 on, the URL would carry exponent notation such as `1e+21`.
- `Protocol.NextLinkDetected`: only the positive header and the absent header are checked on concrete strings. The general rule is `Protocol.HasNextPage`.
- The ambient `import.meta.env` read (`vite-env.d.ts`) is modelled as the optional override parameter of `Env.ResolveEndpoint`.
