# Currency exchange widget and rate proxy — a verified model

This project models the two parts of the currency-exchange application that
carry logic:

- **The rate proxy** (`GET /api/rates`). It checks for the provider access
  key and asks the provider for EUR-based rates of USD, EUR, CHF, AUD, CAD and
  GBP. It then validates the reply and rebases onto GBP each display currency
  that has a present, non-zero rate, by dividing its EUR rate by the
  EUR-to-GBP rate; the others are omitted. The answer is either
  `{error}` with status 500 or `{base: "GBP", rates}`.
- **The rate widget** (`ExchangeWidget`). It holds four pieces of component
  state: the rows, the last-updated time, the refreshing flag and the error.
  One fetch cycle runs start → begin (clear the error) → success or failure →
  settle. A payload maps to five display rows in fixed order, and a missing
  rate shows as 0.

Files:

- `common.dfy` (module `Common`): `Option`, the display currency list, the
  pivot code GBP, and the shape of a parsed JSON body.
- `rates_route.dfy` (module `RatesRoute`): the handler as a method `Get`,
  with early returns and the rebasing loop. It is proved equal to the
  function `Handle`, and the properties are lemmas about `Handle` and about
  the loop's specification `RebaseOver`.
- `exchange_widget.dfy` (module `ExchangeWidget`): the component state as a
  value `WidgetState`, one function per transition, and lemmas about them.
  The class `Widget` has the four state fields and one method per setter
  sequence; each method is proved to move `State()` exactly as its
  transition function does.
- `end_to_end.dfy` (module `EndToEnd`): the widget fed with the proxy's
  response.

Numbers are `real`. JavaScript truthiness of a rate (`if (eurToCode)`,
`!data.rates.GBP`) is modelled as "present and non-zero". Things that come
from outside the program are inputs, not computations: the
`EXCHANGE_API_KEY` value (an `Option<string>`), the provider's reply, the
proxy's reply to the widget, the current time (`now`, a millisecond
timestamp) and the locale's date rendering (a function parameter of
`FormatTime`).

Decisions about what the code does:

- Rates are not assumed positive. The handler tests only truthiness, so
  negative rates pass, and only an absent or zero GBP rate is rejected.
- The widget accepts any parsed, non-null 2xx body as a success. A body
  without a `rates` object gives five rows of 0.
- The handler's `catch` is reachable in four ways, and each gives "Internal
  server error": `fetch` throws; `res.text()` rejects while the body of a
  non-ok reply is read for the log; `res.json()` throws; or the body is
  `null` (reading `data.rates` then throws).
- `EndToEnd.Deliver` is the transport assumed between the two sides, and
  the end-to-end lemmas rely on it. An error object reaches the widget as a
  non-ok reply. The success object arrives with status 200 as a parsed body
  whose `rates` member is the rebased table.

## Model

| member | source | states |
|---|---|---|
| Common.PivotIsNotDisplayed | src/app/api/rates/route.ts:4 | GBP is not one of the five display currencies |
| RatesRoute.Get | src/app/api/rates/route.ts:6-64 | the handler sends no provider request exactly when the key is unset or empty; otherwise it sends the key, base EUR and the symbol list; its response equals `Handle` on every path, the rebasing loop included |
| RatesRoute.Handle | src/app/api/rates/route.ts:6-72 | every failure has status 500; every success has base GBP, no GBP key, and only display currencies as keys |
| RatesRoute.Rebased | src/app/api/rates/route.ts:47-58 | the rebased table has only display currencies as keys, never GBP; it is defined only when the GBP rate is present and non-zero |
| RatesRoute.RebaseOverCharacterized | src/app/api/rates/route.ts:53-57 | after the loop visits some codes, a code is a key exactly when it was visited and its provider rate is present and non-zero, and its value is that rate over the EUR-to-GBP rate |
| RatesRoute.RebaseOverKeys | src/app/api/rates/route.ts:53-57 | every key the loop inserts is one of the visited codes |
| RatesRoute.MissingKeyError | src/app/api/rates/route.ts:10-15 | the response is "Missing EXCHANGE_API_KEY" with status 500 exactly when the key is unset or empty, whatever the provider would reply |
| RatesRoute.ProviderFailureError | src/app/api/rates/route.ts:27-34 | with a key, the response is "Failed to fetch rates from provider" with status 500, and no rates, exactly when the provider status is not ok and its body text can be read |
| RatesRoute.InternalError | src/app/api/rates/route.ts:25-70 | with a key, the response is "Internal server error" with status 500 exactly when `fetch` throws, `res.text()` rejects on a non-ok reply, `res.json()` throws, or the body is `null` |
| RatesRoute.InvalidBodyError | src/app/api/rates/route.ts:39-45 | with a key, the response is "Provider response invalid (no GBP rate)" with status 500 exactly when a parsed body has no rates table or its GBP rate is absent or zero |
| RatesRoute.SuccessHasNonZeroDivisor | src/app/api/rates/route.ts:39-56 | the handler succeeds exactly when the key is present, the reply is ok, the body has a rates table and its GBP rate is present and non-zero; so the divisor is never zero |
| RatesRoute.SuccessRates | src/app/api/rates/route.ts:50-57 | on success, a code is an output key exactly when it is a display currency with a present, non-zero provider rate; absent and zero rates are omitted; each value is the provider rate divided by the GBP rate |
| RatesRoute.ScaledRatio | src/app/api/rates/route.ts:56 | one scaled rate over the scaled pivot rate equals the unscaled ratio |
| RatesRoute.RebaseOverScaleInvariant | src/app/api/rates/route.ts:53-57 | multiplying every provider rate by one non-zero factor leaves the loop's table unchanged |
| RatesRoute.ScaleInvariant | src/app/api/rates/route.ts:39-64 | multiplying every provider rate by one non-zero factor leaves the whole response unchanged |
| RatesRoute.ConcreteScenario | src/app/api/rates/route.ts:47-64 | provider rates USD 1.10, GBP 0.85, CHF 0.95 give exactly `{base: "GBP", rates: {USD: 1.10/0.85, CHF: 0.95/0.85}}`; EUR, AUD and CAD are absent |
| RatesRoute.SplitJoin | src/app/api/rates/route.ts:21 | splitting a non-empty comma-joined list gives the list back when no item holds a comma |
| RatesRoute.SymbolsText | src/app/api/rates/route.ts:4-21 | the requested symbol list is "USD,EUR,CHF,AUD,CAD,GBP" |
| RatesRoute.RequestUrlText | src/app/api/rates/route.ts:18-23 | the URL `Get` requests is the provider endpoint with the access key, base EUR and symbols "USD,EUR,CHF,AUD,CAD,GBP" |
| RatesRoute.SymbolsList | src/app/api/rates/route.ts:4-21 | the provider reads the symbol list back as the five display currencies in order, then GBP |
| ExchangeWidget.MapRows | src/components/exchange-widget.tsx:47-50 | one row per code, each row in the order of the codes, carrying the payload value unchanged, or 0 when the code or the whole rates table is missing |
| ExchangeWidget.FetchedRows | src/components/exchange-widget.tsx:37-50 | a reply yields rows exactly when it is ok and parses to a non-null body; those rows are the five display currencies in order |
| ExchangeWidget.FormatTime | src/components/exchange-widget.tsx:72-79 | no date renders as "—"; a date renders as the locale's rendering of it |
| ExchangeWidget.InitialState | src/components/exchange-widget.tsx:26-30 | the mount state has no rows, no error and no date, so it shows the loading placeholder and formats its date as "—" |
| ExchangeWidget.StartAndBegin | src/components/exchange-widget.tsx:32-68 | starting (click or mount) sets refreshing and nothing else; beginning a fetch clears the error and nothing else |
| ExchangeWidget.FetchSuccess | src/components/exchange-widget.tsx:47-53 | a fetch whose reply parses replaces the rows by exactly the five display rows, each with the payload value or 0; it sets the last-updated time to now and leaves no error |
| ExchangeWidget.FetchFailure | src/components/exchange-widget.tsx:39-56 | any other reply sets the error to "Failed to load rates" and leaves the rows and the last-updated time as they were |
| ExchangeWidget.FetchSettles | src/components/exchange-widget.tsx:57-59 | after every fetch settles, whatever the reply, refreshing is false and the loading placeholder (no rows and no error) is not shown |
| ExchangeWidget.SuccessKeepsConsistent | src/components/exchange-widget.tsx:52-53 | storing display rows with the current time leaves the invariant true: the five display rows and a date |
| ExchangeWidget.TransitionsKeepConsistent | src/components/exchange-widget.tsx:26-59 | start, begin, failure, settle, a whole fetch and a whole refresh each keep this invariant: either no rows and no date, or the five display rows and a date |
| ExchangeWidget.PartialPayload | src/components/exchange-widget.tsx:47-50 | the payload USD 1.27, EUR 1.17 maps to USD 1.27, EUR 1.17, CHF 0, AUD 0, CAD 0 |
| ExchangeWidget.Widget.constructor | src/components/exchange-widget.tsx:26-30 | the new component's state is the mount state, which shows the placeholder |
| ExchangeWidget.Widget.Start | src/components/exchange-widget.tsx:63 | only the refreshing flag changes, to true |
| ExchangeWidget.Widget.BeginFetch | src/components/exchange-widget.tsx:34 | only the error changes, to none |
| ExchangeWidget.Widget.Succeed | src/components/exchange-widget.tsx:52-53 | only the rows and the last-updated time change, to the given rows and now |
| ExchangeWidget.Widget.Fail | src/components/exchange-widget.tsx:54-56 | only the error changes, to "Failed to load rates" |
| ExchangeWidget.Widget.Settle | src/components/exchange-widget.tsx:57-59 | only the refreshing flag changes, to false |
| ExchangeWidget.Widget.FetchRates | src/components/exchange-widget.tsx:32-60 | the new state is `AfterFetch` of the old one. On rows: the rows, now, and no error. On failure: the old rows and time, and the load error. Refreshing is false either way |
| ExchangeWidget.Widget.HandleRefreshClick | src/components/exchange-widget.tsx:62-70 | the new state is `AfterRefresh` of the old one (start, then fetch); a consistent state stays consistent |
| EndToEnd.ProxySuccessShown | src/components/exchange-widget.tsx:47-53 | when the proxy succeeds, the widget shows the five display currencies in order, with no error; each shows its rebased rate when the provider's rate was non-zero and 0 otherwise |
| EndToEnd.ProxyFailureShown | src/components/exchange-widget.tsx:39-58 | whenever the proxy fails, the widget shows "Failed to load rates", keeps its rows and date, and stops refreshing |

## Left out

- Network I/O: the `fetch` calls to the provider and to `/api/rates`,
  `res.text()`, `res.json()` and `NextResponse.json`. Their outcomes are
  datatypes given as inputs (`ProviderReply`, `Reply`, `JsonBody`).
- The `process.env` lookup of the key. It is an `Option<string>` input.
- `console.error` logging. It is only diagnostic and changes no result.
- `async`/`await` scheduling, and the one-request-in-flight guarantee that
  comes from `disabled={refreshing}`. The transitions are sequential method
  calls. The states a render would see between them are the intermediate
  states of `Widget.FetchRates`.
- The mount effect's dependency on `base`. `base` never changes, so the
  effect runs once. Its body is the same as `handleRefreshClick`, so one
  method models both.
- JSX rendering: images, the flag and name tables, CSS, `toFixed(3)`,
  `toLocaleDateString`. The locale's date rendering is a function parameter
  of `FormatTime`.
- IEEE-754 behaviour: NaN, rounding, negative zero and infinities. A NaN rate
  is falsy in JavaScript, but the model has no NaN.
- Values in a rates table that are not numbers. The body's `rates` is either
  absent (or not an object) or a table of numbers.
- The HTTP status of a success response (200). Only the error status, 500,
  appears in the model.
- `src/app/page.tsx`. It only lays out the widget.
