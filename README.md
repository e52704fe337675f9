# Crypto dashboard state layer in Dafny

A model of the state layer of a client-side cryptocurrency dashboard, plus
the two derived computations its pages perform:

- the **market store** (coins slice): the latest snapshot of coin records keyed
  by id, together with `loading`, `error` and `lastUpdated`, driven by the
  actions pending, fulfilled and rejected;
- the **fetch thunk**: dispatch pending, normalise the markets list into an
  object keyed by coin id (last duplicate wins), then dispatch exactly one of
  fulfilled or rejected, the rejection payload being the response body if
  there is one and the error message otherwise;
- the **coin selectors**, projections of the coins slice;
- the **search store**: the query text and a `{top, priceChange}` filter that
  `setFilter` shallow-merges;
- the **portfolio store**: coin id to held amount, with upsert and delete;
- the **dashboard filter**: the snapshot's coins, in key order, that pass a
  case-insensitive text test on name or symbol, a rank tier and the sign of
  the 24-hour change;
- the **portfolio valuation**: total value, 24-hour change percent guarded
  against a zero total, the add-to-existing form submission, the guard of the
  update button and the two-point chart.

Modules: `Wrappers` (Option), `JsObject` (a JavaScript object used as an
insertion-ordered dictionary: `Set` keeps an existing key in place, `Delete`
takes it out of the order, `Values` lists in key order), `Text` (ASCII
`toLowerCase`, `includes`), `CoinsSlice`, `CoinsThunk`, `CoinsSelectors`,
`SearchSlice`, `PortfolioSlice`, `DashboardPage`, `PortfolioPage`.

The slices update their state in place, so each store is a class
(`MarketStore`, `SearchStore`, `PortfolioStore`) whose methods assign its
fields. The coins reducer is also stated as a pure function `Reduce` over a
`MarketState` value, so that properties of action sequences can be proved.
The normalisation loop and the valuation loop are methods with loop
invariants, proved equal to the left folds `Normalize` and `SumLines`.

Prices, amounts and percents are `real`. A missing 24-hour change is
`None`: it fails both signed filter tests and adds 0 to the change sum. The
clock is a parameter (`now`), and so is the outcome of the HTTP request.

Behaviour of the code worth noting:

- The change percent is guarded with `value ? … : 0`, which tests for a
  non-zero total. It does not test for a positive total.
- The "24h Ago" chart point is `totalValue * (1 - totalChange / 100)`, which
  equals the total less the summed change. It is not a back-projection
  `totalValue / (1 + totalChange / 100)`. For 3 units at 100 that rose 10%,
  the chart runs from 270 to 300 (`ThreeUnitsExample`).
- Any `top` other than 10 selects rank ≤ 50. Any `priceChange` other than
  "all" and "positive" selects falling coins.

## Model

| member | source | states |
|---|---|---|
| CoinsSlice.InitialState | src/state/coins/slice.js:6-11 | the store starts with no entities, not loading, no error and no update time |
| CoinsSlice.Reduce | src/state/coins/slice.js:12-25 | pending sets loading and clears the error, keeping snapshot and time; fulfilled installs exactly the payload, stops loading, stamps the time and leaves the error; rejected stops loading and records the error, keeping the stale snapshot and time |
| CoinsSlice.LoadingHasNoError | src/state/coins/slice.js:13-25 | from any state that is not loading with an error, every sequence of actions leaves a state that is not loading with an error: pending clears the error, and both settling actions stop loading |
| CoinsSlice.PendingIdempotent | src/state/coins/slice.js:13-16 | announcing a fetch twice gives the same state as announcing it once |
| CoinsSlice.FulfilledDoesNotMerge | src/state/coins/slice.js:17-21 | the entities after fulfilled do not depend on the entities before, and the update time is set |
| CoinsSlice.PendingThenFulfilled | src/state/coins/slice.js:13-21 | pending then fulfilled(p) settles to entities p, not loading, no error, time now |
| CoinsSlice.PendingThenRejected | src/state/coins/slice.js:13-25 | pending then rejected(e) settles to the old entities and time, not loading, error e |
| CoinsSlice.MarketStore.constructor | src/state/coins/slice.js:6-11 | a new store holds the initial state |
| CoinsSlice.MarketStore.FetchCoinsPending | src/state/coins/slice.js:13-16 | in place: loading on, error cleared, entities and time untouched |
| CoinsSlice.MarketStore.FetchCoinsFulfilled | src/state/coins/slice.js:17-21 | in place: entities replaced by the payload, loading off, time stamped, error untouched |
| CoinsSlice.MarketStore.FetchCoinsRejected | src/state/coins/slice.js:22-25 | in place: loading off, error set, entities and time untouched |
| CoinsSlice.MarketStore.Dispatch | src/state/coins/slice.js:29-31 | dispatching an action moves the store to the reducer's next state |
| CoinsThunk.Normalize | src/state/coins/thunk.js:25-28 | the normalised object never has more keys than the list has records |
| CoinsThunk.NormalizeKeys | src/state/coins/thunk.js:25-28 | the keys are exactly the ids occurring in the list; the object is empty iff the list is |
| CoinsThunk.NormalizeIdsMatch | src/state/coins/thunk.js:27 | every key holds a record whose id is that key |
| CoinsThunk.NormalizeLastWins | src/state/coins/thunk.js:26-28 | a record with no later record of the same id is the one stored under its id |
| CoinsThunk.NormalizeDistinct | src/state/coins/thunk.js:25-28 | with distinct ids, the values of the object are the list itself, in order |
| CoinsThunk.NormalizeById | src/state/coins/thunk.js:25-28 | the forEach loop builds exactly the normalised object |
| CoinsThunk.RejectionPayload | src/state/coins/thunk.js:31 | the payload is the response body when it is present and non-empty, otherwise the error message |
| CoinsThunk.FetchActions | src/state/coins/thunk.js:9-31 | two actions: pending, then fulfilled with the normalised list on success, or rejected with the payload on failure |
| CoinsThunk.FetchCoins | src/state/coins/thunk.js:8-33 | running the thunk dispatches exactly those actions and leaves the store in the state they produce |
| CoinsThunk.FetchOutcome | src/state/coins/thunk.js:8-33 | after a fetch the store is settled; success gives the normalised list, no error and time now; failure gives the payload as error with the old snapshot and time |
| CoinsSelectors.SelectCoins | src/state/coins/selectors.js:2 | returns the coins slice's snapshot of records keyed by id |
| CoinsSelectors.SelectCoinsLoading | src/state/coins/selectors.js:3 | returns whether the coins slice is loading |
| CoinsSelectors.SelectCoinsError | src/state/coins/selectors.js:4 | returns the coins slice's error payload, or none |
| CoinsSelectors.SelectCoinsLastUpdated | src/state/coins/selectors.js:5 | returns the coins slice's last fulfilment time, or none |
| CoinsSelectors.SelectorsReadSlice | src/state/coins/selectors.js:2-5 | each selector returns the coins-slice field it names |
| CoinsSelectors.SelectAfterFulfilled | src/state/coins/selectors.js:2-5 | after fulfilled(p) the selectors give p, not loading, time now and the previous error |
| CoinsSelectors.SelectWhilePending | src/state/coins/selectors.js:2-5 | during a fetch the selectors give the previous snapshot and time, loading, no error |
| CoinsSelectors.SelectAfterRejected | src/state/coins/selectors.js:2-5 | after rejected(e) the selectors give the stale snapshot and time, not loading, error e |
| SearchSlice.InitialFilter | src/state/search/slice.js:7-10 | the filter starts as top 10, change "all" |
| SearchSlice.Merge | src/state/search/slice.js:17 | each key the patch carries is taken from the patch, each other key is kept |
| SearchSlice.MergeEmpty | src/state/search/slice.js:17 | merging an empty patch leaves the filter unchanged |
| SearchSlice.MergeOneKey | src/state/search/slice.js:17 | setting only top keeps priceChange, setting only priceChange keeps top |
| SearchSlice.MergeAccumulates | src/state/search/slice.js:17 | two merges equal one merge of the combined patch: different keys accumulate, on the same key the later wins |
| SearchSlice.SearchStore.constructor | src/state/search/slice.js:5-11 | a new store has the empty query and the initial filter |
| SearchSlice.SearchStore.SetQuery | src/state/search/slice.js:13-15 | the query becomes the text verbatim; the filter is untouched |
| SearchSlice.SearchStore.SetFilter | src/state/search/slice.js:16-18 | the filter becomes the merge of old filter and patch; the query is untouched |
| JsObject.Set | src/state/portfolio/slice.js:11 | the key now holds the value, every other key reads as before, a new key goes last and an existing key keeps its place |
| JsObject.Delete | src/state/portfolio/slice.js:14 | the key is gone, every other key reads as before, the order loses only that key, and an absent key leaves the object unchanged |
| PortfolioSlice.SetHoldingOverwrites | src/state/portfolio/slice.js:11 | two setHolding calls on one id leave the second amount, not the sum |
| PortfolioSlice.SetThenRemoveRestores | src/state/portfolio/slice.js:11-14 | adding a holding for a new id and removing it restores the holdings exactly, order included |
| PortfolioSlice.PortfolioStore.constructor | src/state/portfolio/slice.js:5-7 | a new store has no holdings |
| PortfolioSlice.PortfolioStore.SetHolding | src/state/portfolio/slice.js:9-12 | in place: the id holds the amount, other ids unchanged |
| PortfolioSlice.PortfolioStore.RemoveHolding | src/state/portfolio/slice.js:13-15 | in place: the id is absent, other ids unchanged, no-op on an absent id |
| JsObject.Values | src/pages/DashboardPage.jsx:49 | Object.values lists one value per key, in key order, and every stored value appears |
| Text.ToLower | src/pages/DashboardPage.jsx:51-52 | the lower-cased string has the same length, and each character is the lower-case form of the one at the same position |
| Text.Includes | src/pages/DashboardPage.jsx:51-52 | a string includes every prefix of itself, the empty string in particular, and includes nothing longer than itself |
| Text.IncludesIff | src/pages/DashboardPage.jsx:50-52 | includes holds exactly when the substring occurs at some position |
| DashboardPage.MatchesQuery | src/pages/DashboardPage.jsx:50-52 | a coin passes the text test iff the lower-cased query occurs at some position of its lower-cased name or of its lower-cased symbol |
| DashboardPage.MatchesTop | src/pages/DashboardPage.jsx:53-56 | every coin of rank ≤ 10 passes and none past rank 50 does; under top 10 exactly ranks ≤ 10 pass, under any other top exactly ranks ≤ 50 |
| DashboardPage.MatchesChange | src/pages/DashboardPage.jsx:57-62 | "all" passes every coin; any other value passes only a coin with a non-zero change; "positive" passes exactly the rises, any other value exactly the falls |
| DashboardPage.FilterCoins | src/pages/DashboardPage.jsx:49-64 | the result is a subsequence of the input, no longer than it; a coin is in it iff it is in the input and passes all three tests; each passing coin is kept as many times as it occurs, each failing one not at all |
| DashboardPage.FilteredCoins | src/pages/DashboardPage.jsx:49-64 | the listed coins are the values of the snapshot that pass all three tests, each as often as it is stored, and there are no more of them than keys |
| DashboardPage.FilteredCoinsIff | src/pages/DashboardPage.jsx:49-64 | a stored coin is listed iff it passes the text, rank and change tests |
| DashboardPage.FilteredCoinsInOrder | src/pages/DashboardPage.jsx:49 | the list keeps the key order of the snapshot and holds only stored coins |
| DashboardPage.ListedCoinContainsQuery | src/pages/DashboardPage.jsx:50-52 | a listed coin's lower-cased name or symbol contains the lower-cased query at some position |
| DashboardPage.EmptyQueryMatchesAll | src/pages/DashboardPage.jsx:50-52 | the empty query passes every coin's text test |
| DashboardPage.ListedCoinPassesTiers | src/pages/DashboardPage.jsx:53-62 | a listed coin has rank ≤ 10 under top 10 and ≤ 50 under any other top; it rose under "positive" and fell under any value but "all" and "positive" |
| DashboardPage.MissingChangeOnlyPassesAll | src/pages/DashboardPage.jsx:57-62 | a coin with no 24h change passes the change test only under "all" |
| DashboardPage.WideningTopKeepsCoins | src/pages/DashboardPage.jsx:53-56 | switching top from 10 to any other value removes no coin, and the top-10 list is a subsequence of the wider one |
| DashboardPage.TwoCoinExample | src/pages/DashboardPage.jsx:49-64 | coins A (rank 5, +2%) and B (rank 20, −1%) with an empty query: top 10 / all lists [A]; top 10 / negative lists nothing |
| PortfolioPage.ChangePercent | src/pages/PortfolioPage.jsx:65 | 0 for a zero total; otherwise the percent p with p · total = change · 100 |
| PortfolioPage.Sums | src/pages/PortfolioPage.jsx:53-62 | when no held coin is in the snapshot, the summed value and the summed change are both 0 |
| PortfolioPage.ComputeTotals | src/pages/PortfolioPage.jsx:50-67 | the loop yields the summed value and change over the holdings, and the guarded percent of the two |
| PortfolioPage.UnknownCoinIgnored | src/pages/PortfolioPage.jsx:53-56 | a holding whose coin is not in the snapshot changes neither sum |
| PortfolioPage.RemoveHoldingSums | src/pages/PortfolioPage.jsx:53-62 | removing a holding lowers both sums by exactly that holding's line |
| PortfolioPage.SingleHolding | src/pages/PortfolioPage.jsx:50-66 | one holding of price p, amount a, percent c with p·a ≠ 0 gives total p·a and change c |
| PortfolioPage.SubmittedAmount | src/pages/PortfolioPage.jsx:71-73 | the submitted amount is added to the existing holding, or to 0 when there is none |
| PortfolioPage.OnSubmit | src/pages/PortfolioPage.jsx:69-76 | submitting writes existing + new for the id into the store |
| PortfolioPage.SubmitTwiceAccumulates | src/pages/PortfolioPage.jsx:71-73 | two submissions of a and b for one id leave existing + a + b |
| PortfolioPage.HandleUpdate | src/pages/PortfolioPage.jsx:78-84 | nothing happens iff the id is empty or not in the snapshot; otherwise the form gets the id and its held amount |
| PortfolioPage.ChartData | src/pages/PortfolioPage.jsx:87-90 | two points, "24h Ago" then "Now", the second being the current total |
| PortfolioPage.ChartStartIsValueLessChange | src/pages/PortfolioPage.jsx:87-90 | the "24h Ago" point is the total less the summed change, and 0 for a zero total |
| PortfolioPage.ThreeUnitsExample | src/pages/PortfolioPage.jsx:50-90 | 3 units at 100, up 10%: total 300, change 10%, chart 270 then 300 |

## Left out

- The recurring refresh timer in `src/components/Layout.jsx` and the ordering of overlapping asynchronous fetches. They depend on timers and concurrency; each fetch is modelled as one sequential run of the thunk.
- The HTTP request to the markets endpoint. Its outcome is the `response` argument of `FetchCoins`.
- The thunk's catch also handles exceptions thrown after the request, such as a response body that is not a list. Only the request's own failure is modelled.
- `Date.now()` is not modelled. The clock reading is the parameter `now`.
- The claim that `lastUpdated` increases across fetches is not modelled. It rests on the clock, which is a parameter here.
- `CoinsThunk.RejectionPayload`: the response body is modelled as an optional string. Structured bodies and falsy non-string bodies (`0`, `false`) are not modelled.
- Floating point is not modelled: NaN from an `undefined` percent, rounding, `parseFloat` (the submitted amount is already a real), `toLocaleString` and `toFixed`.
- `Text.ToLower` folds ASCII letters only. Unicode case mapping is not modelled.
- JavaScript's ordering of integer-like property names before other keys is not modelled. Keys are kept in insertion order.
- Inherited properties are not modelled. A `coins[coinId]` lookup of a name such as `"constructor"` reads as absent here.
- A `null` market-cap rank is not modelled. The rank is an integer.
- The filter holds an integer `top` and a string `priceChange`. A `null` sent by the toggle buttons behaves like any value other than 10 or "all"/"positive". Extra keys merged into the filter are not modelled.
- The theme slice, the search and portfolio selectors, and `src/store.js` are not part of this model. Their sources are not available, and the store only wires the reducers together.
- React rendering, routing, form validation, the disabled-button rule and local component state are not modelled.
