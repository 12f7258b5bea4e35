# MarketMonitor price pipeline, modelled in Dafny

MarketMonitor is a dashboard of Iranian market prices: crypto assets, gold and coins, and
foreign currencies. This project models its core:

- **Server categoriser and `/api/prices` handler.** `categorizePrices` sorts the upstream
  Baha24 items into the crypto, gold and currencies buckets using two fixed symbol lists.
  The handler serves the cache while it is fresh. Otherwise it fetches, categorises, saves
  and serves the result, or answers 503 when the fetch came back empty
  (`routes.dfy`, module `Routes`).
- **Price cache.** `MemStorage` is a single slot that holds one categorised list and its
  save time. It serves the list only while it is younger than five minutes. The class
  `Storage.MemStorage` has the same two fields as the source (`storage.dfy`).
- **`buildUrl`.** It fills `:key` placeholders in an API path. Each entry is applied in
  turn with JavaScript's string-pattern `replace`, which rewrites only the first occurrence
  and expands `$$`, `$&`, `` $` `` and `$'` in the replacement (`url_builder.dfy`,
  module `SharedRoutes`).
- **Gold overview chart data.** Items priced above 100000 are kept, given an English label,
  sorted from the highest price down, and cut to six. The chart renders nothing when no
  item is left (`gold_chart.dfy`, module `GoldChart`).
- **Live crypto panel histories.** `generateInitialHistory` builds 24 hourly points that end
  at the current price. The panel's effect seeds BTC, XRP and TRX the first time data
  arrives. On each later arrival it appends one point per symbol and keeps the last 48
  (`price_history.dfy`, module `PriceHistory`, class `PriceHistory.HistoryPanel`).
- **Price card lookups.** `formatSymbol` spells out the AZADI coin codes, `getEnglishName`
  looks a title up in the 57-entry table, and `getIcon` picks the icon for a category
  (`price_card.dfy`, module `PriceCard`).

The shared record types are in `schema.dfy`. The integer-to-string conversion, `padStart`
and substring search the code relies on are in `util.dfy`.

Clocks (`Date.now()`, `new Date()`), the upstream fetch, `Math.random` and
`toLocaleTimeString` are parameters: an instant in milliseconds, the list of items fetched
(empty when the fetch fails), a function giving the i-th simulated price, and the label
text.

Loops in the source are methods with loops in the model, each proved equal to a
specification function:

| loop in the source | method | specification function |
|---|---|---|
| the categoriser | `Routes.CategorizePrices` | `Categorize` |
| `buildUrl` | `SharedRoutes.BuildUrl` | `ApplyParams` |
| `generateInitialHistory` | `PriceHistory.GenerateInitialHistory` | `InitialHistory` |
| the effect's `forEach` loops | `SeedHistories`, `AppendPoints` | `Seed`, `Append` |

The lemmas state the properties of those functions.

## Model

| member | source | states |
|---|---|---|
| Storage.LookupServesOnlyFresh | server/storage.ts:12-20 | `getPrices` returns something exactly when the slot holds data saved less than five minutes before the read, and what it returns is that data with its save time |
| Storage.EmptyServesNothing | server/storage.ts:9-13 | before any save the slot is empty and no read returns anything |
| Storage.SavedDataLifetime | server/storage.ts:12-25 | data saved at t is returned, stamped t, by every read before t + 300000 ms, and by none from then on |
| Storage.ExpiryIsPermanent | server/storage.ts:13 | a slot that is empty or expired at one instant stays in that state, and serves nothing, at every later instant |
| Storage.MemStorage.constructor | server/storage.ts:8-10 | a new store holds no data and a zero timestamp |
| Storage.MemStorage.GetPrices | server/storage.ts:12-20 | the read returns the cached data and its save time exactly when the data exists and is younger than five minutes, and otherwise nothing |
| Storage.MemStorage.SavePrices | server/storage.ts:22-25 | the save replaces both the data and the timestamp, leaving the slot fresh |
| Routes.CategorizePrices | server/routes.ts:10-26 | the loop's buckets are the categorisation of the input, and each bucket is the input items that pass that bucket's test, kept in input order |
| Routes.CategorizeIsFilter | server/routes.ts:15-23 | each bucket equals the in-order filter of the input by its test: crypto is in the crypto list; gold is in the gold list and not in the crypto list; currencies are in neither |
| Routes.FilterAppend | server/routes.ts:15-23 | filtering a concatenation is concatenating the filters, so input order carries over to each bucket |
| Routes.FilterMembership | server/routes.ts:15-23 | an item is in a filtered bucket exactly when it is in the input and its symbol passes the test |
| Routes.FilterKeepsAll | server/routes.ts:15-23 | when every item passes the test, the filter returns the input unchanged |
| Routes.FilterDropsAll | server/routes.ts:15-23 | when no item passes the test, the filter returns nothing |
| Routes.CategorizeMembership | server/routes.ts:7-23 | an item is in each bucket exactly when it is in the input and its symbol satisfies that bucket's test; anything in neither list is a currency |
| Routes.ExactlyOneBucket | server/routes.ts:15-23 | every input item lands in exactly one of the three buckets |
| Routes.CategorizePartition | server/routes.ts:10-26 | the three buckets together are a rearrangement of the input (multiset equality), so their sizes add up to the input's size |
| Routes.ExactMatching | server/routes.ts:7-16 | matching is exact and case-sensitive: "BTC" and "eth" are currencies, "BITCOIN" is crypto |
| Routes.BtcIsCurrency | server/routes.ts:7-8 | "BTC" is in neither symbol list |
| Routes.LowerCaseEthIsCurrency | server/routes.ts:7-8 | "eth" is in neither symbol list, which are upper case |
| Routes.FilterKeepsBlock | server/routes.ts:15-23 | filtering three blocks where only the middle one passes returns the middle block |
| Routes.BucketSymbols | server/routes.ts:15-23 | every item in a bucket passes that bucket's test |
| Routes.CategorizeIdempotent | server/routes.ts:10-26 | categorising the concatenated buckets again gives back the same buckets |
| Routes.HandleGetPrices | server/routes.ts:53-75 | the handler's response, and the cache state it leaves, follow the handler's decision on what the cache returned at request time: a fresh cache is served and left alone; an empty fetch is a 503 and the cache is left alone; otherwise the categorised fetch is saved with the response instant and served |
| Routes.CacheHitIgnoresUpstream | server/routes.ts:55-61 | a cache hit answers 200 with the cached buckets and the cached save time, whatever the upstream returns, and saves nothing |
| Routes.EmptyFetchIsUnavailable | server/routes.ts:63-67 | with no fresh cache, an empty fetch is answered 503 with a message and nothing is saved |
| Routes.SuccessfulFetchIsSavedAndServed | server/routes.ts:69-75 | with no fresh cache and a non-empty fetch, the saved value and the served buckets are the same categorisation of the fetch, and together they are a rearrangement of it |
| Routes.ExpiredAndFailedIsError | server/routes.ts:55-67 | an expired cache followed by a failed fetch is a 503 with the fixed message, never the old data |
| Routes.ServedDataIsNeverStale | server/routes.ts:55-75 | every 200 response is either cached data saved less than five minutes before the request, served with its save time, or this request's categorised fetch stamped with this request's clock |
| Routes.RepeatWithinTtlRepeatsResponse | server/routes.ts:55-75 | a request less than five minutes after one that fetched gets exactly the same response from the cache and saves nothing |
| SharedRoutes.SubstitutionLiteral | shared/routes.ts:26 | a replacement text without `$` is inserted literally |
| SharedRoutes.BuildUrl | shared/routes.ts:21-31 | without params the path is returned unchanged; with params the result applies each entry in order to the URL the earlier entries left |
| SharedRoutes.NoParamsNoChange | shared/routes.ts:21-30 | an empty parameter record leaves the path unchanged |
| SharedRoutes.AbsentKeyNoChange | shared/routes.ts:25 | an entry whose `:key` does not occur leaves the URL unchanged |
| SharedRoutes.FirstOccurrenceReplaced | shared/routes.ts:25-26 | when `:key` first occurs at k, only that occurrence is replaced; the text before it and everything after it (later occurrences included) are kept, and a value without `$` is inserted as it is |
| SharedRoutes.IndexOfFinds | shared/routes.ts:25-26 | the search returns the first position where the placeholder occurs |
| SharedRoutes.ApplyParamsSequential | shared/routes.ts:24-28 | applying entries a then b is applying b to the URL that a left |
| SharedRoutes.FirstPlaceholderAt | shared/routes.ts:25 | a placeholder preceded only by colon-free text is found at that position |
| SharedRoutes.PlaceholderAfter | shared/routes.ts:25-26 | in `pre + :key + post` with no colon in `pre`, exactly that placeholder is replaced by the expanded value, and `pre` and `post` are kept |
| SharedRoutes.NotTokenAware | shared/routes.ts:25-26 | matching is by substring, not by token: when `:key` followed by more name characters comes first (`id` inside `:idx`), it is rewritten and the rest of the longer name is left after the value |
| SharedRoutes.DollarPatternsExpand | shared/routes.ts:26 | a value is a replacement template: a value `a$&b` becomes `a`, then the placeholder itself, then `b` |
| SharedRoutes.SubstitutionMatch | shared/routes.ts:26 | in a template `a$&b` with no other `$`, the replacement is `a`, the matched text, then `b` |
| GoldChart.PrependSorted | client/src/components/GoldChart.tsx:30 | an entry no cheaper than the head of a descending list keeps the list descending when put in front of it |
| GoldChart.QualifyingMembership | client/src/components/GoldChart.tsx:23-29 | an entry comes out of the filter and map exactly when some input item is priced above 100000 and maps to it |
| GoldChart.EntriesComeFromQualifyingItems | client/src/components/GoldChart.tsx:23-31 | every chart entry is the labelled form of an input item priced above 100000 |
| GoldChart.ChartIsSortedSelection | client/src/components/GoldChart.tsx:23-31 | the chart has min(6, number of qualifying items) entries, sorted from the highest price down, drawn without repetition from the qualifying items |
| GoldChart.PrefixKeepsHighest | client/src/components/GoldChart.tsx:30-31 | the first n entries of a descending rearrangement are at least as dear as every entry left out |
| GoldChart.ChartKeepsHighest | client/src/components/GoldChart.tsx:30-31 | no qualifying item left out of the chart is priced above any entry kept in it |
| GoldChart.EmptyChartIffNoneQualifies | client/src/components/GoldChart.tsx:23-33 | the component renders nothing exactly when no item is priced above 100000 |
| GoldChart.MaxValueIsFirst | client/src/components/GoldChart.tsx:35 | on the sorted chart, the maximum is the first entry's price and bounds every entry |
| GoldChart.LabelRule | client/src/components/GoldChart.tsx:8-26 | an entry's name is the table's label for its title when there is one, and otherwise its symbol |
| GoldChart.Insert | client/src/components/GoldChart.tsx:30 | insertion keeps the list descending and adds exactly the one entry; the result starts with the new entry unless the head is dearer |
| GoldChart.DearerPrefix | client/src/components/GoldChart.tsx:30 | counts the leading entries strictly dearer than a given one: every entry before the count is dearer and the entry at the count is not |
| GoldChart.InsertPlacement | client/src/components/GoldChart.tsx:30 | insertion puts the new entry exactly after the strictly dearer prefix and ahead of every entry that is not dearer, leaving the rest of the list in order |
| GoldChart.SortDesc | client/src/components/GoldChart.tsx:30 | the sort's result is descending by price and a permutation of its input |
| Util.NatToString | client/src/components/TestPlanSection.tsx:37 | `toString` of a non-negative integer is a non-empty string of decimal digits, one digit exactly for values below 10 |
| Util.NatToStringValue | client/src/components/TestPlanSection.tsx:37 | the numeral of n denotes exactly n and has no leading zero |
| Util.IntToString | shared/routes.ts:26 | `String` of an integer starts with a minus sign exactly when it is negative |
| Util.IntToStringValue | shared/routes.ts:26 | `String` of a safe integer is a minus sign exactly for negatives, then decimal digits, without a leading zero, that denote its magnitude |
| Util.NatToStringBelow100 | client/src/components/TestPlanSection.tsx:37 | below 100 the numeral is its tens digit (only when not zero) followed by its units digit |
| Util.PadStart | client/src/components/TestPlanSection.tsx:37 | `padStart` yields max(length, target) characters that end with the input and are filled in front |
| Util.IndexOf | shared/routes.ts:25 | `includes`/`indexOf` finds the first position where the pattern occurs, or reports that it occurs nowhere |
| PriceHistory.HourLabelDigits | client/src/components/TestPlanSection.tsx:36-37 | an hour below 100 is labelled with two digits followed by ":00" |
| PriceHistory.HourLabelsDistinct | client/src/components/TestPlanSection.tsx:35-37 | the 24 seeded points have pairwise different hour labels |
| PriceHistory.DigitPairsDistinct | client/src/components/TestPlanSection.tsx:37 | two different numbers below 100 differ in their tens or their units digit |
| PriceHistory.GenerateInitialHistory | client/src/components/TestPlanSection.tsx:30-48 | the history has 24 points labelled with hours 00 to 23; every point but the last carries its simulated price, and the last carries the current price |
| PriceHistory.InitialHistoryShape | client/src/components/TestPlanSection.tsx:30-48 | a seeded history has 24 points, runs from "00:00" to "23:00", and ends at the current price |
| PriceHistory.SeedCharts | client/src/components/TestPlanSection.tsx:133-146 | the seed branch charts exactly the tracked symbols present in the data, each with 24 points ending at its current price |
| PriceHistory.AppendWindow | client/src/components/TestPlanSection.tsx:147-162 | after a refresh a symbol has a history exactly when it is tracked and present in the data; that history ends with the new point and is the last min(n+1, 48) points of the old history plus the new point |
| PriceHistory.LastOfAppend | client/src/components/TestPlanSection.tsx:157-158 | keeping the last 48 after each append is the same as keeping the last 48 of everything appended |
| PriceHistory.SeedThenAppend | client/src/components/TestPlanSection.tsx:132-164 | the first data seeds and sets `initialized`, later data appends, and a run without data changes nothing |
| PriceHistory.FirstArrivalAppendsTwice | client/src/components/TestPlanSection.tsx:132-164 | with the effect re-running on the `initialized` change, the first data leaves each charted symbol with 25 points: the 24 seeded ones, then a duplicate of the current price |
| PriceHistory.FirstArrivalSeedsOnly | client/src/components/TestPlanSection.tsx:132-164 | with one run per data change, the first data leaves exactly the 24 seeded points, and each later data appends exactly one point |
| PriceHistory.SeedHistories | client/src/components/TestPlanSection.tsx:134-145 | the seed loop builds exactly the seeded histories of the tracked symbols present in the data |
| PriceHistory.AppendPoints | client/src/components/TestPlanSection.tsx:151-162 | the append loop builds exactly the extended histories of the tracked symbols present in the data |
| PriceHistory.HistoryPanel.constructor | client/src/components/TestPlanSection.tsx:129-130 | a mounted panel has no histories and is not seeded |
| PriceHistory.HistoryPanel.RunEffect | client/src/components/TestPlanSection.tsx:132-164 | one run of the effect leaves the panel's state as the effect function prescribes for the old state and the data |
| PriceCard.FormatSymbolCases | client/src/components/PriceCard.tsx:71-77 | the four AZADI codes are spelled out, and every other symbol is shown as it is |
| PriceCard.FormatSymbolIdempotent | client/src/components/PriceCard.tsx:71-77 | formatting a formatted symbol changes nothing more |
| PriceCard.RewrittenSymbolsAreGold | client/src/components/PriceCard.tsx:71-77 | only symbols that the server files under gold are ever rewritten |
| PriceCard.EnglishNameLookup | client/src/components/PriceCard.tsx:11-81 | a title in the table gets its English name, and any other title is shown as it is |
| PriceCard.NamesNonEmpty | client/src/components/PriceCard.tsx:11-69 | no table entry is empty, so falling back to the title never hides an entry |
| PriceCard.CryptoNamesNonEmpty | client/src/components/PriceCard.tsx:12-36 | the crypto entries of the table are non-empty |
| PriceCard.GoldNamesNonEmpty | client/src/components/PriceCard.tsx:37-45 | the gold entries of the table are non-empty |
| PriceCard.CurrencyNamesNonEmpty | client/src/components/PriceCard.tsx:46-68 | the currency entries of the table are non-empty |
| PriceCard.IconsDistinct | client/src/components/PriceCard.tsx:91-97 | gold gets Sparkles, currency DollarSign and crypto Coins, so different categories get different icons |

## Left out

- The upstream fetch (server/routes.ts:28-46) is a parameter: the list it yields, empty on any failure. The 10-second abort timer, the HTTP status check and JSON parsing are not modelled.
- The handler's `catch` answering 500 (server/routes.ts:76-79) is not modelled. Nothing in the modelled pipeline throws.
- ISO timestamp strings (`toISOString`) are kept as the clock readings they format.
- The handler's two clock reads after the fetch (in `savePrices` and in `new Date()`) are one instant, `respondedAt`. In the source they can differ by a millisecond.
- Prices are integers. `parseFloat`, the division by 1000000 for the chart's `value`, `toFixed`, `Intl.NumberFormat` and `formatPrice` are not modelled. A price text that does not parse (NaN) is `None`.
- GoldChart.SortDesc: it sorts by `fullValue`, where the source sorts by `value = fullValue / 1000000`. Float rounding of that quotient, which could tie two distinct prices, is not modelled. The sort is stable by construction, but stability is not stated as a lemma.
- The random term `Math.sin(i*0.5)*0.5 + Math.random()*0.3` and the `dayHigh`/`dayLow` fallbacks (`price * 1.02`, `price * 0.98`) are folded into the simulated-price parameter.
- `toLocaleTimeString` is the time label parameter.
- `Object.entries` order in `buildUrl` is the order of the entry sequence given.
- SharedRoutes.ValueString: numbers are safe integers (|n| <= 2^53 - 1), where `String` writes the exact decimal numeral. Fractions, non-finite numbers and larger integers are not modelled: above 2^53 `String` prints a rounded value, and from 10^21 on it uses exponent form.
- PriceCard.EnglishNameLookup: only the table's own keys are modelled. A title such as "constructor" would find an inherited `Object.prototype` member in the source.
- GoldChart.LabelRule: the same holds for the chart's table. Inherited `Object.prototype` members are not modelled.
- React Query fetching, refetch intervals, structural sharing of `data`, loading and error screens, and all rendering are not modelled.
- Concurrent requests to the handler are not modelled. Each request runs to completion against the single store.

## Findings

| source | as written | input that shows it | evidently intended | confidence | as-written member | corrected member |
|---|---|---|---|---|---|---|
| client/src/components/TestPlanSection.tsx:132-164 | The effect depends on `[data, initialized]`, and its seed branch sets `initialized`. React therefore runs it again right away on the same data, and that second run takes the append branch. | The first price map containing BTC: BTC ends with 25 points, the 24 seeded ones ending at the current price, then one more point at the same price labelled with the clock time. | The first data yields exactly the 24 seeded points, and each later data appends exactly one. | high, not executed | PriceHistory.DataChanged, PriceHistory.FirstArrivalAppendsTwice | PriceHistory.DataChangedOnce, PriceHistory.FirstArrivalSeedsOnly |
