# Velocity metrics: a Dafny model

This project models the live GP-velocity metrics feature of the marketing site. The feature has three parts:

- **The aggregator** (`lib/bigquery.ts`, module `BigQuery`). It maps warehouse rows of HubSpot companies, synced by Fivetran, to velocity records. One pass over the records then produces the summary metrics: the company count, the breakdown over the three velocity tiers, the positive-only capital and months totals and averages, and the latest sync timestamp.
- **The endpoint** `GET /api/velocity` (`app/api/velocity/route.ts`, module `VelocityRoute`). It keeps the last metrics in a process-wide cache cell that stays fresh for 60 seconds. It honours `refresh=true` and `raw=true`. When the warehouse fails it falls back to the cached value, however old, and answers 500 only when nothing is cached.
- **The client widget** (`components/LiveVelocityMetrics.tsx`, module `LiveVelocityMetrics`). This covers its display helpers (compact dollars, tier labels and colours, relative time), the tier percentages, and its four state cells. A fetch updates those cells, and together they choose one of four renderings.

The supporting modules are:

- `Wrappers`: `Option` and `Result`.
- `JsMath`: `Math.round` on exact reals.
- `LexOrder`: JavaScript's `<` on strings, the code-unit lexicographic order.

The model follows the code's form:

- `calculateMetrics` is a method with a loop. Its invariants tie each accumulator to a function of the records scanned so far, and it is proved equal to the specification function `MetricsOf`.
- The route's module-level cache cell is the class `VelocityEndpoint`. Its fields are `cachedMetrics` and `cacheTimestamp`.
- The widget's `useState` cells are the class `MetricsPanel`. `fetchMetrics` is split at its `await` into `StartFetch` and `CompleteFetch`.

External effects are inputs:

- The outcome of the warehouse query: the rows, or the thrown error's message.
- The clock reading of each request.
- The outcome of the browser's `fetch`.
- The parsed value of a date string.

One behaviour of the mapper is worth knowing:

- A numeric column holding a plain JavaScript `0` is falsy, so `row.x ? Number(row.x) : null` turns it into `null`. `BigQuery.ToNumber` states this.
- In the records, a zero is therefore indistinguishable from a missing value. This includes the records of the raw response.
- No metric changes, because zero is excluded from the sums and counts either way.

## Model

| member | source | states |
|---|---|---|
| BigQuery.ToNumber | lib/bigquery.ts:139-141 | a numeric cell becomes null exactly when it is null or a plain 0; otherwise it becomes its numeric value |
| BigQuery.MapRow | lib/bigquery.ts:134-142 | id, portal id and tier are copied; the sync time is absent exactly when the column is absent, and is the text or the timestamp object's `.value` otherwise; the three numeric fields go through `ToNumber` |
| BigQuery.MapRows | lib/bigquery.ts:134 | one record per row, in order, each the mapping of its row |
| BigQuery.QueryVelocityData | lib/bigquery.ts:108-143 | a query failure propagates with its message; a success gives exactly the mapped rows, as many as there are rows |
| BigQuery.CalculateMetrics | lib/bigquery.ts:148-202 | the single-pass loop computes exactly `MetricsOf(records)`: record count, tier counts, positive-only sums and rounded averages (0 when nothing is counted), and latest sync |
| BigQuery.GetVelocityMetrics | lib/bigquery.ts:208-211 | a query failure propagates unchanged; on success the result is the aggregation of the mapped rows |
| BigQuery.TierBreakdownBound | lib/bigquery.ts:163-171 | the three tier counts add up to at most the number of records, and to exactly that number if and only if every record has one of the three known tiers |
| BigQuery.SyncSet | lib/bigquery.ts:186 | the set of sync timestamps the scan can pick never holds the empty string |
| BigQuery.SyncSetMembers | lib/bigquery.ts:185-188 | a string is a candidate sync time if and only if it is non-empty and some record carries it |
| BigQuery.LatestSyncIsGreatest | lib/bigquery.ts:161-188 | `lastSyncedAt` is null if and only if no record has a non-empty sync time; otherwise it is one of them, and every other one sorts before it |
| BigQuery.LatestSyncDeterminedBySet | lib/bigquery.ts:185-188 | two record sequences with the same sync times get the same `lastSyncedAt`, whatever the scan order |
| BigQuery.FoldsAppend | lib/bigquery.ts:163-189 | tier counts, positive sums and counts, and sync sets of a concatenation are the sums or unions of those of its parts |
| BigQuery.PositiveFoldBounds | lib/bigquery.ts:173-183 | a positive-only sum is never negative, and it is zero if and only if no value was counted |
| BigQuery.AverageNonNegative | lib/bigquery.ts:194-195 | the rounded average of a non-negative total is never negative |
| BigQuery.MetricsNonNegative | lib/bigquery.ts:173-198 | total capital and both averages are never negative; total capital is zero if and only if no record has a positive capital value |
| BigQuery.UncountedRecordIgnored | lib/bigquery.ts:173-183 | a record whose value is null, zero or negative changes neither the sum nor the count of that measure |
| BigQuery.FoldsPermutation | lib/bigquery.ts:163-189 | rearranging the records changes no tier count, positive sum, positive count or sync set |
| BigQuery.MetricsOrderIndependent | lib/bigquery.ts:148-202 | two record sequences that are rearrangements of each other give identical metrics |
| BigQuery.PositiveFilterExample | lib/bigquery.ts:173-196 | capitals 0, -5, 100 and 200 give total capital 300 and average 150 |
| BigQuery.LatestSyncSkipsMissing | lib/bigquery.ts:185-188 | with an earlier, a missing and a later sync time, in that order, the later one is reported |
| BigQuery.JanuaryBeforeJune | lib/bigquery.ts:186 | "2024-01-01T00:00:00Z" sorts before "2024-06-01T00:00:00Z" |
| BigQuery.LatestSyncExample | lib/bigquery.ts:185-188 | sync times 2024-01-01, none and 2024-06-01 give `lastSyncedAt` 2024-06-01 |
| LexOrder.LessIrreflexive | lib/bigquery.ts:186 | no string sorts before itself |
| LexOrder.LessAsymmetric | lib/bigquery.ts:186 | two strings never sort before each other |
| LexOrder.LessTransitive | lib/bigquery.ts:186 | string order is transitive |
| LexOrder.LessTotal | lib/bigquery.ts:186 | of two different strings one sorts before the other |
| LexOrder.LessAtFirstDifference | lib/bigquery.ts:186 | the first differing character decides the order |
| LexOrder.LessProperPrefix | lib/bigquery.ts:186 | a proper prefix sorts first |
| JsMath.Round | lib/bigquery.ts:194-195 | `Math.round(x)` is the integer in the half-open interval from x - 1/2 (excluded) to x + 1/2 (included) |
| VelocityRoute.VelocityEndpoint.constructor | app/api/velocity/route.ts:24-26 | the process starts with an empty cache stamped 0 |
| VelocityRoute.VelocityEndpoint.IsCacheValid | app/api/velocity/route.ts:35-40 | the cache is valid if and only if a value is cached and it is less than 60 000 ms old |
| VelocityRoute.VelocityEndpoint.CacheAge | app/api/velocity/route.ts:83 | the reported age in seconds is the elapsed milliseconds rounded to the nearest thousand |
| VelocityRoute.VelocityEndpoint.Get | app/api/velocity/route.ts:56-129 | raw requests return the mapped rows and their count without touching the cache; a fresh cache hit returns the cached value and its age unless a refresh is forced; otherwise a successful aggregation is returned and stored with the request time; any failure returns the cached value marked stale, whatever its age, or a 500 with the message or a default; only a fresh aggregation writes the cell, and a filled cell never empties |
| VelocityRoute.FreshnessWindow | app/api/velocity/route.ts:77-101 | requests at t, t+30 s and t+61 s give fresh, cached with age 30, and fresh again |
| VelocityRoute.RefreshBypassesCache | app/api/velocity/route.ts:61-101 | a forced refresh 1 s after filling the cache returns the new aggregation |
| VelocityRoute.StaleFallback | app/api/velocity/route.ts:102-117 | a failure 70 s after filling the cache returns the cached value, stale, aged 70, with status 200 |
| VelocityRoute.FailureWithoutCache | app/api/velocity/route.ts:119-127 | a failure with nothing cached is a 500 carrying the message, or the default when the message is empty |
| VelocityRoute.RawBypassesCache | app/api/velocity/route.ts:64-74 | raw requests never fill the cache, so a later failure still answers 500 |
| LiveVelocityMetrics.FormatUsd | components/LiveVelocityMetrics.tsx:50-61 | the suffix is B, M, K or none exactly on the thresholds 1e9, 1e6 and 1e3; the shown number times the suffix's divisor is the amount; it is at least 1 under B and in [1, 1000) under M and K; there is one decimal under B and M, none otherwise |
| LiveVelocityMetrics.TierLabelAsWritten | components/LiveVelocityMetrics.tsx:66-73 | `getTierLabel` as written: the three tiers show "High Velocity", "Stable" and "Needs Help"; a name inherited from `Object.prototype` yields the inherited member; any other tier is shown as it is |
| LiveVelocityMetrics.TierLabel | components/LiveVelocityMetrics.tsx:66-73 | the corrected definition: the three tiers show their display names and every other tier, inherited names included, is shown as it is |
| LiveVelocityMetrics.TierColorAsWritten | components/LiveVelocityMetrics.tsx:78-85 | `getTierColor` as written: the three tiers are green, yellow and red; a name inherited from `Object.prototype` yields the inherited member; anything else is grey |
| LiveVelocityMetrics.TierColor | components/LiveVelocityMetrics.tsx:78-85 | the corrected definition: the three tiers are green, yellow and red and every other tier, inherited names included, is grey |
| LiveVelocityMetrics.TierLookupsAgreeOffPrototype | components/LiveVelocityMetrics.tsx:66-85 | for every name not inherited from `Object.prototype`, the lookups as written give exactly the intended label and colour |
| LiveVelocityMetrics.TierLookupsLeakPrototype | components/LiveVelocityMetrics.tsx:66-85 | for an inherited name such as "toString", the lookups as written return the inherited member instead of the intended text |
| LiveVelocityMetrics.FormatRelativeTime | components/LiveVelocityMetrics.tsx:90-104 | "Unknown" if and only if there is no text; each of just now, minutes, hours and days holds exactly on its range of elapsed milliseconds, with the shown count the floor of the elapsed time in that unit; an unparsable date falls through every comparison |
| LiveVelocityMetrics.Percent | components/LiveVelocityMetrics.tsx:205-209 | for a positive total the percentage is within half a point of 100·count/total; it is between 0 and 100 when count ≤ total; a zero total divides by 1 |
| LiveVelocityMetrics.PercentSum | components/LiveVelocityMetrics.tsx:206-210 | three counts whose sum is at most the total have rounded percentages adding up to at most 101 |
| LiveVelocityMetrics.PercentagesBounded | components/LiveVelocityMetrics.tsx:204-210 | when the tier counts fit in the total, each bar is in [0, 100], an empty total gives three zero bars, and the bars add up to at most 101 |
| LiveVelocityMetrics.PercentagesOfComputedMetrics | components/LiveVelocityMetrics.tsx:204-210 | for metrics the aggregator produced, each bar is in [0, 100], no records gives three zero bars, and the bars add up to at most 101 |
| LiveVelocityMetrics.FailureMessage | components/LiveVelocityMetrics.tsx:143-150 | the stored error is the body's error, else "Failed to fetch metrics"; for a thrown error it is its message, else "Network error"; it is never empty |
| LiveVelocityMetrics.SelectView | components/LiveVelocityMetrics.tsx:168-210 | the error view appears if and only if there is an error and no metrics; the skeleton if and only if loading with no error and no metrics; nothing if and only if neither; the dashboard if and only if metrics exist, with their percentages |
| LiveVelocityMetrics.MetricsPanel.constructor | components/LiveVelocityMetrics.tsx:130-133 | the widget mounts with no metrics, no error, no update time, loading, and so shows the skeleton |
| LiveVelocityMetrics.MetricsPanel.StartFetch | components/LiveVelocityMetrics.tsx:136-139 | the error is cleared, the URL carries `?refresh=true` exactly on a refresh, and nothing else changes |
| LiveVelocityMetrics.MetricsPanel.CompleteFetch | components/LiveVelocityMetrics.tsx:140-153 | loading ends; delivered metrics replace the shown ones, stamp the update time and show the dashboard; otherwise the error message is stored and the old metrics, if any, stay on screen, else the error view appears |
| LiveVelocityMetrics.MetricsPanel.Retry | components/LiveVelocityMetrics.tsx:175-178 | loading is switched on and a forced refresh starts; with no metrics the skeleton replaces the error view |

## Left out

- The warehouse client is not modelled: credentials, `getClient` and the configuration it reads. The query text and the logging are not modelled either. A query is its outcome: the rows, or the error message.
- `Number(text)` on a non-numeric string gives NaN. This is not modelled: a wrapped or string cell carries the number it converts to.
- Timestamp objects whose `.value` is empty are excluded by the `NonEmptyString` type. For such a cell, `v?.value || v` would return the object itself, not a string.
- BigQuery.CalculateMetrics: sums and averages use exact reals, so floating-point rounding of large sums is not modelled.
- LexOrder.LessTotal: string comparison is per character of `seq<char>`. JavaScript compares UTF-16 code units, and the two orders differ only on characters outside the Basic Multilingual Plane.
- URL parsing is reduced to the two flags `refresh` and `raw`, each true only when its parameter is exactly "true".
- Every `Date.now()` inside one request is one clock reading `now`. The ISO `timestamp` field of each response body is not modelled.
- The `details` field of the 500 body, a stack trace in development builds only, is not modelled.
- Concurrent requests interleaving at their `await` points are not modelled. Each `Get` runs to completion.
- LiveVelocityMetrics.Percent: the percentages are computed on exact reals, so an exact .5 tie rounds up. The code divides in IEEE doubles, where the quotient can fall just below the tie and round down: 23 of 40 gives 58 in the model but 57.49999999999999, so 57, in the code.
- LiveVelocityMetrics.FormatUsd: returns the scaled amount, the number of decimals and the suffix. The digit string produced by `toFixed` is not modelled.
- LiveVelocityMetrics.FormatRelativeTime: the date parser is an input (`parsedMs`, None for an invalid date). The text "Xm ago" is represented by a constructor carrying X.
- React rendering and scheduling are not modelled, and neither are the 60-second `setInterval`, the network call of `fetch`, or the purely presentational components of the page.

## Findings

| source | as written | input that shows it | evidently intended | confidence | as-written member | corrected member |
|---|---|---|---|---|---|---|
| components/LiveVelocityMetrics.tsx:66-73 | `labels[tier]` on an object literal also finds members inherited from `Object.prototype`, and such a member is truthy, so the fallback to `tier` is skipped | tier "toString" (or "constructor", "valueOf", ...) yields the inherited function, not the string "toString" | unknown tiers are shown as they are; `getTierLabel` has no caller, because the dashboard writes its labels literally at components/LiveVelocityMetrics.tsx:290-316, so no rendered output shows the leak | medium, not executed | LiveVelocityMetrics.TierLabelAsWritten, LiveVelocityMetrics.TierLookupsLeakPrototype | LiveVelocityMetrics.TierLabel |
| components/LiveVelocityMetrics.tsx:78-85 | `colors[tier]` makes the same inherited-member lookup, so the grey fallback is skipped | tier "toString" yields the inherited function as the class name, not "text-gray-400" | unknown tiers are grey; `getTierColor` has no caller, because the dashboard writes its colour classes literally at components/LiveVelocityMetrics.tsx:290-316, so no rendered output shows the leak | medium, not executed | LiveVelocityMetrics.TierColorAsWritten, LiveVelocityMetrics.TierLookupsLeakPrototype | LiveVelocityMetrics.TierColor |
