# Azure demand forecasting dashboard — a Dafny model of its core

The system is a Flask backend plus a React dashboard for cloud-capacity
planning. This project models its core: the feature, forecast and
model-score routes of the backend, and the frontend's service files and pages
that call them.

The backend holds a table of daily feature rows. It serves each date's and
each date range's resource statistics, and holiday and rolling-average views
of them. It forecasts the next 30 days of a resource per region and turns the
forecast into a capacity recommendation, as JSON or as a CSV download. It
also answers which model scored best per target.

The frontend builds the request URLs and fetches them. It keeps page state
(selected view, dates, durations, locks) and derives what it shows from the
replies.

Everything is pure functions over immutable datatypes:

- **Tables.** A table is a `seq` of rows.
- **Network.** The network is a parameter `Network<J> = string -> Option<Reply<J>>`, where `J` is an opaque JSON value.
- **Random-seeded model.** The forecasting model with its random perturbation is a `Predictor` parameter.
- **Rounding.** Pandas/NumPy rounding, `round(x, 2)` and JavaScript's `toFixed(2)` are one function, `Stats.Round2`, on exact reals.

Modules follow the source files:

| module | models |
|---|---|
| `Routes` | blueprint prefixes (`app.py`), every route rule, Flask's rule matching, query-string parsing |
| `FeatureRoutes` | `backend/routes/feature_routes.py` |
| `ModelRoutes` | `backend/routes/model_routes.py` |
| `ModelScores` | `backend/routes/model_scores_routes.py` |
| `Http` | the three services' `fetchData` and the retraining page's raw POST |
| `FeatureApi`, `ModelApi`, `MetricsApi` | `feature_api.js`, `model_api.js`, `model_metrics_api.js` |
| `Dashboard` | `DashboardLayout.jsx` |
| `FeaturePage` | `FeaturePage.jsx` |
| `ForecastPage` | `Forecast.jsx` |
| `Retraining` | `RetrainingPage.jsx` |
| `MetricsChart` | `ModelMetricsChart.jsx` |

Shared helper modules:

- `Wrappers`: `Option`/`Result`.
- `Text`: decimal rendering and parsing, split/join, strip.
- `Calendar`: proleptic Gregorian dates, `timedelta` steps, weekday, `YYYY-MM-DD` keys.
- `Frames`: filters, `unique()`, first minimum/maximum, the JSON payload object.
- `Sorting`: a sort by a real key.
- `Stats`: sum, mean, percentage, rounding.

## Model

| member | source | states |
|---|---|---|
| Routes.PathPartsOfJoin | backend/app.py:14-18 | a URL on the backend host built from clean `/`-joined segments splits back into exactly those segments |
| Routes.PathPartsWithQuery | backend/app.py:14-18 | a query string after the path leaves the path segments intact, and the query string reads back unchanged |
| Routes.ApiUrlParts | backend/app.py:14-18 | a URL under `http://localhost:5000/api/` has the path `["", "api"]` followed by the endpoint's segments |
| Routes.ServesVia | backend/app.py:14-18 | a URL whose path matches a view's full rule, with one argument per converter, is served by that view |
| Routes.SplitPair | backend/routes/model_routes.py:171-173 | a `key=value` query piece splits at its first `=`, and a piece without `=` is a key with an empty value |
| Routes.ArgGet | backend/routes/model_routes.py:171-173 | `request.args.get(key)` is the value of the first pair with that key, and is absent exactly when no pair has the key |
| Routes.QueryArgs3 | backend/routes/model_routes.py:171-173 | a three-pair query string of safe keys and values parses back into those three pairs, in order |
| Routes.QueryAfter | backend/routes/model_routes.py:171-173 | the query string of `a?q` is `q` when `a` holds no `?` |
| Http.FetchData | frontend/src/services/feature_api.js:1-12 | `fetchData` resolves to the reply's JSON exactly when the request got a reply with an OK status and a JSON body; it fails with a network error exactly when there was no reply |
| Http.PostJson | frontend/src/components/Retraining/RetrainingPage.jsx:40-42 | the raw POST resolves to the JSON body whenever there is a reply with one, whatever its status |
| FeatureApi.PathIsJoin | frontend/src/services/feature_api.js:14-41 | every feature endpoint string is its path segments joined by `/` |
| FeatureApi.UrlParts | frontend/src/services/feature_api.js:1-12 | a well-formed endpoint's URL splits into `["", "api", "features"]` followed by its segments |
| FeatureApi.EndpointServed | frontend/src/services/feature_api.js:14-41 | the rule of the view meant for every well-formed feature endpoint matches its URL, with the arguments the endpoint carries; a rolling window must not be negative |
| FeatureApi.EndpointDispatched | backend/routes/feature_routes.py:64-447 | Flask dispatches every well-formed feature endpoint to the view meant for it: any other rule matching the same URL has a converter where the meant rule has a literal, so Werkzeug ranks it lower |
| FeatureApi.OnlyOrOutranked | backend/routes/feature_routes.py:78-95 | a rule that binds an endpoint's segments is the endpoint's own rule with its arguments, or one the endpoint's rule outranks (the per-date rule against `dates/<month>`) |
| FeatureApi.DatesKeyMisrouted | backend/routes/feature_routes.py:78-95 | a per-date entry for the date `dates` builds `dates/<kind>`; the month rule serves it and outranks the per-date rule, so Flask does not dispatch it to the per-date view |
| FeatureApi.BindsArgs | backend/routes/feature_routes.py:64-452 | the endpoint's segments match its view's registered rule, binding the view's parameters to the endpoint's date, days, month or window |
| FeatureApi.NegativeWindowUnrouted | backend/routes/feature_routes.py:355 | a negative rolling window renders as `-n`, which the `int` converter refuses, so no rolling view serves it |
| FeatureApi.RangeDaysRoundTrip | frontend/src/services/feature_api.js:24-35 | the range endpoints carry the date and the day count, and the count reads back as the same integer |
| FeatureApi.SegmentsClean | frontend/src/services/feature_api.js:14-41 | no segment of a well-formed endpoint holds `/` or `?` |
| MetricsApi.PathIsJoin | frontend/src/services/model_metrics_api.js:14-25 | every metrics endpoint is `model_metrics/` followed by its segments joined by `/` |
| MetricsApi.CatalogueComplete | frontend/src/services/model_metrics_api.js:14-25 | the object has the best, all-models and top-3 endpoint for every target, and `all` is `model_metrics/all/top` |
| MetricsApi.EntryServed | frontend/src/services/model_metrics_api.js:14-25 | every metrics endpoint is served by the metrics view it names, with the target as argument |
| MetricsApi.EntryServedOnly | backend/routes/model_scores_routes.py:20-70 | no other metrics view, and no other argument, serves that endpoint |
| MetricsApi.OnlyView | backend/routes/model_scores_routes.py:20-70 | any metrics rule that matches an endpoint's path is the endpoint's own view with the endpoint's arguments |
| MetricsApi.BindsArgs | backend/routes/model_scores_routes.py:20-70 | the endpoint's segments match its view's rule under the `/api/model_metrics` prefix |
| ModelApi.ObjectOf | frontend/src/services/model_api.js:14-34 | an object literal has exactly the keys its entries name |
| ModelApi.LastWins | frontend/src/services/model_api.js:14-34 | a key written more than once in an object literal holds the value of its last entry |
| ModelApi.BuildersOverride | frontend/src/services/model_api.js:18-30 | `forecast_cpu`, `forecast_storage` and `forecast_users` are the builder functions, not the fixed paths listed first |
| ModelApi.HorizonText | frontend/src/services/model_api.js:23-33 | the horizon in the query is the given one, or 30 when it is left out |
| ModelApi.Apply | frontend/src/services/model_api.js:14-34 | calling an entry yields the service's forecast path or the download path; a fixed string cannot be called |
| ModelApi.QueryDecodes | frontend/src/services/model_api.js:23-33 | the backend's query parser reads back the region, service and horizon a builder wrote |
| ModelApi.ForecastServed | frontend/src/services/model_api.js:23-30 | a forecast builder's URL is served by the `/models/forecast` view and carries the builder's query |
| ModelApi.DownloadServed | frontend/src/services/model_api.js:32-33 | the download builder's URL is served by the CSV view and carries the builder's query |
| ModelApi.NumberQuerySafe | frontend/src/services/model_api.js:23-33 | a rendered integer carries no query separator and no `/` |
| ModelScores.BestModel | backend/routes/model_scores_routes.py:30-46 | 404 with the target in the message exactly when no top row has the target; otherwise the first such row's model and test metrics, with that row's hyperparameters when the table has the column and `N/A` when it has none |
| ModelScores.AllModels | backend/routes/model_scores_routes.py:50-57 | 404 exactly when no comparison row has the target; otherwise the target's rows in table order |
| ModelScores.RowsFor | backend/routes/model_scores_routes.py:52 | the filter keeps only rows of the target, all taken from the table, as the boolean selection it is |
| ModelScores.RowsForComplete | backend/routes/model_scores_routes.py:52 | the filter keeps every row of the target |
| ModelScores.RowsForAppend | backend/routes/model_scores_routes.py:52 | filtering distributes over concatenation and keeps a single row exactly when it is the target's, so table order and repeated rows are kept |
| ModelScores.Top3 | backend/routes/model_scores_routes.py:61-70 | 404 exactly when the target has no row; otherwise exactly three of its rows, or all of them when it has fewer, sorted by `Val_MAE`, none worse than any row left out |
| ModelScores.Best3 | backend/routes/model_scores_routes.py:68 | `sort_values("Val_MAE").head(3)` gives the smallest three (or all), sorted, as a sub-multiset of the rows |
| ModelScores.TakeBest | backend/routes/model_scores_routes.py:68 | a prefix of a sorted list is sorted and no worse than anything after it |
| Sorting.SortBy | backend/routes/model_scores_routes.py:68 | the sort yields a permutation of its input, ordered by the key |
| Sorting.InsertPermutes | backend/routes/model_scores_routes.py:68 | inserting one element adds exactly that element to the multiset |
| Sorting.InsertSorted | backend/routes/model_scores_routes.py:68 | inserting into a sorted list keeps it sorted |
| FeatureRoutes.NextQuote | backend/routes/feature_routes.py:38 | the scan stops at the first quote at or after the start, or at the end when there is none |
| FeatureRoutes.QuotedItems | backend/routes/feature_routes.py:38 | `re.findall(r"'([^']+)'")` yields non-empty items free of quotes |
| FeatureRoutes.ParseJsonField | backend/routes/feature_routes.py:20-43 | a stripped bracketed text that the JSON reader accepts is decoded; otherwise a `[`-text with a quote and a space gives its quoted items; otherwise the stripped text (or the non-text cell) is returned as is |
| FeatureRoutes.QuotedRoundTrip | backend/routes/feature_routes.py:35-39 | the items of a numpy-printed list of clean strings are recovered exactly |
| FeatureRoutes.ParseNumpy | backend/routes/feature_routes.py:35-39 | a numpy-printed list of two or more clean items that is not JSON parses to exactly those items |
| FeatureRoutes.ListItems | backend/routes/feature_routes.py:38 | the quoted items of a list's printed form are the list |
| FeatureRoutes.RangeRequest | backend/routes/feature_routes.py:171-179 | the range request is refused exactly when the date does not parse, the days do not parse, or the days are below 1 |
| FeatureRoutes.RangeRequestOfBuilder | backend/routes/feature_routes.py:171-179 | the date key and the day count the frontend renders parse back to that date and count |
| FeatureRoutes.GetRangeData | backend/routes/feature_routes.py:171-188 | a range is returned exactly when the request parses and every day from the start to start+days-1 has a row; it is the boolean selection of the table's rows dated in that span, in table order with repeated rows kept, and is never empty |
| FeatureRoutes.RangeDays | backend/routes/feature_routes.py:181-188 | a returned range has a row on each of its days and no row outside them |
| FeatureRoutes.RangeCovers | backend/routes/feature_routes.py:181-188 | a fully covered span yields a range with a row on each day and rows only on those days |
| FeatureRoutes.DatesHeld | backend/routes/feature_routes.py:186 | the date column holds exactly the days that have a row |
| FeatureRoutes.DayExtremes | backend/routes/feature_routes.py:201-207 | a row contributes min/max candidates only when its field parses to a dictionary, and those are the dictionary's entries |
| FeatureRoutes.Least | backend/routes/feature_routes.py:213 | `min(key=value)` is a candidate of least value, the first among ties, and none when there are no candidates |
| FeatureRoutes.Greatest | backend/routes/feature_routes.py:214 | `max(key=value)` is a candidate of greatest value, the first among ties, and none when there are no candidates |
| FeatureRoutes.SpanOf | backend/routes/feature_routes.py:193-272 | a resource range report is the column means to two decimals, the unrounded total, and the mean std to two decimals |
| FeatureRoutes.SpanFromDays | backend/routes/feature_routes.py:199-214 | the reported minimum and maximum are each some day's own `min`/`max` entry |
| FeatureRoutes.EconomyOf | backend/routes/feature_routes.py:275-295 | the two indicator means to two decimals, and for each indicator the first row where it is greatest, with that row's date and value |
| FeatureRoutes.SummaryOf | backend/routes/feature_routes.py:302-312 | the summed region and record counts, and every day's parsed `resources_per_region` in row order |
| FeatureRoutes.ByRange | backend/routes/feature_routes.py:193-312 | 404 with the range message exactly when the range is refused; otherwise the report of the requested kind over the range |
| FeatureRoutes.PercentChange | backend/routes/feature_routes.py:329-332 | none exactly when the weekday average is 0; otherwise the holiday-over-weekday change in percent, to two decimals |
| FeatureRoutes.UtilizationOf | backend/routes/feature_routes.py:340-349 | the holiday and weekday averages of a resource's mean (0 for no rows), and their percentage change |
| FeatureRoutes.HolidaysOf | backend/routes/feature_routes.py:324-351 | the holiday count and the listed dates are those of the range's rows flagged as holidays, one per row in row order; a date is listed exactly when some row of that date is a holiday; there is one utilization entry per resource |
| FeatureRoutes.HolidayPartition | backend/routes/feature_routes.py:324-327 | with holiday flags of 0 or 1, holidays and weekdays together account for every row of the range |
| FeatureRoutes.Holidays | backend/routes/feature_routes.py:318-351 | 404 exactly when the range is refused; otherwise the holiday report of the range |
| FeatureRoutes.DateOrdered | backend/routes/feature_routes.py:360 | `sort_values("date")` is a permutation of the table ordered by date |
| FeatureRoutes.Window | backend/routes/feature_routes.py:362 | a rolling window is the `w` resource means ending at its last row |
| FeatureRoutes.Rolling | backend/routes/feature_routes.py:355-415 | 404 on an empty table; otherwise one point per complete window, dated by its last row, with that row's mean and the window's average, both to two decimals |
| FeatureRoutes.WindowAverages | backend/routes/feature_routes.py:362-369 | each rolling average is the window's mean to two decimals |
| FeatureRoutes.RollingShape | backend/routes/feature_routes.py:360-369 | the rolling dates never go backwards, and a rolling average lies within its window's rounded bounds |
| FeatureRoutes.FormatRange | backend/routes/feature_routes.py:420-427 | one entry per range row, in row order: its date and its mean, total and std to two decimals |
| FeatureRoutes.Insights | backend/routes/feature_routes.py:429-452 | 404 with the resource's label exactly when the range is refused; otherwise the range's chart columns |
| FeatureRoutes.GetRow | backend/routes/feature_routes.py:55-59 | none exactly when the date does not parse or no row has it; otherwise the first row on that date |
| FeatureRoutes.DayOf | backend/routes/feature_routes.py:95-140 | a resource day report is the row's mean, total and std, with min and max from the parsed dictionary, or the whole parsed field when it is not one |
| FeatureRoutes.OnDate | backend/routes/feature_routes.py:95-167 | "Date not found" 404 exactly when no row has the date; otherwise the report of the requested kind for the first such row |
| FeatureRoutes.AllDates | backend/routes/feature_routes.py:64-68 | each date of the table exactly once, in the order of first appearance: a listed date's first row comes before any row of a later listed date |
| FeatureRoutes.AllMonths | backend/routes/feature_routes.py:70-75 | each month that has a row exactly once, in increasing order |
| FeatureRoutes.MonthsIncrease | backend/routes/feature_routes.py:73-74 | sorting the unique months gives strictly increasing months holding exactly the originals |
| FeatureRoutes.DatesInMonth | backend/routes/feature_routes.py:78-91 | 404 with the month in the message exactly when no row is in the month; otherwise each date of the month once, strictly increasing |
| FeatureRoutes.MonthsHaveDates | backend/routes/feature_routes.py:70-91 | every month the months route lists gets a non-empty answer from the dates route |
| ModelRoutes.CalendarOf | backend/routes/model_routes.py:93-98 | a forecast day's month, day, weekday and quarter fields, with the weekend flag set exactly on Saturday and Sunday |
| ModelRoutes.Band | backend/routes/model_routes.py:124-132 | the 95% band is the prediction ± 1.96 std, with the lower end floored at 0, and for CPU the upper end capped at 100 |
| ModelRoutes.BandBrackets | backend/routes/model_routes.py:127-132 | with a non-negative std and an in-range prediction, the band contains the prediction |
| ModelRoutes.BandInversion | backend/routes/model_routes.py:130-132 | a CPU prediction above 100 gets a band whose upper end lies below its lower end |
| ModelRoutes.MaxDate | backend/routes/model_routes.py:85 | the last date is one of the table's dates and no date is later |
| ModelRoutes.Forecast30 | backend/routes/model_routes.py:78-144 | none for an empty table; otherwise exactly 30 steps |
| ModelRoutes.StepDates | backend/routes/model_routes.py:90-93 | step `i` is dated `i+1` days after the last date, so consecutive steps are consecutive days |
| ModelRoutes.StepAfterHistory | backend/routes/model_routes.py:90-91 | every forecast day lies after every history day |
| ModelRoutes.StepWeekday | backend/routes/model_routes.py:95 | step `i`'s weekday is the last date's weekday plus `i+1`, modulo 7 |
| ModelRoutes.StepBand | backend/routes/model_routes.py:127-138 | every step's lower bound is at least 0, and for CPU every upper bound is at most 100 |
| ModelRoutes.ServiceTarget | backend/routes/model_routes.py:161-165 | a service maps to the target whose service name it is; an unknown service maps to nothing |
| ModelRoutes.ArgInt | backend/routes/model_routes.py:171-173 | `args.get(key, default, type=int)` is the parsed value, or the default when the key is missing or does not parse |
| ModelRoutes.Validate | backend/routes/model_routes.py:170-179 | 400 for an unknown service, then 400 for a horizon other than 7, 14 or 30 (30 when absent); a known service with a valid horizon is always accepted, and the request echoes the query's service, horizon and region |
| ModelRoutes.RegionRows | backend/routes/model_routes.py:182 | the region filter keeps exactly the rows of that region, as a boolean selection |
| ModelRoutes.RegionRowsAppend | backend/routes/model_routes.py:182 | the region filter distributes over concatenation and keeps a single row exactly when it is of the region, so table order and repeated rows are kept |
| ModelRoutes.SelectRows | backend/routes/model_routes.py:181-186 | with no region, the whole table; a region without rows is a 404 naming it; otherwise that region's non-empty rows |
| ModelRoutes.PrevWindow | backend/routes/model_routes.py:199 | the last `horizon` daily means, or all of them when there are fewer |
| ModelRoutes.Prepare | backend/routes/model_routes.py:181-199 | a region rejection passes through; an empty table with no region fails; otherwise the first `horizon` of 30 forecast steps over the selected rows, and their daily means |
| ModelRoutes.ForecastRoute | backend/routes/model_routes.py:168-221 | the validation error when the query is invalid; otherwise the selection outcome, and on success the body of exactly `horizon` forecasts |
| ModelRoutes.FiguresOf | backend/routes/model_routes.py:199-208 | the previous sum is over the last `horizon` daily means; the forecast sum is over the predictions; the adjustment is their difference; both percentages are 0 when the previous sum is not positive |
| ModelRoutes.FiguresShares | backend/routes/model_routes.py:201-208 | the means are the window means, and a positive previous sum gives an adjustment percentage of adjustment/previous × 100 |
| ModelRoutes.GrowthIsAdjustment | backend/routes/model_routes.py:265-266 | `(forecast/previous − 1) × 100` equals the adjustment percentage, so the CSV's two percentages agree before rounding |
| ModelRoutes.Body | backend/routes/model_routes.py:210-221 | the body echoes the request and the forecasts, and each figure is its unrounded value to two decimals |
| ModelRoutes.Rounded | backend/routes/model_routes.py:250-251 | the CSV's history is each daily mean rounded to two decimals, on its own date |
| ModelRoutes.RoundedExact | backend/routes/model_routes.py:251 | daily means that already have two decimals are unchanged by that rounding |
| ModelRoutes.Summary | backend/routes/model_routes.py:260-283 | the CSV summary row holds the figures of the rounded history to two decimals, and the risk band of the unrounded adjustment percentage |
| ModelRoutes.CsvRiskBands | backend/routes/model_routes.py:268-273 | Shortage exactly above 10%, Over-provision exactly below −10%, Sufficient in between |
| ModelRoutes.DownloadRoute | backend/routes/model_routes.py:225-296 | the same rejections as the forecast route; on success the file is named after service and region, and its rows are the history, the forecasts and the summary |
| ModelRoutes.CsvLayout | backend/routes/model_routes.py:253-285 | the CSV is one row per rounded daily mean, then one per forecast in order, then exactly one summary row, which is last |
| ModelRoutes.RoutesSucceedTogether | backend/routes/model_routes.py:168-296 | the forecast route succeeds exactly when the download route does, and both then carry `horizon` forecasts |
| ModelRoutes.SummaryAgrees | backend/routes/model_routes.py:199-283 | when the daily means already have two decimals, the CSV summary repeats the JSON body's figures, and its percent change equals the body's adjustment percentage |
| ModelRoutes.RoundingDiverges | backend/routes/model_routes.py:201-251 | two daily means of 0.004 give a JSON previous sum of 0.01 but a CSV previous sum of 0, because the CSV rounds each mean first |
| ModelRoutes.MarchRows | backend/routes/model_routes.py:31 | the March filter keeps exactly the rows dated in March, as a boolean selection |
| ModelRoutes.MarchRowsAppend | backend/routes/model_routes.py:31 | the March filter distributes over concatenation and keeps a single row exactly when it is dated in March, so table order and repeated rows are kept |
| ModelRoutes.PredictForMarch | backend/routes/model_routes.py:28-54 | none exactly when no row is in March; otherwise one point per March row, in order, with its date, actual value and prediction |
| Calendar.NextDay | backend/routes/model_routes.py:91 | the next day is a valid date strictly after this one |
| Calendar.NextDayImmediate | backend/routes/model_routes.py:91 | no valid date lies strictly between a day and the next |
| Calendar.AddDaysIncreasing | backend/routes/model_routes.py:91 | more days added gives a strictly later date |
| Calendar.AddDaysInjective | backend/routes/feature_routes.py:185 | different offsets give different dates |
| Calendar.InRangeIff | backend/routes/feature_routes.py:181-186 | a date lies in the closed span from the start to start+n−1 exactly when it is the start plus some offset below `n` |
| Calendar.OrdLex | backend/routes/feature_routes.py:182 | comparing dates is comparing year, then month, then day |
| Calendar.DaysInMonth | backend/routes/model_routes.py:91 | every month has 28 to 31 days, and 29 exactly for February of a leap year |
| Calendar.DayOfWeek | backend/routes/model_routes.py:95 | `dayofweek` is between 0 (Monday) and 6 |
| Calendar.DayOfWeekSamples | backend/routes/model_routes.py:95 | 1 January 2024 is a Monday and 1 March 2025 a Saturday |
| Calendar.NextWeekday | backend/routes/model_routes.py:95 | the next day's weekday is one more, modulo 7 |
| Calendar.AddDaysWeekday | backend/routes/model_routes.py:95 | `n` days later the weekday has moved on by `n`, modulo 7 |
| Calendar.Quarter | backend/routes/model_routes.py:97 | `(month − 1) // 3 + 1` is the quarter containing the month |
| Calendar.DateKey | backend/routes/model_routes.py:135 | `strftime("%Y-%m-%d")` is ten characters with dashes at positions 4 and 7 |
| Calendar.MonthKey | backend/routes/feature_routes.py:73 | a month's `YYYY-MM` text is the first seven characters of its date key |
| Calendar.ParseDateKey | backend/routes/feature_routes.py:174 | a date key that parses names a valid date |
| Calendar.DateKeyRoundTrip | backend/routes/feature_routes.py:174 | parsing a rendered date key gives back the date |
| Calendar.DateKeyInjective | backend/routes/feature_routes.py:67 | different dates render to different keys |
| Text.IntRoundTrip | backend/routes/feature_routes.py:175 | `int()` reads back any integer JavaScript renders |
| Text.NatRoundTrip | backend/routes/feature_routes.py:355 | the `int` converter reads back any rendered natural number |
| Text.StripIdempotent | backend/routes/feature_routes.py:23 | stripping twice is stripping once |
| Text.StripSlice | backend/routes/feature_routes.py:23 | `strip()` yields a slice of the text with no white space at either end |
| Text.JoinSplit | frontend/src/services/feature_api.js:14-41 | splitting a text and joining it back with the same separator gives the text |
| Text.SplitJoin | frontend/src/services/feature_api.js:14-41 | joining clean segments and splitting the result gives the segments back |
| Frames.Unique | backend/routes/feature_routes.py:67 | `unique()` keeps every element, each once, ordered by the position of its first occurrence |
| Frames.WhereDropsOne | frontend/src/components/charts/ModelMetricsChart.jsx:24 | a filter that rejects one element and keeps everything around it removes exactly that element and keeps the order |
| Frames.Where | backend/routes/feature_routes.py:324-325 | a boolean filter keeps exactly the rows that satisfy it |
| Frames.WhereSplit | backend/routes/feature_routes.py:324-325 | complementary filters split a table between them |
| Frames.WhereExt | backend/routes/feature_routes.py:324-325 | two masks that agree on every row of the table select the same rows |
| Frames.FirstMax | backend/routes/feature_routes.py:281-282 | `idxmax` picks the first position of the greatest value |
| Frames.Payload | frontend/src/components/Dashboard/DashboardLayout.jsx:67-78 | the payload object has exactly the listed keys, and a key's value is the result of its last position |
| Stats.Mean | backend/routes/model_routes.py:202 | the mean times the count is the sum, and an empty mean is 0 |
| Stats.SumAppend | backend/routes/model_routes.py:201 | the sum of a concatenation is the sum of the parts |
| Stats.MeanBetween | backend/routes/feature_routes.py:362 | a mean lies between any common bounds of its values |
| Stats.PercentOf | backend/routes/model_routes.py:208 | the percentage is 0 for a non-positive whole, otherwise part/whole × 100 |
| Stats.Round2 | backend/routes/model_routes.py:215-220 | `round(x, 2)` has two decimals and is within half a hundredth of `x`, keeping its sign |
| Stats.Round2Exact | backend/routes/model_routes.py:251 | a value with two decimals rounds to itself |
| Stats.Round2Idempotent | backend/routes/model_routes.py:251 | rounding a rounded value changes nothing |
| Stats.Round2Odd | backend/routes/model_routes.py:219-220 | rounding is symmetric about zero |
| Stats.Round2Monotone | backend/routes/feature_routes.py:369 | rounding preserves order |
| Dashboard.QueryCounts | frontend/src/components/Dashboard/DashboardLayout.jsx:18-46 | the overview runs 13 queries, the last 3 of them rolling; resources runs 3 and regions runs 5, none rolling |
| Dashboard.Generators | frontend/src/components/Dashboard/DashboardLayout.jsx:18-46 | a list has no rolling generator exactly when all its entries are static |
| Dashboard.Lookup | frontend/src/components/Dashboard/DashboardLayout.jsx:75 | a key's path in the endpoints object, and `undefined` exactly when no entry has the key |
| Dashboard.StaticKeyIsName | frontend/src/components/Dashboard/DashboardLayout.jsx:75 | the reverse lookup of a static entry returns its own name exactly when no earlier key shares its path |
| Dashboard.Keys | frontend/src/components/Dashboard/DashboardLayout.jsx:67-78 | one payload key per query, in order: the reverse-looked-up name, or the rolling key |
| Dashboard.Initial | frontend/src/components/Dashboard/DashboardLayout.jsx:49-54 | the page starts empty and loading, on the overview and CPU, with window 7 and the window locked |
| Dashboard.All | frontend/src/components/Dashboard/DashboardLayout.jsx:61-65 | `Promise.all` succeeds exactly when every fetch does, with the results in order |
| Dashboard.Results | frontend/src/components/Dashboard/DashboardLayout.jsx:61-65 | one fetch per query, with a rolling query fetched through the feature service for the current window |
| Dashboard.Load | frontend/src/components/Dashboard/DashboardLayout.jsx:56-86 | loading ends; when every fetch succeeds the data is the payload of the view's keys, otherwise it is unchanged; controls are untouched |
| Dashboard.Apply | frontend/src/components/Dashboard/DashboardLayout.jsx:96-136 | each control changes only its own setting; a window edit is ignored while locked |
| Dashboard.ReloadControls | frontend/src/components/Dashboard/DashboardLayout.jsx:88-90 | a reload follows exactly a lock toggle or a change of view |
| Dashboard.EditThenLock | frontend/src/components/Dashboard/DashboardLayout.jsx:124-136 | unlocking, editing the window and locking again reloads with the new window |
| Dashboard.KeyedNames | frontend/src/components/Dashboard/DashboardLayout.jsx:67-78 | with a catalogue keyed by name, the payload keys are the table's names |
| Dashboard.TableNameList | frontend/src/components/Dashboard/DashboardLayout.jsx:18-46 | the names of a view's queries are its static names then `cpuRoll`, `storageRoll`, `usersRoll`, and none is `undefined` |
| Dashboard.ChartNames | frontend/src/components/Dashboard/DashboardLayout.jsx:145-283 | every key a chart of the view reads is among the view's query names |
| Dashboard.ChartsFed | frontend/src/components/Dashboard/DashboardLayout.jsx:145-283 | after a successful load, every chart on screen finds its data |
| FeaturePage.Initial | frontend/src/pages/FeaturePage/FeaturePage.jsx:7-16 | the page starts in date mode with nothing selected, duration 7 and the duration unlocked |
| FeaturePage.Reset | frontend/src/pages/FeaturePage/FeaturePage.jsx:18-28 | a mode change clears the selections, dates and data, unlocks, and sets the duration to 1 for dates and 7 otherwise |
| FeaturePage.ResetForgets | frontend/src/pages/FeaturePage/FeaturePage.jsx:18-28 | the state after a mode change depends only on the mode and the loaded months |
| FeaturePage.LoadMonths | frontend/src/pages/FeaturePage/FeaturePage.jsx:30-38 | the months are the reply's list (empty when missing) when it is read, and unchanged when the fetch fails or the read throws; nothing else changes |
| FeaturePage.Listed | frontend/src/pages/FeaturePage/FeaturePage.jsx:30-38 | the effect goes on with the reply's list (empty when missing) exactly when the fetch succeeded and the read did not throw |
| FeaturePage.SliceTo | frontend/src/pages/FeaturePage/FeaturePage.jsx:55-58 | `slice(0, end)` is a prefix: `end` items, or with a negative end all but the last `-end` |
| FeaturePage.TrimAsWritten | frontend/src/pages/FeaturePage/FeaturePage.jsx:48-58 | the page's cut of the date list is a prefix of it |
| FeaturePage.TrimOverrun | frontend/src/pages/FeaturePage/FeaturePage.jsx:53-58 | five dates with a 7-day run keep 4 start dates, none of which fits, where the intended cut keeps none |
| FeaturePage.Trim | frontend/src/pages/FeaturePage/FeaturePage.jsx:48-58 | the offered start dates are a prefix of the list, each run from one fits inside the list, and no fitting start is dropped |
| FeaturePage.TrimAgrees | frontend/src/pages/FeaturePage/FeaturePage.jsx:53-58 | when the run is no longer than the list plus one, the page's cut is the intended one |
| FeaturePage.LoadDates | frontend/src/pages/FeaturePage/FeaturePage.jsx:40-63 | no month gives no dates; a failed fetch or a throwing read keeps them; date mode shows the reply's dates; the range modes show the list cut by the page's own `slice`, negative end included |
| FeaturePage.OfferedRangesFit | frontend/src/pages/FeaturePage/FeaturePage.jsx:40-63 | when the run is at most one day longer than the month's date list, every start date the page offers begins a run that fits in the list |
| FeaturePage.LoadDatesIntended | frontend/src/pages/FeaturePage/FeaturePage.jsx:40-63 | the dates effect with the intended cut: the same as the page except that the range modes show only the start dates whose run fits |
| FeaturePage.OfferedRangesFitIntended | frontend/src/pages/FeaturePage/FeaturePage.jsx:53-58 | with the intended cut, every offered start date begins a run that fits, whatever the run's length |
| FeaturePage.RangeDays | frontend/src/pages/FeaturePage/FeaturePage.jsx:76-78 | the day count is 1 for dates, 7 for weeks and the locked duration for custom |
| FeaturePage.Requests | frontend/src/pages/FeaturePage/FeaturePage.jsx:80-123 | date mode makes 5 requests and the range modes 9, keyed in the page's order |
| FeaturePage.FetchAll | frontend/src/pages/FeaturePage/FeaturePage.jsx:80-127 | the sequential fetches succeed exactly when each does, with the results in order |
| FeaturePage.LoadFeatures | frontend/src/pages/FeaturePage/FeaturePage.jsx:64-133 | nothing happens without a selected date, in custom mode without a positive locked duration, or when a fetch fails; otherwise the data holds exactly the mode's keys with their results |
| FeaturePage.RangeRequestsShape | frontend/src/pages/FeaturePage/FeaturePage.jsx:95-123 | every range request carries the selected date and the page's day count |
| FeaturePage.RangeRequestsRead | frontend/src/pages/FeaturePage/FeaturePage.jsx:95-123 | the backend's range parser reads back the selected date and the day count of every range request |
| FeaturePage.EditDuration | frontend/src/pages/FeaturePage/FeaturePage.jsx:155-161 | the duration input changes only the duration, and not while locked |
| FeaturePage.ToggleLock | frontend/src/pages/FeaturePage/FeaturePage.jsx:164-172 | the lock flips; locking records the duration and unlocking forgets it; the date and data are cleared |
| FeaturePage.ToggleThenLoad | frontend/src/pages/FeaturePage/FeaturePage.jsx:164-172 | right after a lock toggle no feature is fetched, since no date is selected |
| FeaturePage.LockUnlock | frontend/src/pages/FeaturePage/FeaturePage.jsx:164-172 | locking and unlocking returns to an unlocked page with the same duration |
| FeaturePage.UnlockHides | frontend/src/pages/FeaturePage/FeaturePage.jsx:199-233 | unlocking a custom duration hides the date picker and the results |
| FeaturePage.LockCoherentKept | frontend/src/pages/FeaturePage/FeaturePage.jsx:13-27 | a captured duration is held exactly while the duration is locked: true on mount, and kept by the date-type reset, the lock button, the duration box, the month and date selectors, and the three effects |
| FeaturePage.ShownCustomIsLocked | frontend/src/pages/FeaturePage/FeaturePage.jsx:220-229 | in every reachable state, custom results are only shown with a locked duration, so the caption's day count is never null |
| ForecastPage.Initial | frontend/src/pages/ForecastPage/Forecast.jsx:14-19 | the page starts loading with no forecast, on a selection the page offers |
| ForecastPage.Choose | frontend/src/pages/ForecastPage/Forecast.jsx:94-123 | a selector changes only its own setting |
| ForecastPage.ChoiceRefetches | frontend/src/pages/ForecastPage/Forecast.jsx:64 | a choice triggers a fetch exactly when it changes the selected value |
| ForecastPage.Endpoint | frontend/src/pages/ForecastPage/Forecast.jsx:26-33 | the page calls the builder stored under its service's key, which asks for its own service |
| ForecastPage.Load | frontend/src/pages/ForecastPage/Forecast.jsx:21-64 | loading ends; on a readable reply the forecast list (empty when missing) and the summary are set; on a failed fetch, or a reply whose reading throws (a `null` body), the list is emptied and the summary kept |
| ForecastPage.Share | frontend/src/pages/ForecastPage/Forecast.jsx:47-50 | the percentage as `toFixed(2)` shows it, or 0 for a non-positive previous sum |
| ForecastPage.SummaryOf | frontend/src/pages/ForecastPage/Forecast.jsx:37-51 | the means and previous sum pass through; the forecast sum and adjustment show two decimals; the growth and adjustment percentages are rounded, and 0 without a positive previous sum |
| ForecastPage.PageQueryValid | frontend/src/pages/ForecastPage/Forecast.jsx:33 | every selection the page offers passes the backend's validation, which reads back its service, horizon and region |
| ForecastPage.LoadServed | frontend/src/pages/ForecastPage/Forecast.jsx:33-35 | the page's fetch URL is served by the forecast view with the page's query, and that query validates |
| ForecastPage.DownloadUrl | frontend/src/pages/ForecastPage/Forecast.jsx:66-73 | the opened URL is served by the CSV view and carries the page's region, service and horizon |
| ForecastPage.DownloadAccepted | frontend/src/pages/ForecastPage/Forecast.jsx:66-73 | the download query validates for every offered selection |
| ForecastPage.PageAdjustment | frontend/src/pages/ForecastPage/Forecast.jsx:75-78 | the risk percentage is recomputed from the shown adjustment and previous sum, and is 0 before any summary |
| ForecastPage.RiskLabel | frontend/src/pages/ForecastPage/Forecast.jsx:80-89 | Short exactly above 10, Over-provisioned exactly below −10, Sufficient otherwise |
| ForecastPage.LabelBands | frontend/src/pages/ForecastPage/Forecast.jsx:80-89 | the page's three labels fall on the same bands as the CSV's risk indicator |
| ForecastPage.InitialSufficient | frontend/src/pages/ForecastPage/Forecast.jsx:75-81 | before any data the page shows Sufficient |
| ForecastPage.FromBody | frontend/src/pages/ForecastPage/Forecast.jsx:35-46 | the page reads the body's forecasts and figures as sent |
| ForecastPage.PageAndCsvDisagree | frontend/src/pages/ForecastPage/Forecast.jsx:75-89 | a previous sum of 100 and a forecast of 110.004 make the CSV say Shortage while the page says Sufficient, because the page compares the rounded percentage |
| ForecastPage.ChangeCaption | frontend/src/pages/ForecastPage/Forecast.jsx:177-180 | a positive change reads "Increased", and zero or a negative one "Decreased", followed by activity or usage |
| Retraining.Icon | frontend/src/components/Retraining/RetrainingPage.jsx:113-117 | each of success, error and warning has its own icon, and every other type gets the information sign |
| Retraining.IconsOfKinds | frontend/src/components/Retraining/RetrainingPage.jsx:113-117 | the four notification kinds have four different icons |
| Retraining.ActionUrl | frontend/src/components/Retraining/RetrainingPage.jsx:40-41 | the POST goes to the API base followed by the endpoint name and, when forced, `?force=true` |
| Retraining.ForceQuery | frontend/src/components/Retraining/RetrainingPage.jsx:40-41 | the URL carries the query `force=true` exactly when forced |
| Retraining.RetrainNotice | frontend/src/components/Retraining/RetrainingPage.jsx:44-49 | success exactly when some model status came back, with a count no larger than the list; otherwise the "No models were retrained" warning |
| Retraining.RetrainCount | frontend/src/components/Retraining/RetrainingPage.jsx:45-46 | the count reported is the number of statuses without an error |
| Retraining.SwitchNotice | frontend/src/components/Retraining/RetrainingPage.jsx:68-72 | success with the count exactly when some model switched; otherwise an info note with the server's message, or "No models were switched" |
| Retraining.FetchStatus | frontend/src/components/Retraining/RetrainingPage.jsx:13-21 | the status is stored on success; a failure sets the error text instead |
| Retraining.FetchComparison | frontend/src/components/Retraining/RetrainingPage.jsx:23-30 | the comparison is stored on success; a failure changes nothing |
| Retraining.LoadData | frontend/src/components/Retraining/RetrainingPage.jsx:83-91 | after loading, the error is set exactly when the status fetch failed, and each result is present exactly when its fetch succeeded |
| Retraining.Answer | frontend/src/components/Retraining/RetrainingPage.jsx:41-45 | the handler goes on with the reply's fields exactly when the POST succeeded and reading them did not throw, and then with exactly those fields |
| Retraining.Retrain | frontend/src/components/Retraining/RetrainingPage.jsx:37-59 | a failed POST, or a reply whose reading throws, notifies "Retraining failed" and refetches nothing; otherwise the notice is from the reply and status and comparison are refetched; loading ends either way |
| Retraining.Switch | frontend/src/components/Retraining/RetrainingPage.jsx:61-81 | a failed POST, or a reply whose reading throws, notifies "Model switching failed" and refetches nothing; otherwise the notice is from the reply and only the status is refetched |
| Retraining.ErrorOnlyFromStatus | frontend/src/components/Retraining/RetrainingPage.jsx:13-21 | a button press sets the error only through a failed status fetch, and never clears it |
| Retraining.ViewOf | frontend/src/components/Retraining/RetrainingPage.jsx:93-94 | the page shows loading first, then the error text, then the dashboard |
| Retraining.ErrorStays | frontend/src/components/Retraining/RetrainingPage.jsx:93-94 | once the error page shows, no button press leaves it |
| Retraining.PressIcon | frontend/src/components/Retraining/RetrainingPage.jsx:53-56 | every press ends with a notification, which shows the error icon exactly when the POST failed or its reply could not be read |
| Retraining.RetrainKeysAbsent | frontend/src/services/model_api.js:14-34 | the service object has no `model_retrain`, `model_switch`, `model_retrain_status` or `model_retrain_compare` key |
| MetricsChart.InitialVisible | frontend/src/components/charts/ModelMetricsChart.jsx:18-19 | all four metrics start visible, without repeats |
| MetricsChart.Toggle | frontend/src/components/charts/ModelMetricsChart.jsx:21-27 | toggling flips exactly that metric's visibility; a hidden metric goes to the end; a visible metric listed once is removed from its position, the others keeping their order |
| MetricsChart.DropVisible | frontend/src/components/charts/ModelMetricsChart.jsx:24 | `filter` removes a metric listed once from exactly its position |
| MetricsChart.ToggleDistinct | frontend/src/components/charts/ModelMetricsChart.jsx:21-27 | toggling never repeats a metric |
| MetricsChart.ToggleTwice | frontend/src/components/charts/ModelMetricsChart.jsx:21-27 | toggling twice shows the same metrics, and restores the list exactly when the metric was hidden |
| MetricsChart.ToggleWithin | frontend/src/components/charts/ModelMetricsChart.jsx:67-76 | the checkboxes keep the visible list within the four metrics |
| MetricsChart.Labels | frontend/src/components/charts/ModelMetricsChart.jsx:29 | one upper-cased label per visible metric, in order |
| MetricsChart.AllLabels | frontend/src/components/charts/ModelMetricsChart.jsx:29 | the four labels read MAE, RMSE, MAPE and BIAS |
| MetricsChart.Color | frontend/src/components/charts/ModelMetricsChart.jsx:37-50 | a metric's colour is grey exactly when it is not one of the four |
| MetricsChart.ColorsDistinct | frontend/src/components/charts/ModelMetricsChart.jsx:37-50 | the four metrics have four different colours |
| MetricsChart.ChartOf | frontend/src/components/charts/ModelMetricsChart.jsx:29-53 | one label, value and colour per visible metric, in the visible order, and the dataset named by the given model name or the record's own |
| MetricsChart.ToggleAddsBar | frontend/src/components/charts/ModelMetricsChart.jsx:21-53 | showing a hidden metric appends its label, value and colour to the chart, and changes nothing else |
| MetricsChart.ToggleDropsBar | frontend/src/components/charts/ModelMetricsChart.jsx:21-53 | hiding a visible metric removes exactly its label, value and colour, the other bars keeping their order |
| MetricsChart.DatasetLabel | frontend/src/components/charts/ModelMetricsChart.jsx:35 | the given model name, or the record's own model name when none is given |

## Left out

- Floating point: all numbers are exact reals. NaN is not modelled: `Number()` of a non-numeric input, and the mean of an empty column, become 0.
- Dashboard.Apply, FeaturePage.EditDuration: the typed window and duration are whole numbers. `Number("7.5")` keeps 7.5. On the dashboard, the `int` converter then refuses `cpu/rolling/7.5` and the load fails. On the feature page, a fractional duration reaches `slice` and the range routes' `int()`. Neither path is modelled.
- Dashboard.Apply, FeaturePage.EditDuration: an edit is accepted whenever the state allows it. The page does not render the control at those times: the dashboard's controls are hidden while it loads, and the duration input exists only in custom mode.
- Stats.Round2: rounds half away from zero on the exact value. Python's `round` and NumPy's `.round(2)` round half to even on the binary double. JavaScript's `toFixed(2)` rounds the double's exact decimal expansion. The three can differ in the last digit on ties.
- The CSV and JSON files are not modelled.
  - The feature table, the score tables and the encoded insights table are inputs.
  - JSON values are an opaque type parameter.
  - `json.loads` and `ast.literal_eval` are one `JsonReader` parameter. The dictionary test and its `min`/`max` entries are a `DictReader` parameter. Reading the replies on the frontend is a reader parameter too.
  - CSV text rendering (`to_csv`) is not modelled: the CSV is its sequence of rows.
  - FeatureRoutes.HolidaysOf: `holiday_dates` is a list of dates here. The route lists pandas timestamps, and `jsonify` renders each as an HTTP date such as `Mon, 25 Dec 2023 00:00:00 GMT`, not as `YYYY-MM-DD` text. That rendering is not modelled.
- The forecasting model, its input features, and the seeded random perturbation of lags and rolling windows are a `Predictor` parameter (`model_routes.py:100-124`). Only the dates, calendar fields and the 95% band built around each prediction are modelled.
- The per-day `groupby("date").mean()` of the forecast routes is a `DailyMeans` parameter. It is not computed from the rows.
- `safe_value` is the identity, because NumPy scalar conversion has no counterpart on exact reals.
- Broad `try/except` blocks that turn an unexpected exception into a 500 are not modelled. The one 500 the model keeps is forecasting on an empty table with no region.
- FeatureRoutes.GetRangeData: dates are unbounded. A pandas timestamp stops at the year 2262. A start date plus a day count beyond that raises outside the route's `try` and gives a 500. The model answers such a range with a 404 or with the rows.
- Parsing is partial.
  - `pd.to_datetime` is modelled for `YYYY-MM-DD` text only.
  - `int()` is modelled on ASCII text: it strips ASCII white space and reads ASCII digits. Python also accepts underscores between digits, non-ASCII digits, and non-ASCII white space such as U+00A0 around the number.
  - The query-string parser does no percent-decoding.
- FeatureRoutes.DateOrdered, ModelScores.Best3: pandas' sort is not stable. The model's sort keeps ties in input order, so among equal dates or equal `Val_MAE` the order is not the source's.
- The `data_routes.py` and `insights_routes.py` blueprints are not part of this model. Neither are the general `api.js` service and its `endpoints` object, which the dashboard takes as a parameter catalogue.
- The retraining endpoint names `model_retrain`, `model_switch`, `model_retrain_status` and `model_retrain_compare` are parameters. `model_api.js` has no such keys, and `Retraining.RetrainKeysAbsent` proves it.
- The following frontend behaviour is not modelled:
  - rendering, chart drawing and CSS;
  - the 5-second notification timer;
  - `window.open`;
  - the order in which concurrent promises settle;
  - stale replies arriving after a newer request.

  A network snapshot is a pure function, so two fetches of one URL in one step see the same reply.
- Retraining.RetrainNotice: the success count is stated as some count up to the list length. The exact count, the statuses without an error, is stated separately by `Retraining.RetrainCount`.
- FeatureRoutes.SpanOf, FeatureRoutes.EconomyOf, FeatureRoutes.FormatRange, FeatureRoutes.Rolling, FeatureRoutes.PercentChange, ModelRoutes.Body, ModelRoutes.Summary: each rounded figure is stated as within half a hundredth of the exact value, with two decimals. This is slightly weaker than naming the rounding tie rule.

## Findings

| source | as written | input that shows it | evidently intended | confidence | as-written member | corrected member |
|---|---|---|---|---|---|---|
| frontend/src/pages/FeaturePage/FeaturePage.jsx:53-58 | `availableDates.slice(0, availableDates.length - (dur - 1))`. When the run is longer than the list, the end is negative and `slice` counts it back from the end. | A month whose available dates are 2023-02-24 … 2023-02-28 (five dates) with a 7-day week run. The end is 5 − 6 = −1, so four start dates are offered, and none of them has 7 days of data. | Offer only the start dates whose run fits: the first max(0, n − (dur − 1)) dates. | not executed | FeaturePage.TrimAsWritten, FeaturePage.TrimOverrun, FeaturePage.LoadDates | FeaturePage.Trim, FeaturePage.TrimAgrees, FeaturePage.LoadDatesIntended, FeaturePage.OfferedRangesFitIntended |
