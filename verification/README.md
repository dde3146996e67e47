# Run dashboard core, modelled in Dafny

This project models the logic inside a small React dashboard that monitors
machine-learning runs on a remote tracking service. The dashboard lists runs
and shows one run's metric history as sparklines. The model covers three parts:

- **Run synchronisation** (`src/App.jsx`, `fetchRuns`). The guard on the
  connection settings comes first. Each raw run object is then normalised
  through JavaScript `||` fallback chains. The list is sorted newest first by
  `updatedAt || createdAt || 0`. A selected run is re-pointed at its fresh
  record. The busy flag and error banner move as a state transition driven by
  the fetch outcome.
- **Run history** (`src/components/RunDetails.jsx`). The history fetch is a
  state transition. Numeric series are extracted from the samples, with the
  step read through `_step ?? step`. The panel shows the first six summary
  entries. `ChartCard` decides between "Last", the sparkline and "No data".
- **Sparkline geometry** (`src/components/Sparkline.jsx`). A series maps to
  `MoveTo`/`LineTo` commands inside a 300 by 80 view box with 4 units of
  padding. The arithmetic is exact, over `real`.

Modules, one per concern:

| file | module | contents |
|---|---|---|
| `wrappers.dfy` | `Wrappers` | `Option`, and `Result` (a value, or the message of a thrown error) |
| `decimal.dfy` | `Decimal` | decimal rendering of status codes and indices, with its parser |
| `js.dfy` | `Js` | JSON values, truthiness, `\|\|`, `??`, property reads, `===`, `Object.entries` |
| `fetch.dfy` | `Fetch` | fetch outcomes taken as inputs; payload extraction and error strings |
| `runs.dfy` | `RunRecords` | the `Run` record and normalisation |
| `run_order.dfy` | `RunOrder` | effective time and the stable newest-first sort |
| `run_sync.dfy` | `RunSync` | connection guard, selection preservation, refresh transition |
| `run_history.dfy` | `RunHistory` | history transition, series, summary tiles, chart cards |
| `sparkline.dfy` | `Sparkline` | the geometry and its inverse |

Inputs the program obtains from outside become parameters:

- The network result is a `FetchOutcome`: either a rejection message, or a
  status with a body that parsed or did not parse.
- `new Date(...)` becomes a `TimeParser` function parameter (`Json -> int`).
- The selection and the connection settings are values passed in.

Four behaviours of the code are easy to miss:

- **A `null` element in the runs payload is fatal.** `r.id` throws a
  `TypeError` inside `.map`, the `catch` records it, and the list stays as it
  was (`RunSync.RefreshNullElementFails`).
- **A failed history fetch keeps the previous samples.** Nothing ties a
  history response to the run it was requested for, so a late response for an
  earlier run replaces the samples shown (`RunHistory.StaleHistoryOverwrites`).
- **A flat series is drawn on the bottom padding line**, at y = 76
  (`Sparkline.ExtremesOnPadding`).
- **A one-point series has `x = 0/0`**, which is `NaN`.
  `Sparkline.Layout` therefore requires a length other than one. Its only
  caller, `ChartCard`, draws a series only when it has at least two values.

## Model

| member | source | states |
|---|---|---|
| `Js.Truthy` | src/App.jsx:41-49 | a value is falsy exactly when it is one of `undefined`, `null`, `false`, `0`, `''`; every array and object is truthy |
| `Js.Or` | src/App.jsx:41-49 | `a \|\| b` is one of its operands, truthy iff either operand is, and a truthy `a` is kept |
| `Js.Coalesce` | src/components/RunDetails.jsx:35 | `a ?? b` is one of its operands, nullish iff both are, and a non-nullish `a` is kept |
| `Js.OrChain` | src/App.jsx:41-49 | the left-grouped chain yields one of its operands, truthy iff some operand is |
| `Js.OrElse` | src/App.jsx:41-49 | a fallback chain yields its first truthy operand, or its last operand when none is truthy, and the result is one of the operands |
| `Js.OrChainIsFirstTruthy` | src/App.jsx:41-49 | the left-grouped `a \|\| b \|\| c` chain the source writes equals the first-truthy-else-last reading, for chains of any length |
| `Js.FirstTruthyFacts` | src/App.jsx:41-49 | a chain's result is truthy exactly when some operand is truthy, and a truthy first operand always wins |
| `Js.FirstTruthyOfTwo` | src/App.jsx:43-49 | for `a \|\| b`: a truthy `a` is kept, otherwise the result is `b` |
| `Js.FirstTruthyOfThree` | src/App.jsx:41-46 | for `a \|\| b \|\| c`: the first truthy of `a` and `b` is kept, otherwise the result is `c` |
| `Js.CoalesceKeepsFalsyValues` | src/components/RunDetails.jsx:35 | `??` keeps every non-nullish value, including falsy ones such as `0`; it differs from `\|\|` only on falsy non-nullish values |
| `Js.Lookup` | src/App.jsx:40-49 | a property read yields the value of the first property with that key, or `undefined` when no property has that key |
| `Js.Get` | src/App.jsx:40-49 | reading a property of a non-object yields `undefined`; on an object it is the value of the first property with that key, else `undefined` |
| `Js.Entries` | src/components/RunDetails.jsx:60 | `Object.entries` lists an object's properties in order; for an array or a string, entry `i` is the decimal index `i` paired with element `i` (a one-character string); nothing for numbers and booleans |
| `Js.ArrayOrEmpty` | src/App.jsx:39 | `Array.isArray(data) ? data : []`: an array payload gives its elements, anything else no elements |
| `Js.StrictEquals` | src/App.jsx:55 | `===` holds only between equal values, and holds for every pair of equal primitives; arrays and objects from a response are never `===` |
| `Decimal.NatToString` | src/App.jsx:35 | a status renders as a non-empty string of digits with no leading zero, one digit exactly for values below ten |
| `Decimal.ParseNatToString` | src/App.jsx:35 | the rendered status reads back as the same number |
| `Decimal.NatToStringInjective` | src/App.jsx:35 | distinct statuses render as distinct strings |
| `Fetch.ErrorText` | src/App.jsx:59 | `e.message \|\| 'Unknown error'` keeps a non-empty message and is `'Unknown error'` for an empty one |
| `Fetch.StatusMessage` | src/App.jsx:34-35 | the message is "Failed to fetch <what>: " followed by decimal digits that read back as the status |
| `Fetch.Payload` | src/App.jsx:33-37 | a fetch yields its parsed body only for a status in 200-299 with a body that parses; a rejection keeps its message; a bad status yields "Failed to fetch …: <status>"; an ok status whose body does not parse yields the parse error's message |
| `Fetch.StatusMessagesDistinct` | src/App.jsx:34-35 | different failing statuses produce different error messages |
| `RunRecords.NormalizeChains` | src/App.jsx:39-50 | `Normalize` (the `.map` callback): each field of the record is the first truthy of its source fields, in the source's order, else the chain's last operand; `id` and `state` are copied |
| `RunRecords.NormalizeName` | src/App.jsx:41 | `name` is a truthy `display_name`, else a truthy `name`, else `id`; an empty `display_name` is skipped |
| `RunRecords.NormalizeTimestamps` | src/App.jsx:43-44 | `updatedAt` is set iff one of `updatedAt`, `updated_at`, `heartbeatAt`, `heartbeat_at` is, and a set `updatedAt` wins; `createdAt` is set iff `createdAt` or `created_at` is |
| `RunRecords.NormalizeDefaults` | src/App.jsx:46-49 | `summary` defaults to `{}` when neither source is truthy, `tags` to `[]`, `notes` to `''`, `config` to `{}` |
| `RunRecords.NormalizeAll` | src/App.jsx:39-50 | a non-array payload gives no runs; an array gives one run per element in order, unless an element is nullish, when the first such element's `TypeError` message is the result |
| `RunRecords.NormalizeEach` | src/App.jsx:39-50 | elements normalise front to back, each element to exactly one run; the first nullish element aborts with its `TypeError` message |
| `RunRecords.FirstNullish` | src/App.jsx:40 | the element whose `r.id` read throws is the first nullish one |
| `RunOrder.EffectiveTimeFallback` | src/App.jsx:51 | `EffectiveTime`, the comparator's key: a run is ordered by `updatedAt` when set, else by `createdAt` when set, else by time 0 |
| `RunOrder.Insert` | src/App.jsx:51 | inserting into a newest-first list keeps it newest first and adds exactly the one run |
| `RunOrder.SortByTime` | src/App.jsx:51 | the sorted list is a permutation of the normalised list and its effective times never increase |
| `RunOrder.SortIsStable` | src/App.jsx:51 | within each group of equal effective time the sorted list keeps the input order, as the stable `Array.prototype.sort` does |
| `RunOrder.InsertKeepsGroups` | src/App.jsx:51 | inserting a run puts it at the front of its own time group and changes no other group |
| `RunSync.IsConfigured` | src/App.jsx:20 | `apiKey && entity && project` is truthy exactly when all three settings are truthy, that is, non-empty |
| `RunSync.FindById` | src/App.jsx:55 | `find` returns the first run whose id is strictly equal, or nothing when none is |
| `RunSync.Reselect` | src/App.jsx:54-57 | no selection stays empty; a selected id still listed selects the first fresh run with that id; otherwise the old selection is kept |
| `RunSync.FetchedRuns` | src/App.jsx:32-51 | a successful fetch yields a newest-first permutation of the normalised payload; a failed fetch or a nullish element yields that error's message |
| `RunSync.BeginRefresh` | src/App.jsx:29-30 | a refresh starts busy with the error cleared, and touches neither the list nor the selection |
| `RunSync.CompleteRefresh` | src/App.jsx:31-62 | a settled fetch clears the busy flag; success replaces the list and re-points the selection; failure keeps both and sets the error text |
| `RunSync.Refresh` | src/App.jsx:20-62 | unconfigured, nothing changes; configured, the busy flag ends false, the error is empty iff the fetch succeeded, a bad status reads "Failed to fetch runs: <status>", and a failure keeps the list and selection |
| `RunSync.RefreshNonArrayPayload` | src/App.jsx:39-52 | a successful non-array payload empties the list and clears the error, with the selection left in place |
| `RunSync.RefreshListsPayload` | src/App.jsx:39-52 | after a successful refresh every payload element appears as a run, every run comes from an element, each normalised element appears exactly as often as it occurs (multiset equality), and the list is newest first |
| `RunSync.RefreshNullElementFails` | src/App.jsx:39-61 | a `null` element fails the whole refresh: list and selection unchanged, the `TypeError` message shown |
| `RunSync.LastSettledRefreshWins` | src/App.jsx:27-63 | with overlapping refreshes, the response that settles last decides the list |
| `RunSync.UpdateStampOrders` | src/App.jsx:44-51 | runs carrying `updatedAt` stamps are ordered by those stamps |
| `RunSync.RefreshOrdersNewestFirst` | src/App.jsx:51-52 | a successful response whose array normalises to an older run followed by a newer one lists the newer run first, clears the error and ends loading |
| `RunSync.ServerErrorKeepsView` | src/App.jsx:34-35 | a 500 keeps the list and the selection and shows "Failed to fetch runs: 500" |
| `RunHistory.HasRun` | src/components/RunDetails.jsx:11 | `!!run?.id` is false with no run, and otherwise true exactly when the id is not a falsy value |
| `RunHistory.BeginHistory` | src/components/RunDetails.jsx:17-18 | a history fetch starts busy with the error cleared and the old samples still shown |
| `RunHistory.CompleteHistory` | src/components/RunDetails.jsx:19-30 | success stores the payload if it is an array, else no samples; failure keeps the previous samples and sets the error; the busy flag ends false |
| `RunHistory.LoadHistory` | src/components/RunDetails.jsx:11-31 | with no run id nothing changes; otherwise the busy flag ends false, the error is empty iff the fetch succeeded, and each failure kind keeps the samples and shows its message |
| `RunHistory.StaleHistoryOverwrites` | src/components/RunDetails.jsx:14-33 | a response for a previously selected run that settles last replaces the samples shown for the current run |
| `RunHistory.Numbers` | src/components/RunDetails.jsx:36-39 | the numeric filter never lengthens its input |
| `RunHistory.NumbersAppend` | src/components/RunDetails.jsx:36-39 | the filter distributes over concatenation, so it keeps input order |
| `RunHistory.NumbersMembership` | src/components/RunDetails.jsx:36-39 | a value is in the series iff it occurs as a JSON number; strings, `null` and missing values are never coerced |
| `RunHistory.Column` | src/components/RunDetails.jsx:36-39 | reading a key of every sample succeeds iff no sample is nullish, giving one value per sample |
| `RunHistory.Series` | src/components/RunDetails.jsx:36-39 | a metric series exists iff no sample is nullish; it is no longer than the history, and a number is in it iff some sample's `key` holds that number |
| `RunHistory.SeriesAppend` | src/components/RunDetails.jsx:36-39 | the series of two batches of samples is the first batch's series followed by the second's, so sample order is kept |
| `RunHistory.StepOf` | src/components/RunDetails.jsx:35 | a sample's step is its `_step` or its `step`, and is missing only when both are |
| `RunHistory.StepPrefersUnderscoreStep` | src/components/RunDetails.jsx:35 | a non-nullish `_step` is used, even `0`; only a missing or `null` `_step` falls through to `step` |
| `RunHistory.Steps` | src/components/RunDetails.jsx:35 | the step series exists iff no sample is nullish; it is no longer than the history, and a number is in it iff some sample's `_step ?? step` is that number |
| `RunHistory.StepsAppend` | src/components/RunDetails.jsx:35 | the step series of two batches of samples is the first batch's followed by the second's |
| `RunHistory.SeriesDropsStrings` | src/components/RunDetails.jsx:36 | samples 0.5, the string "0.5", 0.3 give the series [0.5, 0.3] |
| `RunHistory.SummaryTiles` | src/components/RunDetails.jsx:60 | the tiles are the first min(6, n) summary entries in entry order |
| `RunHistory.ChartCard` | src/components/RunDetails.jsx:79-93 | "Last" appears iff the series is non-empty and shows its final value; a sparkline is drawn iff the series has more than one value, spanning x = 4 to x = 296 |
| `RunHistory.ChartCardShowsSeries` | src/components/RunDetails.jsx:84-90 | a drawn card's path reads back as exactly its series, and "Last" is the last value read back |
| `RunHistory.Charts` | src/components/RunDetails.jsx:36-72 | the panel's four cards follow `train/loss`, `eval/loss`, `train/accuracy`, `eval/accuracy` in order, each drawn from that key's series |
| `Sparkline.Min` | src/components/Sparkline.jsx:9 | `min` is an element of the data and no element is smaller |
| `Sparkline.Max` | src/components/Sparkline.jsx:10 | `max` is an element of the data and no element is larger |
| `Sparkline.Range` | src/components/Sparkline.jsx:11 | the range is never zero; it is `max - min` for a spread series and 1 for a flat one |
| `Sparkline.PointX` | src/components/Sparkline.jsx:13 | for two or more points, x lies in [4, 296], with 4 for the first point and 296 for the last |
| `Sparkline.XIncreasing` | src/components/Sparkline.jsx:13 | x strictly increases with the index |
| `Sparkline.PointY` | src/components/Sparkline.jsx:14 | the minimum maps to the bottom padding line y = 76 and `min + range` to the top one at y = 4 |
| `Sparkline.Path` | src/components/Sparkline.jsx:12-17 | one command per value in input order, `MoveTo` first and `LineTo` after, at each point's coordinates |
| `Sparkline.Layout` | src/components/Sparkline.jsx:4-19 | empty data gives an empty path with min = max = 0; otherwise min and max are elements bounding the data, every point lies inside the padded box from x = 4 to x = 296, and for two or more values the path is exactly `Path` over min and `max - min \|\| 1`, so each point sits at `PointX`, `PointY` |
| `Sparkline.YBounds` | src/components/Sparkline.jsx:14 | every value between the extremes maps to a y in [4, 76] |
| `Sparkline.YAntitone` | src/components/Sparkline.jsx:14 | a larger value gets a strictly smaller y; equal values get equal y |
| `Sparkline.ExtremesOnPadding` | src/components/Sparkline.jsx:11-14 | the minimum maps to y = 76, a distinct maximum to y = 4, and a flat series entirely to y = 76 |
| `Sparkline.GeometryRoundTrip` | src/components/Sparkline.jsx:12-17 | the series is recovered exactly from the path and the extremes |
| `Sparkline.UnscalePath` | src/components/Sparkline.jsx:14 | mapping each point's y back through the inverse scale gives the original values |
| `Sparkline.RecoverPoint` | src/components/Sparkline.jsx:14 | the vertical scale is invertible for any non-zero range |

## Left out

- `fetch`, the URLs built with `encodeURIComponent`, the headers and `res.json()` are not modelled. Each fetch is an input `FetchOutcome`: a rejection message, or a status with a parsed or unparsable body.
- The wording of engine error messages is assumed. A `TypeError` from a property read on `null` uses V8's wording. A JSON parse error's message is carried in the outcome.
- `localStorage` reads and writes (`src/App.jsx:10-12,76-83`) are ambient persistent storage. The connection is a value passed in instead.
- Polling (`setInterval` every 15 s), the refresh on first configuration, and React effect scheduling (`src/App.jsx:65-74`) are timing, not logic, and are left out. Overlapping requests appear only as the orders in which outcomes are applied (`RunSync.LastSettledRefreshWins`, `RunHistory.StaleHistoryOverwrites`).
- The stale closure over `selectedRun` in `fetchRuns` is not modelled. The transition uses the selection held when the refresh completes.
- Date parsing is abstracted as `TimeParser`. An invalid date would give `NaN` in the comparator, and that case is not represented.
- Numbers are exact reals. Parsing never yields `NaN`. A parsed `-0` behaves as `0` in every operation modelled (truthiness, `typeof`, `===`, the geometry), so it is represented by `0`. Float rounding in the geometry is absent.
- Number literals that overflow to `Infinity` or `-Infinity` (such as `1e400`), and the rounding of parsed decimals to doubles, are not represented; such a value would reach the numeric filter and `Math.max` and give `NaN` coordinates.
- Number formatting (`toFixed(4)`, `toFixed(5)`), `String(v)` on summary values, and the text of the SVG path are left out. The path is a sequence of commands with real coordinates.
- `Sparkline.Layout`: requires a series length other than one. A single point gets `x = 0/0 = NaN` in the source, and reals cannot represent that. The chart card never draws such a series.
- Strings have no UTF-16 code units. `Object.entries` on a string splits it by Dafny characters.
- `Js.Lookup` takes the first property with a key. `Obj` stands for the object after `JSON.parse`, which keeps the last of duplicate keys and lists integer-like keys first; that reordering and de-duplication are not modelled.
- Property reads see only an object's own properties. None of the keys the dashboard reads is inherited by strings, numbers, booleans or arrays.
- The pagination limit (50 runs, 1000 history points) is a request parameter and is not modelled.
- `src/components/ConnectionForm.jsx`, `src/components/Header.jsx` and `src/components/RunsList.jsx` are form state, layout and status colouring. They are not part of this model.
