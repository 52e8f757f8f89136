# Landmark Hunt: Explorer and Converter, modelled in Dafny

Landmark Hunt is a navigation study app. Each participant session is saved as a JSON document. The document holds:

- `participantInfo`;
- `sessionID`;
- the landmarks the participant placed;
- a count of deleted landmarks;
- `dailyResults`: one entry per day of use. Each entry holds results by task source (`assessment`, `manual`, `reminder`). Each source holds the trials of three task types: `pointing`, `distance` and `mapping`.

Two Streamlit dashboards read these documents, and this project models the logic that turns one parsed document into table rows.

- **Explorer** (`LH_data_explorer.py`):
  - flattens a document into landmark rows and trial rows;
  - takes optional source and task filters;
  - reports the unclamped distance accuracy `50 + 50·τ`;
  - builds a per-user table of convex-hull footprints.
- **Converter** (`LH_json_processor.py`) summarises each document into one wide row for a chosen task source. The row holds:
  - identity and landmark counts;
  - the hull footprint;
  - usage statistics over the distinct days of use: count, first and last day, duration, ratio of days to landmarks, longest gap and longest streak of consecutive days;
  - per-day, per-week and overall means of four quantities: pointing error, distance accuracy (clamped to [0, 100] on this path), Kendall τ and mapping R².

A week is seven consecutive daily entries, counted by position. A week's mean is taken over its trials, not over its day means. The batch driver skips a document whose JSON does not parse.

## Modules

- `wrappers.dfy`: `Option` and `Result`.
- `document.dfy`: the parsed document. Any JSON value that the code may find is not a dictionary becomes `Entry<T> = Dict(fields) | NotADict`. A missing key is `None`. The outcome of `json.loads` is `Parsed = Malformed | NotAnObject | Object(doc)`. The exceptions the model represents are `Failure = JsonDecodeError | AttributeError | MissingColumn`. The ones it does not represent are listed under "## Left out".
- `numeric.dfy`: the sum and the mean of a non-empty sequence of reals.
- `geo.dfy`: the footprint routine shared by both dashboards. It drops points with a null coordinate, returns null below three points, and picks the UTM zone and EPSG code.
- `explorer.dfy`: the Explorer's three extraction functions. Its loops are methods. Each method is proved equal to a specification function, and the properties of those functions are proved as lemmas.
- `engagement.dfy`: the Converter's usage statistics. The streak loop is a method proved against a specification function, and that function is proved to give the longest run of consecutive days.
- `processor.dfy`:
  - `process_file`, with its trial, source, day and daily loops;
  - the day, week and overall pools and their means;
  - `process_uploaded_files`.
- `processor_facts.dfy`: lemmas about the Converter's pools:
  - pooled accuracies are clamped percentages, paired one-for-one with the τ pool;
  - a week's pool is the concatenation of its days' pools;
  - a value is pooled exactly when some trial of the chosen source defines it.

Both dashboards read `taskSource` from the trial itself, not from the enclosing source entry, and the model does the same.

## Model

| member | source | states |
|---|---|---|
| Explorer.SafeExtract | LH_data_explorer.py:16-17 | A dictionary gives its field's value (null when missing); anything that is not a dictionary gives null. |
| Explorer.UserID | LH_data_explorer.py:44 | The user is `participantInfo.userID`. It is null when `participantInfo` is missing or not a dictionary. |
| Explorer.ExtractLandmarkData | LH_data_explorer.py:42-54 | Bad JSON raises a decode error, and a non-object document raises an attribute error. Otherwise there is exactly one row per landmark, in order. Every row carries the document's user. A dictionary landmark's row holds its latitude, longitude and timestamp; any other landmark's row holds nulls. |
| Explorer.Active | LH_data_explorer.py:97 | A filter takes effect only when it is truthy: given and not empty. A missing or empty filter does nothing. |
| Explorer.PassesSource | LH_data_explorer.py:102-103 | With no active source filter every trial passes. With one, a trial passes exactly when it is a dictionary whose own `taskSource` equals the filter. |
| Explorer.PassesTask | LH_data_explorer.py:97-98 | With no active task filter every task type passes. With one, a task type passes exactly when its name equals the filter. |
| Explorer.RowAccuracy | LH_data_explorer.py:104-105 | The accuracy is present exactly when τ is, and it equals `50 + 50·τ`. It exceeds 100 for τ > 1 and is negative for τ < -1, so it is unclamped. |
| Explorer.RowOf | LH_data_explorer.py:104-116 | A record carries the document's user and session and the task type being walked. It takes `taskSource`, `error`, `kendallTau` and `timestamp` from the trial, `r2 or rSquared` as its R², and the unclamped accuracy of its τ. A trial that is not a dictionary gives nulls. |
| Explorer.AppendTrialRows | LH_data_explorer.py:101-117 | The trial loop appends the rows of the trials that pass the source filter, in order, and nothing else. |
| Explorer.AppendSourceRows | LH_data_explorer.py:96-117 | The task-type loop appends the rows of pointing, distance and mapping, in that order. A type the task filter excludes and a missing trial list add nothing. |
| Explorer.AppendDayRows | LH_data_explorer.py:93-117 | The source loop appends the rows of each dictionary source entry and skips the others. |
| Explorer.ExtractTrialData | LH_data_explorer.py:83-118 | The error cases are the same as for landmarks. Otherwise the rows are, in order, those of every daily entry, then source entry, then task type, then trial. |
| Explorer.DocRowsFiltered | LH_data_explorer.py:97-115 | Every row has the document's user and session. With a task filter, the row's task type is the filter. With a source filter, the row's trial `taskSource` is the filter. Distance accuracy is `50 + 50·τ` when τ is present and null otherwise. |
| Explorer.DocRowsSelect | LH_data_explorer.py:90-117 | The filtered table is the unfiltered table restricted, in order, to the rows whose task type passes the task filter and whose trial `taskSource` passes the source filter. So a trial is skipped if and only if a filter excludes it. |
| Explorer.SelectMembers | LH_data_explorer.py:97-103 | A row is kept exactly when it is among the given rows and survives both filters. |
| Explorer.UnmatchedSourceFilterYieldsNoRows | LH_data_explorer.py:102-103 | An active source filter that no trial of the document names gives no rows and no error. |
| Explorer.UnknownTaskFilterYieldsNoRows | LH_data_explorer.py:96-98 | A task filter that names no task type gives no rows and no error. |
| Explorer.RowAccuracyUnclamped | LH_data_explorer.py:104-105 | Row accuracy is not clamped: τ = 1.2 gives 110, τ = 1 gives 100, τ = -1.5 gives -25, and a missing τ gives null. |
| Explorer.AllTaskRows | LH_data_explorer.py:96-100 | A source entry's rows are its pointing rows, then its distance rows, then its mapping rows. |
| Explorer.UnfilteredRowPerTrial | LH_data_explorer.py:90-117 | With no filter there is exactly one row per listed trial. Non-dictionary source entries, missing `resultsBySource` and missing trial lists contribute none. |
| Explorer.DistinctUsers | LH_data_explorer.py:58 | Each user of the landmark table appears once, and no other value appears. |
| Explorer.UserCoords | LH_data_explorer.py:59-60 | The coordinate pairs selected for a user come only from that user's rows. For a non-null user, they include every one of its rows. |
| Explorer.UserCoordsCount | LH_data_explorer.py:59-60 | There is one coordinate pair per row selected for the user, duplicates included. |
| Explorer.UserPointsCount | LH_data_explorer.py:59-61 | There is one point per selected row whose two coordinates are both present. |
| Explorer.NullUserHasNoPoints | LH_data_explorer.py:58-62 | A null user selects no rows, so its row has no points and no area. |
| Explorer.HullRowOf | LH_data_explorer.py:61-79 | `num_landmarks` is the number of the user's rows with both coordinates present, duplicates included. The area is null exactly when that count is below three. |
| Explorer.CalculateConvexHullArea | LH_data_explorer.py:56-80 | An empty table has no `userID` column and raises. Otherwise there is one row per distinct user, users are distinct across rows, every landmark's user has a row, and each row is that user's footprint. |
| Explorer.HullRows | LH_data_explorer.py:57-79 | The per-user loop emits one row for each user, in order. |
| Document.ListOrEmpty | LH_data_explorer.py:100-101 | `if trials: for trial in trials` visits a present list and nothing otherwise. |
| Document.R2OrRSquared | LH_json_processor.py:138 | A non-zero `r2` is taken as it is. A missing or zero `r2` falls back to `rSquared`. Any value comes from one of the two fields. |
| Document.R2ZeroCountsAsAbsent | LH_json_processor.py:138 | Because `r2 or rSquared` treats an `r2` of 0 as false, it behaves as a missing `r2` and falls back to `rSquared`. |
| Geo.PresentPoints | LH_json_processor.py:17-18 | The kept points are exactly the pairs with both coordinates present, and there are no more of them than pairs. |
| Geo.PresentPointsCount | LH_data_explorer.py:61-62 | There are as many kept points as positions whose two coordinates are both present. |
| Geo.TruncateToInt | LH_data_explorer.py:65 | Python's `int` truncates toward zero, for both signs. |
| Geo.UtmZone | LH_data_explorer.py:65 | The zone is one more than `(lon + 180) / 6` truncated toward zero: the six-degree band counted from -180, for longitudes at or east of -180. |
| Geo.UtmEpsg | LH_data_explorer.py:66 | The EPSG code is 32600 plus the zone at or north of the equator, and 32700 plus the zone south of it. |
| Geo.UtmZoneInRange | LH_data_explorer.py:65 | For a mean longitude in [-180, 180), the zone is in 1..60 and is the six-degree band containing that longitude. |
| Geo.UtmZoneAtAntimeridian | LH_data_explorer.py:65 | A mean longitude of exactly 180 gives zone 61. |
| Geo.UtmEpsgRange | LH_data_explorer.py:65-66 | The EPSG code is in 32601..32660 when the mean latitude is at or north of the equator, and in 32701..32760 south of it. |
| Geo.Footprint | LH_json_processor.py:20-30 | The area is null exactly when there are fewer than three points. Otherwise it is the hull area computed in the UTM system of the points' mean position. |
| Numeric.MeanBounds | LH_json_processor.py:151 | A mean lies within any bounds that hold for every averaged value. |
| Engagement.SortedDistinct | LH_json_processor.py:84 | The days are strictly increasing and are exactly the given dates. |
| Engagement.DistinctCardinality | LH_json_processor.py:84-85 | A strictly increasing list has as many elements as distinct values. |
| Engagement.StreakExtends | LH_json_processor.py:97-99 | When a day follows the previous one by exactly one, the streak grows and the longest streak stays the maximum over all runs seen so far. |
| Engagement.StreakResets | LH_json_processor.py:100-101 | Any other difference resets the streak to 1 and keeps the longest streak. |
| Engagement.StreakCountersState | LH_json_processor.py:94-101 | After `i` days, the counters hold the run ending at day `i` and the longest run among the first `i` days. |
| Engagement.LongestStreakOfIsLongest | LH_json_processor.py:94-101 | The loop's result is the length of the longest run of consecutive days, and 1 when there are no days. |
| Engagement.LongestStreak | LH_json_processor.py:94-101 | The streak loop returns the longest run of consecutive days. |
| Engagement.LongestStreakBounds | LH_json_processor.py:94-101 | The longest streak is at least 1, and it is at most the number of days when there are any. |
| Engagement.LongestGap | LH_json_processor.py:92-93 | The longest gap is null exactly when there are fewer than two days. |
| Engagement.LongestGapAttained | LH_json_processor.py:92-93 | The longest gap is the difference between some two consecutive days. |
| Engagement.LongestGapIsMaximum | LH_json_processor.py:92-93 | No two consecutive days are further apart than the longest gap. |
| Engagement.UsageOfMeaning | LH_json_processor.py:83-101 | The statistics are correct: the number of days used is the number of distinct dates; the first and last use are the minimum and maximum date; the duration is their non-negative difference, and all three are null without dates; the engagement ratio is days over landmarks, null without landmarks; the gap and streak are as above. |
| Engagement.UsageOf | LH_json_processor.py:83-101 | The first use is null exactly when there are no dates. The first and last use are among the dates. The engagement ratio is null exactly when there are no landmarks. |
| Engagement.Usage | LH_json_processor.py:82-101 | The statistics are computed from the sorted distinct days and meet the promises above. |
| Engagement.StreakAndGapExample | LH_json_processor.py:91-101 | The days 1, 2, 3, 10 give a streak of 3 and a gap of 7. |
| Processor.TaskIndex | LH_json_processor.py:107 | Each quantity has exactly one position in the column order pointing, distance, Kendall τ, mapping. |
| Processor.ClampedAccuracy | LH_json_processor.py:132 | The accuracy lies in [0, 100]. It equals `50 + 50·τ` inside that range, and 0 or 100 beyond it. |
| Processor.Contribution | LH_json_processor.py:124-141 | The value a trial contributes is its error to pointing, its clamped accuracy (a percentage, present exactly when τ is) to distance, its τ to Kendall τ, and `r2 or rSquared` to mapping. |
| Processor.WeekOf | LH_json_processor.py:111 | The day at 0-based position `i` falls in week `w`, where `w >= 1` and `7(w-1) <= i < 7w`. |
| Processor.ParticipantOf | LH_json_processor.py:71-74 | A dictionary `participantInfo` supplies user, gender and age. A missing one reads as `{}`, so all three are null. |
| Processor.TrialPools | LH_json_processor.py:122-141 | A dictionary trial adds to a quantity's pool only when the trial's own `taskSource` is the filter and it is listed under that quantity's task type. It then adds the defining metric when present: error; clamped accuracy and τ; `r2 or rSquared`. |
| Processor.LandmarkCoords | LH_json_processor.py:17 | There is one coordinate pair per landmark, read from a dictionary landmark. |
| Processor.HullAreaOf | LH_json_processor.py:16-30 | A landmark that is not a dictionary raises an attribute error. Otherwise the area is null exactly when fewer than three landmarks have both coordinates, and it is their footprint. |
| Processor.PresentDates | LH_json_processor.py:83 | The dates are exactly the non-null `date` values of the daily entries. |
| Processor.CollectTrials | LH_json_processor.py:121-141 | The trial loop raises exactly when some trial is not a dictionary. Otherwise it appends each trial's contribution to the pools. |
| Processor.CollectSource | LH_json_processor.py:118-141 | The task-type loop raises exactly when one of the three trial lists holds a non-dictionary. Otherwise it appends the source entry's pools. |
| Processor.CollectNextSource | LH_json_processor.py:115-141 | One step of the source loop skips a non-dictionary entry and extends the pools of the entries before it. |
| Processor.CollectDay | LH_json_processor.py:110-141 | A day's loop raises exactly when a dictionary source entry raises. Otherwise it yields that day's `day_data`. |
| Processor.DayMeans | LH_json_processor.py:143-151 | A day has a column for a quantity exactly when that quantity's pool is non-empty, and the column holds the pool's mean. |
| Processor.RecordDayMeans | LH_json_processor.py:143-151 | The loop adds that day's columns to `daily_metrics` and changes nothing else. |
| Processor.WeekAdd | LH_json_processor.py:153-156 | `setdefault(...).extend` creates a week key only for a non-empty day pool and appends the day's values to that week's pool. |
| Processor.PoolIntoWeek | LH_json_processor.py:153-156 | The loop performs exactly that update on `weekly_metrics`. |
| Processor.DayColumnsOfMeans | LH_json_processor.py:143-151 | Over all days, a `Day` column exists exactly for a day and quantity with a non-empty pool and holds that pool's mean. |
| Processor.WeekPoolsOfPools | LH_json_processor.py:153-156 | A `Week` key exists exactly for a week with a non-empty pool. It holds all the values of that week's days, in order. |
| Processor.DailyLoop | LH_json_processor.py:109-156 | The daily loop raises exactly when an entry is not a dictionary or one of its sources raises. Otherwise it yields `trial_data`, the day columns and the week pools. |
| Processor.ProcessDay | LH_json_processor.py:110-156 | One iteration raises exactly when its entry raises. Otherwise it extends all three accumulators by that day. |
| Processor.MetricColumns | LH_json_processor.py:158-170 | The day columns together with the week means meet the column promises: keys exist exactly for non-empty pools, and values are pool means. |
| Processor.WeekMeans | LH_json_processor.py:158-170 | There is one weekly average for each week pool, and it is that pool's mean. |
| Processor.OverallMeans | LH_json_processor.py:189-199 | Every quantity has an `Overall` value. It is null exactly when the whole-document pool is empty, and otherwise the pool's mean. |
| Processor.Summarise | LH_json_processor.py:158-202 | Overall values, day columns and week columns together are the document's metrics. |
| Processor.DailyMetrics | LH_json_processor.py:103-202 | The metric part of `process_file` raises exactly when the daily entries raise. Otherwise its output is the document's metrics. |
| Processor.ProcessFile | LH_json_processor.py:69-204 | Bad JSON raises a decode error. A non-object document, or a non-dictionary participant, landmark, daily entry or listed trial, raises an attribute error. Otherwise the row holds the identity, the landmark counts, the footprint, the usage statistics and the metrics. |
| Processor.ParsedDocs | LH_json_processor.py:58-64 | The documents that are kept are exactly the parsed objects. |
| Processor.ProcessNext | LH_json_processor.py:58-64 | One iteration skips bad JSON, propagates any other error, and otherwise appends the document's summary. |
| Processor.ProcessUploadedFiles | LH_json_processor.py:55-67 | Bad JSON is skipped. Any other error in any document propagates. Otherwise there is one summary per parsed document, in order. With no parsed document the table is empty. |
| ProcessorFacts.DaysPoolsPaired | LH_json_processor.py:130-136 | Each distance trial adds one value to the accuracy pool and one to the τ pool. The accuracy is the clamped accuracy of the τ beside it. |
| ProcessorFacts.WeekAccuracyPercentages | LH_json_processor.py:153-156 | Every accuracy in a week's pool is in [0, 100]. |
| ProcessorFacts.AccuracyColumnsArePercentages | LH_json_processor.py:132-199 | The overall, day and week distance-accuracy values all lie in [0, 100]. |
| ProcessorFacts.ClampDiffersFromExplorer | LH_json_processor.py:132 | The two paths differ for τ = 1.2: the Explorer row holds 110, and the Converter pools 100 beside τ. |
| ProcessorFacts.WeekIsItsDays | LH_json_processor.py:111-156 | Week `n`'s pool is the concatenation of the day pools of entries `7(n-1)+1..7n`. |
| ProcessorFacts.TrialsPoolsMembers | LH_json_processor.py:121-141 | A value is in a pool exactly when some dictionary trial of the chosen source, under the matching task type, defines it. |

## Left out

- Streamlit UI (uploaders, selectboxes, tables, maps, downloads) and the Explorer's inline overview loop, which is UI code.
- `read_json_files`: zip traversal and UTF-8/Latin-1 decoding are I/O. The input is the outcome of `json.loads` on each text (`Parsed`).
- Dates are integer day numbers. `pd.to_datetime` parsing and `strftime` formatting are not modelled.
- The reprojection and convex hull come from geopandas and shapely, so they are a function parameter `HullArea`, taking an EPSG code and points and giving km². Floating-point rounding in `np.mean` is not modelled: means are exact over reals. A NaN area is `None`.
- DataFrame construction and concatenation with column alignment, and CSV and Excel encoding (`convert_df_to_excel`).
- Summary keys are structural (`Day(n, quantity)`, `Week(n, quantity)`, an `Overall` map), not strings. So the week-key split at `LH_json_processor.py:163` and the string sort at line 161 are not modelled. They change only column order, because the source names contain no `_`.
- Lists that are present but are not lists (for example a number where `landmarks` is expected) are not modelled, nor is the `TypeError` the code raises on them or on an explicit `null` list. An explicit `null` for a key read with a default (`deletedLandmarks`, `landmarks`, `dailyResults`) is read as a missing key.
- Date strings that `pd.to_datetime` cannot parse, and the error it raises on them, are not modelled: dates are day numbers.
- In the Converter, a `participantInfo` that is `null` or not a dictionary raises, as it does in the code. A document that is well-formed JSON but not an object raises an attribute error in both dashboards.
- Explorer.CalculateConvexHullArea: pandas compares a null `userID` unequal to itself. A null user therefore gets a row with no points, as the code does (`NullUserHasNoPoints`). A NaN coordinate read from the table is modelled as a null coordinate.
- Geo.UtmZoneInRange: the zone range is stated only for mean longitudes in [-180, 180). The code applies the same formula outside that range, and exactly 180 gives zone 61 (`UtmZoneAtAntimeridian`).
- When no document parses, `process_uploaded_files` returns a DataFrame with no columns. The model returns an empty sequence of rows; column schemas are not modelled.
- Notes on the code's behaviour, which the model follows:
  - the Converter's `safe_extract` has no dictionary check, so malformed entries raise instead of becoming null;
  - the zone uses Python's `int`, which truncates toward zero and so differs from flooring for a mean longitude below -180;
  - the Explorer's hull table raises on an empty landmark table.
