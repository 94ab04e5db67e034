# Bird observation dashboard: the data shaping, modelled in Dafny

The dashboard fetches the list of recent bird-observation records from a
public wildlife API and shows it as a map, a line plot, a bar graph and a
table. Two scripts do this. `project.py` is a multi-species dashboard: every
view takes the list of selected common names. `main.py` is a single-species
dashboard: the sidebar offers every common name, and its map, line plot, bar
graph and table work on one chosen species or on a species and date filter.

This project models what both scripts do to the record list once it has been
fetched: the selection filters, the map's located points and zoom, the flat
chart rows, the date sort, the group-by-(date, species) sum, the two table
projections, the species option lists, the date check and the date-range
filter. It proves the properties those steps promise.

- `observations.dfy` (`Observations`): the record type, and the list filters.
  `howMany`, `lat` and `lng` are `Option`s, because the code tests for them
  or reads them with a default. The other ten keys are plain fields: the
  model takes them to be present in every record. `obsDt` is a time counted
  in minutes (`int`). `main.py`'s date inputs are calendar days, a separate
  count. `Keep` models a list comprehension with an `if`.
  `Select` is the comprehension that keeps the records whose `comName` is in
  the selection.
- `chart_rows.dfy` (`ChartRows`): the `{species, date, population}` rows the
  line plot and the bar graph build, one selected species after another.
- `grouping.dfy` (`KeyOrder`, `GroupBy`): Python's string order, and the
  `groupby(["date", "species"]).sum()` of the bar graph.
- `project_views.dfy` (`ProjectViews`): the four views of `project.py` and
  its sidebar species list. The loops that append rows are methods with loop
  invariants. The in-place `sort_values` is a method that sorts an array in
  place.
- `main_views.dfy` (`MainViews`): the sidebar, tabs and table of `main.py`.

Three facts about the code shape the model:
- Records are used as the API sends them, with no normalisation step.
  `obs["comName"]` is indexed directly. `main.py` reads `obs["howMany"]`
  with no default, so a missing count is an error there. Only `project.py`
  defaults it to 0.
- The line plot's sort is pandas' default sort, which is not stable. So only
  "sorted by date" and "same rows" are promised.
- The table projections select fixed column lists. A column missing from the
  frame is a KeyError (`MissingColumns`). No column is dropped silently.

## Model

| member | source | states |
|---|---|---|
| `Observations.Keep` | project.py:61 | a filtering comprehension keeps an element iff it is in the input and passes the condition, and never lengthens the list |
| `Observations.KeepCount` | project.py:61 | a filter keeps each passing element exactly as often as it occurs, and no failing element |
| `Observations.KeepIsSubseq` | project.py:61 | a filter keeps the original order, so its result is a subsequence of its input |
| `Observations.SelectExactly` | project.py:61 | the selection holds exactly the records whose `comName` is selected, each as often as it occurs, in original order |
| `Observations.SelectOneIsSelect` | project.py:134 | the per-species `== species` filter is the selection filter for the one-name list |
| `Observations.Names` | main.py:59 | the list of common names has one entry per record, in record order |
| `Observations.Distinct` | main.py:203 | `unique()` holds every name that occurs exactly once, in the order of first appearance |
| `Observations.SelectAllNames` | main.py:202-205 | filtering by the default species list (every name that occurs) keeps every record |
| `ChartRows.RowOf` | project.py:136-140 | a row carries the record's species and date, and its `howMany`, or 0 when `howMany` is absent |
| `ChartRows.Rows` | project.py:135-140 | one row per record, in record order |
| `ChartRows.RowsConcat` | project.py:135-140 | the rows of a concatenation are the concatenated rows |
| `ChartRows.PlotRowsFromRecords` | project.py:132-140 | every combined row is the row of a record whose name is selected |
| `ChartRows.PlotRowsOnePerRecord` | project.py:132-140 | with no species selected twice, the combined rows are exactly one row per selected record, regrouped by species |
| `ChartRows.SelectionSplit` | project.py:133-134 | selecting one more, new, species adds exactly that species' rows |
| `ChartRows.EmptySelection` | project.py:61 | selecting no species selects no record |
| `ChartRows.SeriesOfSorted` | project.py:148-150 | each species' line, taken from the date-sorted frame, is itself sorted by date |
| `KeyOrder.StrLtIrreflexive` | project.py:190 | no species name sorts before itself |
| `KeyOrder.StrLtTransitive` | project.py:190 | the string order used for group keys is transitive |
| `KeyOrder.StrLtTotal` | project.py:190 | any two different species names are ordered one way or the other |
| `KeyOrder.KeyLtIrreflexive` | project.py:190 | no (date, species) key sorts before itself |
| `KeyOrder.KeyLtTransitive` | project.py:190 | the (date, species) key order is transitive |
| `KeyOrder.KeyLtTotal` | project.py:190 | any two different (date, species) keys are ordered |
| `GroupBy.InsertAscending` | project.py:190 | adding a row keeps the group keys strictly ascending |
| `GroupBy.InsertKeys` | project.py:190 | adding a row adds its key to the group keys and no other |
| `GroupBy.InsertTotal` | project.py:190 | adding a row adds its population to the grand total |
| `GroupBy.InsertLookup` | project.py:190 | adding a row adds its population under its own key and changes no other key |
| `GroupBy.BelowFirstAbsent` | project.py:190 | in ascending groups, a key below the first key is not a group |
| `GroupBy.LookupAbsent` | project.py:190 | a key that is not a group has population 0 |
| `GroupBy.GroupSumAscending` | project.py:190 | the groups come out with strictly ascending (date, species) keys |
| `GroupBy.GroupSumKeys` | project.py:190 | the group keys are exactly the (date, species) pairs that occur among the rows |
| `GroupBy.GroupSumLookup` | project.py:190 | under every key, the grouped population is the sum of that key's rows |
| `GroupBy.GroupSumTotal` | project.py:190 | grouping loses no population: the grand total equals the rows' total |
| `GroupBy.AscendingOrdered` | project.py:190 | in ascending groups every earlier key is below every later key |
| `GroupBy.AscendingDistinct` | project.py:190 | in ascending groups each key occurs once |
| `GroupBy.LookupAt` | project.py:190 | with distinct keys, looking up a group's key finds that group's population |
| `GroupBy.GroupSumCorrect` | project.py:190 | keys ascending and unique, exactly the rows' keys, each group the sum of its rows, same grand total |
| `GroupBy.TotalConcat` | project.py:190 | the total population of two row lists together is the sum of their totals |
| `GroupBy.RemoveAt` | project.py:190 | taking one row out of a list takes its population out of the total |
| `GroupBy.TotalPermutation` | project.py:190 | the total population does not depend on the order of the rows |
| `GroupBy.GroupSumIdempotent` | project.py:190 | grouping already-grouped (ascending) rows again gives the same groups |
| `GroupBy.RegroupIsIdentity` | project.py:190 | re-grouping the output of the group-by changes nothing |
| `ProjectViews.SelectForView` | project.py:61-65 | exactly the selection filter's result: the selected records, non-empty, each as often as it occurs, in original order; the "No data available" error exactly when no record is selected |
| `ProjectViews.Locations` | project.py:67-68 | the i-th map point is built from the i-th record that carries both `lat` and `lng`: one point per located record, in record order, and no others |
| `ProjectViews.Zoom` | project.py:78 | zoom 6 exactly when one species is selected, 5 otherwise |
| `ProjectViews.DisplayMap` | project.py:59-102 | no selected records gives the no-data error; no located record gives the no-location error; otherwise the map points of the selected records (one per located record, in order) and the zoom rule |
| `ProjectViews.BuildCombinedRows` | project.py:132-140 | the nested loop appends exactly the combined rows, species by species in selection order |
| `ProjectViews.AppendRows` | project.py:135-140 | the inner loop appends exactly one row per record of the species, in record order |
| `ProjectViews.SortByDate` | project.py:144 | the frame's rows end up sorted by date and are a permutation of the rows before |
| `ProjectViews.SwapWithPrevious` | project.py:144 | exchanging two neighbouring rows keeps the multiset of rows |
| `ProjectViews.LinePlot` | project.py:124-144 | no-data error exactly when nothing is selected; otherwise rows sorted by date, a permutation of the combined rows, and with distinct species one row per selected record |
| `ProjectViews.SelectedPlotRows` | project.py:126-134 | filtering the records to the selection first does not change the rows built per selected species |
| `ProjectViews.SelectThenOne` | project.py:126-134 | the per-species filter of the selected records is the per-species filter of all records |
| `ProjectViews.FlattenColumns` | project.py:171-180 | the three parallel lists have equal length and together hold the combined rows |
| `ProjectViews.AppendColumns` | project.py:177-180 | the inner loop extends the three columns in step, adding exactly the rows of that species' records |
| `ProjectViews.BarGraph` | project.py:163-190 | no-data error exactly when nothing is selected; otherwise groups ascending and unique, the rows' keys, per-key sums, and the rows' grand total (with distinct species, the selected records' total) |
| `ProjectViews.Field` | project.py:222 | a record has a value under every key except a missing `howMany`, `lat` or `lng` |
| `ProjectViews.MissingNames` | project.py:254 | the missing display names are empty exactly when every requested column is in the frame |
| `ProjectViews.Project` | project.py:244-272 | KeyError exactly when a requested column is absent from the frame; otherwise the requested header and one row per record of the filtered species |
| `ProjectViews.OnlyOptionalMissing` | project.py:222 | a non-empty frame can lack only the Population, Latitude and Longitude columns |
| `ProjectViews.SimplifiedKeys` | project.py:246-254 | the simplified view reads `comName`, `sciName`, `locName`, `howMany`, `lat`, `lng` |
| `ProjectViews.FullKeys` | project.py:256-272 | the full view reads all 13 record keys in the order of `col` |
| `ProjectViews.SimplifiedHeader` | project.py:246-254 | the simplified header is Common Name, Scientific Name, Location Observed, Population, Latitude, Longitude |
| `ProjectViews.FullHeader` | project.py:239-272 | the full header is all 13 entries of `col`, in order |
| `ProjectViews.MissingTogether` | project.py:254-272 | the simplified and the full projections fail on the same frames |
| `ProjectViews.MissingTogetherKeys` | project.py:254-272 | for the two key lists, a missing column in one means a missing column in the other |
| `ProjectViews.SimplifiedWithinFull` | project.py:239-272 | the simplified table is a sub-table of the full one: same failures, same rows, each column a full column with equal name and cells |
| `ProjectViews.SimplifiedRowWithinFull` | project.py:246-272 | each cell of a simplified row equals the full row's cell in the matching column |
| `ProjectViews.DisplayTable` | project.py:214-276 | no-data error when nothing is selected; raw data shows the selected records; an empty species filter shows nothing; otherwise the chosen projection |
| `ProjectViews.SpeciesChoices` | project.py:328-331 | the empty option first, then every common name exactly once |
| `MainViews.SpeciesList` | main.py:58-60 | the empty option, then every record's `comName` in record order, duplicates kept |
| `MainViews.FocusOptions` | main.py:81-83 | the multiselect options are the species list without its first element: one name per record |
| `MainViews.DateCheck` | main.py:73-74 | an error message exactly when the start date is after the end date |
| `MainViews.DayOfBounds` | main.py:208-215 | an observation time lies between its day's midnight and the next day's midnight |
| `MainViews.DayOfMonotonic` | main.py:208-215 | a later observation time never falls on an earlier day |
| `MainViews.Points` | main.py:105-106 | the i-th point is built from the i-th record that carries both `lat` and `lng`: one point per located record, in record order, and no others |
| `MainViews.ShowLocations` | main.py:100-141 | "select a species" exactly for the empty choice; no-location error exactly when no record of the species is located; otherwise the points of that species' records, one per located record, in record order |
| `MainViews.Dates` | main.py:150 | the observation times of the matching records, one per record, in record order |
| `MainViews.Populations` | main.py:151 | the counts of the matching records, one per record, in record order |
| `MainViews.SpeciesSeries` | main.py:145-153 | nothing for the empty choice; "not found" exactly when no record has the name; a KeyError exactly when a matching record lacks `howMany`; otherwise the extracted parallel, equal-length, non-empty time and count lists in record order |
| `MainViews.LateLastDayDroppedAsWritten` | main.py:208-222 | as written, the default range drops a record observed after midnight on the last day: a frame holding only such a record shows nothing |
| `MainViews.FilterDatesExactly` | main.py:217-222 | the (corrected) date-range filter keeps, unchanged and in order, exactly the rows observed on a day from start to end, both included |
| `MainViews.FilteredTable` | main.py:198-225 | the empty-frame error exactly for no records; otherwise the species filter's result, further filtered by the (corrected) day range when two days are given: a subsequence of the records holding exactly those of the filtered species within the range |
| `MainViews.SubseqTransitive` | main.py:205-222 | a subsequence of a subsequence is a subsequence, so filtering twice only removes rows |
| `MainViews.MinDate` | main.py:208 | the earliest observation time, attained by some record |
| `MainViews.MaxDate` | main.py:209 | the latest observation time, attained by some record |
| `MainViews.DefaultTableShowsAll` | main.py:202-222 | with the corrected day comparison, the default species list and the default range (the days of the earliest and latest times) show every record |
| `MainViews.DefaultRangeHoldsAll` | main.py:208-215 | every record is observed on a day within the default range (the days of the earliest and latest times) |

## Left out

- Fetching the records (`observed_US`, `fetch_notable_observations`) and the
  API key: network I/O. The fetched list is a parameter of every view.
- The notable-observations tab of `project.py`: it only fetches and displays
  a fixed column subset.
- Widgets, messages, tabs, the "Show Locations" button and the CSS block.
  The user's choices (selected species, table choice, species filter,
  simplify checkbox, date range) are parameters.
- Chart construction with matplotlib, plotly and pydeck, the colormap and the
  legend labels: presentation.
- The map centre (the mean of latitudes and longitudes) and `describe()`:
  floating-point arithmetic.
- Parsing `obsDt`: times are already-parsed minute counts. Seconds, time
  zones and malformed strings are not modelled.
- The ten keys other than `howMany`, `lat` and `lng`: the model assumes the
  API sends them in every record. The code never indexes `speciesCode`,
  `sciName`, `locId`, `obsValid`, `obsReviewed`, `locationPrivate` or
  `subId`; they reach only the table projections. So a response lacking one
  of them, which in the code fails only the projection that selects it, is
  not modelled. `ProjectViews.OnlyOptionalMissing`,
  `ProjectViews.MissingTogether` and `ProjectViews.SimplifiedWithinFull` rest
  on that assumption.
- CSV export with `to_csv().encode`: library serialisation.
- The commented-out block at the end of `project.py`: not live code.
- The population slider of `main.py`: it is shown but never applied to data.
- The sidebar start and end dates of `main.py` feed only the date check. No
  other view reads them, so no view takes them as a parameter.
- `ProjectViews.SortByDate`: stands in for pandas' quicksort with an insertion
  sort. Only the two promises pandas makes are stated: sorted by date, and a
  permutation of the rows.
- `ProjectViews.SpeciesChoices`: `list(set(...))` fixes no order, so the
  contract states no order for the names after the empty option.
- `ChartRows.PlotRowsOnePerRecord`: stated for selections without repeats.
  The multiselect cannot produce repeats. A repeated species would repeat its
  rows.
- The multi-species line plot and bar graph of `project.py` iterate the
  selected list once per species. The per-species filtering that then draws
  each line or bar series is modelled only as far as `ChartRows.SeriesOf`.
- `main.py`'s line-plot and bar-graph tabs extract the same lists in the same
  way (lines 145-153 and 170-178). One member, `MainViews.SpeciesSeries`,
  models both.
- `MainViews.SpeciesSeries`: stops at the extracted lists. Both tabs then call
  `pd.to_datetime(dates).dt.strftime(...)` (main.py:155 and main.py:180).
  `pd.to_datetime` applied to a list gives a `DatetimeIndex`, which has no
  `.dt` accessor. So as written, both tabs would fail at that line before
  drawing. The reformatting and the drawing are not modelled.
- The date-range filter as written compares a time with a bare date
  (main.py:219-221). The model reads that date as its midnight; a pandas
  version that refuses the comparison would fail instead. See Findings.

## Findings

| source | as written | input that shows it | evidently intended | confidence | as-written member | corrected member |
|---|---|---|---|---|---|---|
| main.py:208-222 | the default range holds the calendar days of the earliest and latest `obsDt`, and each day is compared with full observation times, so the end day stands for its midnight | a frame with one record observed at "2024-05-02 08:30": the default range is 2024-05-02 to 2024-05-02, and the record is filtered out | a record is in range when the day it was observed on lies in the range, so the defaults show every record | not executed; medium (the comparison may raise instead of comparing with midnight) | `MainViews.LateLastDayDroppedAsWritten` | `MainViews.DefaultTableShowsAll` |
