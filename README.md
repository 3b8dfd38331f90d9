# Air-quality dashboard: the aggregation pipeline

The dashboard (`dashboard.py`) loads a table of air-quality records, each
dated by day and tagged with its station. It keeps the records between two
dates the user picks, and aggregates them three ways:

- `create_aqi_daily`: mean AQI per date, rounded, then classified into one of
  six severity categories by `get_AQI_category`;
- `create_pollutants_daily`: rounded mean per date of each of the six
  pollutant columns;
- `create_aqi_ranking`: mean AQI per station, rounded and classified.

The script then does four things with those tables:

- It sorts the station ranking by AQI and colours each bar by the category's
  colour.
- It shows headline averages over the daily tables.
- It stretches six shaded category bands across the daily chart.
- It reshapes the pollutant table into long format for a line chart.

This project models that pipeline in Dafny and proves what each step
promises.

- `wrappers.dfy`: `Option`, whose `None` stands for a missing cell or a pandas
  NaN.
- `stats.dfy`: pandas' NaN-skipping `mean()` and numpy's round-half-to-even
  `round`. It proves bounds, single-value groups and the fact that missing
  cells do not count.
- `group_keys.dfy`: the keys of a `groupby`. They are each distinct key once,
  in ascending order. Dates are ordered as day numbers; station names are
  ordered as Python compares strings, code point by code point with a proper
  prefix first. It proves that both orders are strict total orders, that the
  keys come out ascending, and that they are the only ascending list with
  those members.
- `aqi.dfy`: the classifier `get_AQI_category`, the category-to-colour
  dictionary, the legend lists and the band rectangles. It proves that they
  all agree.
- `aggregate.dfy`: the record type, the inclusive date filter and the three
  `create_*` reducers, with their properties.
- `script.dfy`: the script body.
  - The `sort_values` step is an insertion-sort method, proved to return a
    permutation ordered by AQI with NaN last.
  - The `Color` column is added by a loop.
  - It also holds the headline figures and the band span.
  - The long-format loop is a method, proved to lay out six blocks of the
    daily series.
  - `Dashboard` ties the steps together.

Modelling choices:

- Dates are integer day numbers.
- Values are mathematical reals, and a NaN is `None`.
- Every `None` in a result corresponds to a NaN the script produces. There are
  two exceptions, noted below: a headline figure whose column has no value,
  and the band span over an empty selection.

The ranking's heading (dashboard.py:75) says "Stations from Worst to Best".
The sort at dashboard.py:78 is ascending, so the station with the lowest AQI,
which has the best air, comes first. The model keeps the ascending order the
code uses.

Three further points on what the code does:

- pandas' default `sort_values` (dashboard.py:78) is not stable, so rows with
  equal AQI have no promised order, and the model promises none.
- A start date after the end date is not rejected; it selects nothing
  (`Aggregate.ReversedRangeIsEmpty`).
- NaN means and NaN categories flow on into the colour lookup unchanged. The
  colour lookup gives NaN for them.

## Model

| member | source | states |
|---|---|---|
| `Aqi.Classify` | dashboard.py:9-21 | every number gets the category whose band holds it: above the previous upper bound and at most its own (50, 100, 150, 200, 300; none for Hazardous) |
| `Aqi.ClassifyValue` | dashboard.py:9-23 | a present value gets a category, and that category's band holds it; NaN fails every comparison and gets NaN |
| `Aqi.ClassifyBoundaries` | dashboard.py:10-21 | each upper bound belongs to its own band: 50 is Good, 100 Moderate, 150 Unhealthy for Sensitive Groups, 200 Unhealthy, 300 Very Unhealthy; above 300 is Hazardous; negative values are Good |
| `Aqi.BandsAreDisjoint` | dashboard.py:10-21 | no value lies in two bands |
| `Aqi.ClassifyIsTheBand` | dashboard.py:10-21 | the classifier returns a category if and only if the value lies in that category's band |
| `Aqi.ClassifyMonotone` | dashboard.py:10-21 | a higher AQI never gets a less severe category |
| `Aqi.ColorOf` | dashboard.py:89 | `.map(color_mapping)` gives a colour exactly when there is a category, and it is the legend colour of that category's severity rank |
| `Aqi.ColorMappingTotalAndInjective` | dashboard.py:80-87 | the dictionary's keys are exactly the six category labels, and no two labels share a colour |
| `Aqi.LegendAgreesWithColorMapping` | dashboard.py:159-160 | legend row i names the i-th category in severity order and shows the colour the dictionary gives it |
| `Aqi.BandShapesAgreeWithClassifier` | dashboard.py:148-153 | rectangle i has category i's colour; the rectangles touch end to end; their tops are the classifier's upper bounds; every AQI inside rectangle i is classified as category i |
| `Stats.Mean` | dashboard.py:26 | the mean is missing exactly when every value of the group is missing |
| `Stats.PresentMembers` | dashboard.py:26 | the mean looks at every present value and at nothing else |
| `Stats.PresentCounts` | dashboard.py:26 | every present value counts as often as it occurs in the group, so repeated readings all weigh in the mean |
| `Stats.RepeatedReadingsCount` | dashboard.py:26-28 | readings 20, 20, 20 and 200 have mean 65, rounded 65: the repeated reading is counted three times |
| `Stats.MeanWithinBounds` | dashboard.py:26 | the mean of the present values lies between any lower and upper bound of them |
| `Stats.MeanTimesCount` | dashboard.py:26 | the mean times the number of present values is their sum |
| `Stats.MeanOfSingle` | dashboard.py:26 | a group of one value has that value as its mean |
| `Stats.MeanIgnoresMissing` | dashboard.py:26 | inserting a missing cell anywhere in a group does not change its mean |
| `Stats.Round` | dashboard.py:28 | the result is the nearest integer, and the even one of the two when the value lies half-way |
| `Stats.RoundOpt` | dashboard.py:28 | rounding keeps NaN as NaN; a present value goes to an integer at most one half away from it, the even one when it lies half-way |
| `Stats.RoundedMean` | dashboard.py:26-28 | the rounded group mean is NaN exactly when every value of the group is missing, and otherwise lies within one half of the mean |
| `Stats.RoundOfInteger` | dashboard.py:28 | rounding a whole number leaves it unchanged |
| `Stats.RoundMonotone` | dashboard.py:28 | rounding never reorders two values |
| `Stats.RoundWithin` | dashboard.py:28 | a value between two integers rounds to a value between them |
| `GroupKeys.DistinctAscending` | dashboard.py:26 | the group keys are exactly the values of the key column, each once, and no more of them than there are rows |
| `GroupKeys.DistinctAscendingSorted` | dashboard.py:26 | under a strict total order the group keys come out strictly ascending |
| `GroupKeys.AscendingUnique` | dashboard.py:26 | two strictly ascending lists with the same members are equal, so the key list is determined |
| `GroupKeys.DateLessIsStrictTotalOrder` | dashboard.py:26 | dates compare as a strict total order |
| `GroupKeys.StationLessIsStrictTotalOrder` | dashboard.py:42 | station names, compared as Python strings, form a strict total order |
| `Aggregate.InRange` | dashboard.py:67 | a record is kept if and only if start <= date <= end |
| `Aggregate.InRangeIsSubsequence` | dashboard.py:67 | the kept records stay in their input order |
| `Aggregate.InRangeCounts` | dashboard.py:67 | a record in range is kept as many times as it occurs in the input; a record out of range is dropped |
| `Aggregate.InRangeAllInside` | dashboard.py:67 | a range that covers every record's date keeps the whole input |
| `Aggregate.MinDate` | dashboard.py:55 | `min_date` is no later than any record's date and is some record's date |
| `Aggregate.MaxDate` | dashboard.py:56 | `max_date` is no earlier than any record's date and is some record's date |
| `Aggregate.FullRangeKeepsEverything` | dashboard.py:55-67 | the date picker's initial range [min_date, max_date] keeps every record |
| `Aggregate.ReversedRangeIsEmpty` | dashboard.py:67 | a start date after the end date keeps nothing |
| `Aggregate.NoDateInRangeIsEmpty` | dashboard.py:67 | a range that holds no record's date keeps nothing |
| `Aggregate.Gather` | dashboard.py:26 | the values a group hands to `mean()` are no more than the rows, and include the column cell of every row of the group |
| `Aggregate.GatherAppend` | dashboard.py:26 | the values handed to `mean()` for a group over two stretches of records are those of the first stretch followed by those of the second |
| `Aggregate.GatherOfRow` | dashboard.py:26 | a single record hands its cell to its own group and nothing to any other, so with `GatherAppend` every record of the group contributes once, in order |
| `Aggregate.GatherFromGroup` | dashboard.py:26 | every value a group hands to `mean()` is the column cell of some row of that group |
| `Aggregate.CategoryOf` | dashboard.py:29 | the category column has a value exactly when the rounded AQI has one, and then its band holds that AQI |
| `Aggregate.DateKeysAscending` | dashboard.py:26 | the date keys of the groupby come out strictly ascending |
| `Aggregate.StationKeysAscending` | dashboard.py:42 | the station keys come out in strictly ascending name order |
| `Aggregate.CreateAqiDaily` | dashboard.py:25-31 | one row per distinct date of the input and no other dates, strictly ascending by date; each row holds the rounded mean of that date's AQI values and the category of that rounded value |
| `Aggregate.CreatePollutantsDaily` | dashboard.py:33-39 | one row per distinct date and no other dates, ascending; each pollutant column holds the rounded mean of that pollutant's own values on that date |
| `Aggregate.CreateAqiRanking` | dashboard.py:41-47 | one row per distinct station and no other stations, ascending by name; each row holds the rounded mean of the station's AQI values and its category |
| `Aggregate.GatherInRange` | dashboard.py:67-70 | for a date inside the selected range, the filtered data hands the same group of values to `mean()` as the full data |
| `Aggregate.DailyAqiOfFilteredDate` | dashboard.py:67-69 | the daily AQI row of an in-range date does not depend on the filter |
| `Aggregate.PollutantChannelsIndependent` | dashboard.py:35-37 | a pollutant's daily level depends only on the dates and on that pollutant's column; changing or blanking the other columns leaves it unchanged |
| `Aggregate.SingleRecordDay` | dashboard.py:25-39 | a date with a single record gets that record's own AQI and readings, rounded |
| `Aggregate.AveragesWithinReadings` | dashboard.py:26-28 | when every recorded AQI lies between two whole numbers, so does every daily or station average |
| `Aggregate.OneDateOneRow` | dashboard.py:26 | records that all share one date produce exactly one daily row, for that date |
| `Aggregate.WorkedDayAqi` | dashboard.py:25-31 | four stations on one date, reading 40, 60, 80 and one missing value, give a single row: AQI 60, Moderate |
| `Script.SortByAqi` | dashboard.py:78 | the sorted ranking holds exactly the rows of the unsorted one, as a multiset, ordered by AQI with every NaN after every number |
| `Script.SortedAqiColumn` | dashboard.py:78 | in the sorted ranking the present AQIs never decrease, and nothing after a NaN is a number |
| `Script.TwoStationsSortAscending` | dashboard.py:78 | stations A at 30 and B at 120 are sorted to [A, B] whatever their input order |
| `Script.PermutationMembers` | dashboard.py:78 | the sort keeps the length of the ranking and adds no row |
| `Script.AddColorColumn` | dashboard.py:89 | each row keeps station, AQI and category, in place, and gains the colour the dictionary gives its category |
| `Script.BarColorMatchesBand` | dashboard.py:80-89 | a ranking bar has a colour exactly when it has an AQI, and that colour is the legend colour of the band holding the AQI |
| `Script.Headline` | dashboard.py:116 | a headline `round(column.mean())` has no value exactly when no cell of the column has one, and otherwise lies within one half of the column's mean |
| `Script.OverallAqi` | dashboard.py:116 | the headline AQI has no value exactly when no day has an AQI |
| `Script.OverallCategory` | dashboard.py:128 | the headline category exists exactly when some day has an AQI, and its band holds the headline AQI |
| `Script.PollutantAverages` | dashboard.py:204-220 | each pollutant's headline figure has no value exactly when no day has a value for that pollutant |
| `Script.HeadlineWithin` | dashboard.py:204-220 | a headline `round(column.mean())` lies between the least and greatest daily value |
| `Script.OverallAqiWithinDailyRange` | dashboard.py:116-128 | the headline AQI lies within the range of the daily AQIs; its category lies between the categories of the lowest and highest day |
| `Script.PollutantAverageWithinDailyRange` | dashboard.py:204-220 | each headline pollutant figure lies within the range of that pollutant's daily values |
| `Script.OverallAqiOfOneDay` | dashboard.py:116 | over a single day the headline AQI is that day's AQI |
| `Script.EmptySelection` | dashboard.py:67-153 | a range that holds no record's date leaves the three tables empty, the headline AQI, its category and all six pollutant figures without a value, and the bands without a span |
| `Script.BandSpan` | dashboard.py:148-153 | the bands have a horizontal extent exactly when the daily table has a row |
| `Script.BandsSpanEveryDate` | dashboard.py:148-153 | the bands run from the first to the last daily row, which covers the date of every filtered record |
| `Script.Concat` | dashboard.py:234 | every row of every frame appears in the concatenation |
| `Script.ConcatFromFrames` | dashboard.py:234 | every row of the concatenation comes from one of the frames |
| `Script.ConcatBlocks` | dashboard.py:234 | concatenating frames of equal length n puts row i of frame j at position j*n+i |
| `Script.LongFormat` | dashboard.py:228-234 | the long table has 6 x (daily rows) rows; block k holds pollutant k's daily series in date order with every value unchanged |
| `Script.Dashboard` | dashboard.py:67-234 | the page shows the reducers applied to the filtered records; the ranking, with its colour column dropped, holds exactly the reducer's rows as a multiset, sorted by AQI with NaN last, each coloured by its category; the headline figures, band span and long table come from the daily tables |

## Left out

- The page itself: Streamlit widgets, columns, metrics, HTML and markdown
  strings (dashboard.py:58-64, 73-75, 108-137, 162-220 display calls). They
  only display values.
- The charts: figure construction, bar labels and rendering with matplotlib
  and plotly (dashboard.py:93-104, 143-156, 224, 236-238). These are foreign
  libraries; only the band rectangles' bounds and colours are modelled.
- CSV loading and `pd.to_datetime` (dashboard.py:51, 54): these are I/O and
  library date parsing. Dates are day numbers here, and the string comparison
  `date >= str(start_date)` is modelled as a comparison of day numbers.
- The re-conversion of the daily dates to timestamps at midnight
  (dashboard.py:140): it is the identity on day numbers.
- The debug `print` of the ranking's null count (dashboard.py:77).
- IEEE-754 floating point: means are exact over reals, so float rounding error
  before `round` is not modelled.
- Script.OverallAqi, Script.OverallCategory, Script.PollutantAverages and
  Script.Headline: when the column has no value at all (an empty selection,
  or one whose days all lack that value) the mean is NaN and the script's
  `round` fails or yields NaN. The model returns `None` there instead.
- Script.BandSpan: on an empty selection the script's `iloc` fails. The model
  returns `None` there instead.
- Records with a NaN station or date: pandas' `groupby` silently drops them
  (dashboard.py:26, 35, 42). The model's keys are always present, so it cannot
  represent such records.
- Script.SortByAqi: the order of rows with equal AQI is not promised, as with
  pandas' default sort; the insertion sort used as the method body happens to
  keep input order, but the contract does not say so.
- Script.Dashboard: states the long table's length only; its contents are
  stated by Script.LongFormat.
- The date picker's own bounds (`min_value`, `max_value` at dashboard.py:61-62)
  are not enforced: the model accepts any pair of dates.
