# Bike-sharing dashboard: the aggregation core in Dafny

The dashboard in `bike_sharing.py` reads an hourly bike-rental table. The user picks a date range, and the dashboard keeps the rows in that range. From those rows it builds three tables:

- a daily table: `create_daily_rental_df`, a daily resample summing `casual`, `registered` and `cnt`;
- a seasonal table: `create_byseason_df`, a groupby on `season` summing `cnt`, reindexed to the codes 1, 2, 3, 4 with fill value 0;
- an hourly table: `create_hour_rental_df`, a groupby on `hr` summing `cnt`.

It then shows three headline numbers, which are the column sums of the daily table.

This project models that computation as pure functions over sequences of records, and proves what each table contains.

- `records.dfy` (module `Records`) defines the parsed hourly record, with `dteday` as an integer day number. It also has column sums, the smallest and largest key, and `Select`. `Select` is the boolean-mask selection of the records whose key lies in an inclusive range, keeping their order.
- `grouping.dfy` (module `Grouping`) models `groupby(...).agg({"cnt": "sum"})` and `reindex(keys, fill_value=...)`.
  - The groupby is defined as a scan over the keys from the smallest to the largest, emitting a row only for a key that occurs. It is then proved against an independent specification, `IsGrouping`: keys strictly ascending, exactly the keys that occur, each with its `cnt` sum.
  - The reindex is a lookup per requested key, with the fill value for a key that has no row.
- `daily.dfy` (module `Daily`) models the daily resample.
- `seasons.dfy` (module `Seasons`) models the seasonal table.
- `hours.dfy` (module `Hours`) models the hourly table.
- `dashboard.dfy` (module `Dashboard`) models:
  - the date filter that builds `main_df`;
  - the headline metrics;
  - the whole pipeline, as one `BuildReport` function;
  - the two-record worked example.

Two places where the behaviour of the code is modelled, not a looser reading of it:

- `resample(rule='D')` emits a row for **every** calendar day from the earliest to the latest date, with zero sums for a day without records. Days without records are not skipped. The model follows the code, and `Daily.DailyGapsAreZero` states the zero rows.
- `reindex([1, 2, 3, 4], fill_value=0)` silently drops any other season code. The model follows this. `Seasons.BySeasonDropsUnknown` and `Seasons.BySeasonConservation` state it.

## Model

| member | source | states |
|---|---|---|
| Records.Sum | bike_sharing.py:9-11 | pandas' column `"sum"` (also at lines 25 and 35), 0 on no rows; its meaning for each table is in the conservation and per-key lemmas below |
| Records.Select | bike_sharing.py:65-66 | the boolean-mask selection `lo <= key <= hi`, keeping input order; on the key `dteday` it is the filter that builds `main_df`, and it keeps no more records than the input has |
| Records.SelectMember | bike_sharing.py:65-66 | a record is kept by the range selection exactly when it is in the input and its key lies within both inclusive bounds |
| Records.SelectAppend | bike_sharing.py:65-66 | selection distributes over concatenation, so the kept records stay in their original order (for `main_df`, with the key `dteday`) |
| Records.SelectMultiplicity | bike_sharing.py:65-66 | every in-range record is kept as many times as it occurs, and every out-of-range record zero times (for `main_df`, with the key `dteday`) |
| Records.SelectIdempotent | bike_sharing.py:65-66 | selecting twice with the same range equals selecting once (for `main_df`, with the key `dteday`) |
| Records.SelectEmptyRange | bike_sharing.py:65-66 | a range whose upper bound is below its lower bound selects nothing |
| Records.SelectSplit | bike_sharing.py:24-26 | a sum over keys `[lo, hi]` splits into the sum for key `lo` plus the sum over `[lo+1, hi]` |
| Records.SelectAll | bike_sharing.py:8-12 | a range that covers every record's key keeps the whole input |
| Records.SelectSpan | bike_sharing.py:8-12 | the range from the smallest to the largest key keeps the whole input |
| Records.OccursMember | bike_sharing.py:24 | a key value "occurs" exactly when some input record carries it |
| Records.OccursInRange | bike_sharing.py:24 | an occurring key lies inside any range that bounds all records' keys |
| Records.MinKey | bike_sharing.py:8 | the smallest key is at most every record's key |
| Records.MaxKey | bike_sharing.py:8 | the largest key is at least every record's key and at least the smallest |
| Records.MinMaxOccur | bike_sharing.py:8 | the smallest and largest key are each carried by some record |
| Daily.DaySum | bike_sharing.py:8-12 | one resample bin: the sum of a column over the records dated on one day, 0 when there are none |
| Daily.DayRows | bike_sharing.py:8-12 | the resample rows for `count` days from `from` are consecutive days, each holding the three per-day column sums |
| Daily.DailyRental | bike_sharing.py:7-19 | empty input gives an empty table; otherwise one row per calendar day from the earliest to the latest date, row `i` dated `min + i`, each column holding the sum of its input column over that day's records |
| Daily.DailyEnds | bike_sharing.py:8 | a non-empty input gives a non-empty table whose first row is the earliest date and whose last row is the latest, including the one-row table of a single day |
| Daily.DailyConsecutive | bike_sharing.py:8 | each row is the day after the previous one |
| Daily.DailyCoversRecords | bike_sharing.py:8-12 | every record's date has a row in the daily table |
| Daily.DailyGapsAreZero | bike_sharing.py:8-12 | a day inside the span with no records has all three sums 0 |
| Daily.DayRowsSum | bike_sharing.py:8-12 | the resample rows over `[lo, hi]` sum to the column sum of the records dated in `[lo, hi]` |
| Daily.DailyConservation | bike_sharing.py:8-12 | each daily column sums to the same column's sum over the whole input |
| Grouping.ScanGroups | bike_sharing.py:24-26 | the groupby computation (also at lines 34-36): a scan of the key range emitting a group only for a key with records; its meaning is in ScanGroupsRows and ScanGroupsComplete |
| Grouping.ScanGroupsRows | bike_sharing.py:24-26 | the key scan yields keys within the scanned range, strictly ascending, each occurring and holding its `cnt` sum |
| Grouping.ScanGroupsComplete | bike_sharing.py:24-26 | the key scan skips no key that occurs in its range |
| Grouping.GroupBy | bike_sharing.py:24-26 | empty input gives an empty groupby |
| Grouping.GroupByCorrect | bike_sharing.py:24-26 | the groupby meets its specification: keys strictly ascending, exactly the occurring keys, each with the `cnt` sum of its records |
| Grouping.GroupByComplete | bike_sharing.py:24-26 | every record's key has a group |
| Grouping.ScanGroupsStep | bike_sharing.py:24-26 | one scan step adds the `cnt` sum of its key, which is 0 for a skipped key |
| Grouping.ScanGroupsSum | bike_sharing.py:24-26 | a scan over `[lo, hi]` totals the `cnt` sum of the records keyed in `[lo, hi]` |
| Grouping.GroupByConservation | bike_sharing.py:24-26 | the groups' `cnt` values add up to the input's `cnt` sum |
| Grouping.AscendingSpread | bike_sharing.py:24-26 | in a strictly ascending table the key at position `i` is at least the first key plus `i` |
| Grouping.GroupByBounded | bike_sharing.py:24-26 | keys confined to `[lo, hi]` give at most `hi - lo + 1` groups |
| Grouping.Lookup | bike_sharing.py:26 | for a key without a row the value is the fill value; on a table with ascending keys it is that key's row value |
| Grouping.Reindex | bike_sharing.py:26 | one row per requested key, in the requested order, holding the fill value for a missing key and, on a table with ascending keys (as every groupby gives), the matching row's value |
| Seasons.BySeason | bike_sharing.py:22-30 | exactly four rows, with seasons 1, 2, 3, 4 in that order |
| Seasons.BySeasonTotals | bike_sharing.py:23-26 | row `i` holds the `cnt` sum of the records with season `i + 1`, which is 0 when there are none |
| Seasons.BySeasonAbsent | bike_sharing.py:26 | a season without records shows total 0 |
| Seasons.BySeasonEmpty | bike_sharing.py:22-30 | empty input gives `(1,0), (2,0), (3,0), (4,0)` |
| Seasons.SeasonTotalOfFour | bike_sharing.py:22-30 | proof helper for BySeasonConservation (the source itself never totals the seasonal table): the total of a four-row table is the sum of its four values |
| Seasons.BySeasonConservation | bike_sharing.py:23-26 | the four totals add up to the `cnt` sum of records with a season code from 1 to 4 |
| Seasons.SumOverSeasonCodes | bike_sharing.py:23-26 | the `cnt` sum over season codes 1 to 4 is the sum of the four per-code sums |
| Seasons.BySeasonConservationInRange | bike_sharing.py:23-26 | when every code is 1 to 4, the four totals add up to the whole input's `cnt` sum |
| Seasons.BySeasonDropsUnknown | bike_sharing.py:26 | adding a record with a season code outside 1 to 4 changes no row |
| Hours.Relabel | bike_sharing.py:37-39 | the renamed table has the same rows, with `cnt` under `bike_rental_in_hour` |
| Hours.ByHour | bike_sharing.py:33-41 | empty input gives an empty hourly table |
| Hours.ByHourRows | bike_sharing.py:34-36 | hours strictly ascending (so none repeated), each occurring in the input and holding the `cnt` sum of its records |
| Hours.ByHourComplete | bike_sharing.py:34-36 | every record's hour has a row |
| Hours.RelabelTotal | bike_sharing.py:37-39 | renaming keeps the column total |
| Hours.ByHourConservation | bike_sharing.py:34-36 | the hourly rows add up to the input's `cnt` sum |
| Hours.ByHourAtMost24 | bike_sharing.py:34-36 | with hours 0 to 23 the table has at most 24 rows |
| Dashboard.FilterByDate | bike_sharing.py:65-66 | a record is in `main_df` exactly when it is in the input and dated from `start` to `end` inclusive; `main_df` is no longer than the input |
| Dashboard.FilterByDateBounds | bike_sharing.py:65-66 | records dated `start` and `end` are kept; records dated `start - 1` or `end + 1` are not |
| Dashboard.HeadlineMetrics | bike_sharing.py:82-91 | the three `.sum()` calls on the daily table's `total_bike_rentals`, `casual_user` and `registered_user` columns |
| Dashboard.HeadlineMetricsMatchInput | bike_sharing.py:82-91 | the three headline numbers equal the input's sums of `cnt`, `casual` and `registered` |
| Dashboard.BuildReport | bike_sharing.py:64-71 | the report built from one date range has four seasonal rows, headline metrics equal to the `cnt`, `casual` and `registered` sums of the records dated in the range, and an hourly table whose total equals the total-rentals metric |
| Dashboard.ExampleDaily | bike_sharing.py:7-19 | two records on one day (hours 5 and 6, season 1, counts 3/7/10 and 2/1/3) give the single daily row `(5, 8, 13)` |
| Dashboard.ExampleSeasons | bike_sharing.py:22-30 | the same two records give seasons `(1,13), (2,0), (3,0), (4,0)` |
| Dashboard.ExampleHours | bike_sharing.py:33-41 | the same two records give hours `(5,10), (6,3)` |

## Left out

- Reading `hour.csv` (line 44) and parsing `dteday` into datetimes (line 47) are left out. The model starts from parsed records, with dates as integer day numbers, so a calendar day is one integer and the next day is that integer plus one.
- The Streamlit sidebar and date picker (lines 50-62) are left out. `start` and `end` are parameters of the filter, and no relation to the data's minimum and maximum date is required.
- The filter compares datetimes with `str(start_date)` (lines 65-66). It is modelled as an inclusive comparison of day numbers; string-to-datetime coercion is not modelled.
- Charts and headers (lines 74-138) are left out. They only display the three tables.
- The column renames (lines 13-17, 28, 37-39) are mostly represented by the output datatypes' field names rather than as operations. Two renames are operations: `Hours.Relabel` maps groupby rows to `HourRow` (lines 37-39), and `Seasons.BySeason` maps reindexed rows to `SeasonRow` (line 28).
- `reset_index` and pandas' index, dtypes and DataFrame internals are not modelled. The tables are sequences of rows.
- The counts are unbounded naturals. Integer overflow of pandas' `int64` sums is not modelled.
- No relation between `casual`, `registered` and `cnt` is assumed, because the code checks none.
