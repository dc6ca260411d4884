/**
 The dashboard's computation, without its widgets and charts: the date-range
 filter that builds `main_df`, the three tables built from it, and the three
 headline metrics summed from the daily table. The date picker's `start` and
 `end` are plain parameters here.
 */
module Dashboard {
  import opened Records
  import opened Daily
  import opened Seasons
  import opened Hours
  import opened Grouping

  /** `main_df`: the records dated from `start` to `end`, both included, in
      their original order. */
  function FilterByDate(rs: seq<Record>, start: int, end: int): (r: seq<Record>)
    ensures |r| <= |rs|
    ensures forall x :: x in r <==> x in rs && start <= x.day <= end
  {
    forall x ensures x in Select(rs, Day, start, end) <==> x in rs && start <= x.day <= end {
      SelectMember(rs, Day, start, end, x);
    }
    Select(rs, Day, start, end)
  }

  /** Both bounds are inclusive: the first and last day are kept, the day before
      `start` and the day after `end` are not. */
  lemma FilterByDateBounds(rs: seq<Record>, start: int, end: int, x: Record)
    requires x in rs
    ensures x.day == start - 1 ==> x !in FilterByDate(rs, start, end)
    ensures x.day == end + 1 ==> x !in FilterByDate(rs, start, end)
    ensures start <= end && (x.day == start || x.day == end) ==> x in FilterByDate(rs, start, end)
  {
  }

  /** The three headline numbers. */
  datatype Metrics = Metrics(totalBikeRentals: nat, totalCasualUser: nat, totalRegisteredUser: nat)

  /** `st.metric` values: the sums of the daily table's three columns. */
  function HeadlineMetrics(daily: seq<DailyRow>): Metrics
  {
    Metrics(ColumnSum(daily, Cnt), ColumnSum(daily, Casual), ColumnSum(daily, Registered))
  }

  /** The headline numbers are the input's sums of `cnt`, `casual` and `registered`. */
  lemma HeadlineMetricsMatchInput(rs: seq<Record>)
    ensures HeadlineMetrics(DailyRental(rs)) == Metrics(Sum(rs, Cnt), Sum(rs, Casual), Sum(rs, Registered))
  {
    DailyConservation(rs, Cnt);
    DailyConservation(rs, Casual);
    DailyConservation(rs, Registered);
  }

  /** Everything the dashboard shows for one date range. */
  datatype Report = Report(daily: seq<DailyRow>, bySeason: seq<SeasonRow>, byHour: seq<HourRow>, metrics: Metrics)

  /** Filter once, build the three tables from the filtered records, and sum the
      daily table for the metrics. */
  function BuildReport(hourDf: seq<Record>, start: int, end: int): (r: Report)
    ensures |r.bySeason| == 4
    ensures r.metrics == Metrics(Sum(FilterByDate(hourDf, start, end), Cnt),
                                 Sum(FilterByDate(hourDf, start, end), Casual),
                                 Sum(FilterByDate(hourDf, start, end), Registered))
    ensures HourTotal(r.byHour) == r.metrics.totalBikeRentals
  {
    var mainDf := FilterByDate(hourDf, start, end);
    HeadlineMetricsMatchInput(mainDf);
    ByHourConservation(mainDf);
    Report(DailyRental(mainDf), BySeason(mainDf), ByHour(mainDf), HeadlineMetrics(DailyRental(mainDf)))
  }

  /** Two records of one day, hours 5 and 6, season 1. */
  function ExampleRecords(): seq<Record>
  {
    [Record(0, 5, 1, 3, 7, 10), Record(0, 6, 1, 2, 1, 3)]
  }

  /** Both records fall on day 0: one daily row with the sums 5, 8 and 13. */
  lemma ExampleDaily()
    ensures DailyRental(ExampleRecords()) == [DailyRow(0, 5, 8, 13)]
  {
    var rs := ExampleRecords();
    assert rs[1..][1..] == [];
    assert MinKey(rs, Day) == 0 && MaxKey(rs, Day) == 0;
    assert Select(rs, Day, 0, 0) == rs;
    assert Sum(rs, Casual) == 5 && Sum(rs, Registered) == 8 && Sum(rs, Cnt) == 13;
  }

  /** Season 1 gets 13, the other three seasons 0. */
  lemma ExampleSeasons()
    ensures BySeason(ExampleRecords()) == [SeasonRow(1, 13), SeasonRow(2, 0), SeasonRow(3, 0), SeasonRow(4, 0)]
  {
    var rs := ExampleRecords();
    assert rs[1..][1..] == [];
    assert Select(rs, Season, 1, 1) == rs;
    assert Sum(rs, Cnt) == 13;
    BySeasonTotals(rs, 0);
    BySeasonTotals(rs, 1);
    BySeasonTotals(rs, 2);
    BySeasonTotals(rs, 3);
  }

  /** Hour 5 gets 10 and hour 6 gets 3, in that order. */
  lemma ExampleHours()
    ensures ByHour(ExampleRecords()) == [HourRow(5, 10), HourRow(6, 3)]
  {
    var rs := ExampleRecords();
    assert rs[1..][1..] == [];
    assert MinKey(rs, Hr) == 5 && MaxKey(rs, Hr) == 6;
    assert Select(rs, Hr, 5, 5) == [rs[0]];
    assert Select(rs, Hr, 6, 6) == [rs[1]];
    assert ScanGroups(rs, Hr, 6, 1) == [Group(6, 3)];
    assert GroupBy(rs, Hr) == [Group(5, 10), Group(6, 3)];
  }
}
