/**
 `create_daily_rental_df`: a daily resample of the hourly table with the sums of
 `casual`, `registered` and `cnt`. The resample produces one row for every
 calendar day from the earliest date to the latest, and a day without records
 gets zero sums.
 */
module Daily {
  import opened Records

  /** One row of the daily table, with the columns as the dashboard renames them. */
  datatype DailyRow = DailyRow(dteday: int, casualUser: nat, registeredUser: nat, totalBikeRentals: nat)

  /** The column of a daily row that holds the sum of `c`. */
  function Column(row: DailyRow, c: Count): nat
  {
    match c
    case Casual => row.casualUser
    case Registered => row.registeredUser
    case Cnt => row.totalBikeRentals
  }

  /** The sum of column `c` over the records dated `d`. */
  function DaySum(rs: seq<Record>, d: int, c: Count): nat
  {
    Sum(Select(rs, Day, d, d), c)
  }

  /** The resampled rows for the `count` days starting at day `from`. */
  function DayRows(rs: seq<Record>, from: int, count: nat): (r: seq<DailyRow>)
    ensures |r| == count
    ensures forall i :: 0 <= i < count ==> r[i].dteday == from + i
    ensures forall i, c :: 0 <= i < count ==> Column(r[i], c) == DaySum(rs, r[i].dteday, c)
    decreases count
  {
    if count == 0 then []
    else
      [DailyRow(from, DaySum(rs, from, Casual), DaySum(rs, from, Registered), DaySum(rs, from, Cnt))]
      + DayRows(rs, from + 1, count - 1)
  }

  /** The daily table: every day from the first to the last record's date, in order. */
  function DailyRental(rs: seq<Record>): (r: seq<DailyRow>)
    ensures rs == [] ==> r == []
    ensures rs != [] ==> |r| == MaxKey(rs, Day) - MinKey(rs, Day) + 1
    ensures rs != [] ==> forall i :: 0 <= i < |r| ==> r[i].dteday == MinKey(rs, Day) + i
    ensures forall i, c :: 0 <= i < |r| ==> Column(r[i], c) == DaySum(rs, r[i].dteday, c)
  {
    if rs == [] then []
    else DayRows(rs, MinKey(rs, Day), MaxKey(rs, Day) - MinKey(rs, Day) + 1)
  }

  /** A non-empty input gives a non-empty table whose first row is the earliest
      date and whose last row is the latest, one row when both are the same day. */
  lemma DailyEnds(rs: seq<Record>)
    requires rs != []
    ensures |DailyRental(rs)| > 0
    ensures DailyRental(rs)[0].dteday == MinKey(rs, Day)
    ensures DailyRental(rs)[|DailyRental(rs)| - 1].dteday == MaxKey(rs, Day)
  {
  }

  /** Each row is the day after the previous one. */
  lemma DailyConsecutive(rs: seq<Record>, i: nat)
    requires 0 < i < |DailyRental(rs)|
    ensures DailyRental(rs)[i].dteday == DailyRental(rs)[i - 1].dteday + 1
  {
  }

  /** Every record's date has a row. */
  lemma DailyCoversRecords(rs: seq<Record>, x: Record)
    requires x in rs
    ensures exists i :: 0 <= i < |DailyRental(rs)| && DailyRental(rs)[i].dteday == x.day
  {
    var r := DailyRental(rs);
    assert r[x.day - MinKey(rs, Day)].dteday == x.day;
  }

  /** Days inside the span that have no records appear with zero sums. */
  lemma DailyGapsAreZero(rs: seq<Record>, i: nat, c: Count)
    requires i < |DailyRental(rs)|
    requires !Occurs(rs, Day, DailyRental(rs)[i].dteday)
    ensures Column(DailyRental(rs)[i], c) == 0
  {
  }

  /** The sum of column `c` over a daily table. */
  function ColumnSum(rows: seq<DailyRow>, c: Count): nat
  {
    if rows == [] then 0 else Column(rows[0], c) + ColumnSum(rows[1..], c)
  }

  lemma {:induction false} DayRowsSum(rs: seq<Record>, lo: int, hi: int, c: Count)
    requires lo <= hi + 1
    ensures ColumnSum(DayRows(rs, lo, hi - lo + 1), c) == Sum(Select(rs, Day, lo, hi), c)
    decreases hi - lo + 1
  {
    if lo > hi {
      SelectEmptyRange(rs, Day, lo, hi);
    } else {
      var r := DayRows(rs, lo, hi - lo + 1);
      assert r[1..] == DayRows(rs, lo + 1, hi - (lo + 1) + 1);
      DayRowsSum(rs, lo + 1, hi, c);
      SelectSplit(rs, Day, lo, hi, c);
    }
  }

  /** Resampling loses and invents nothing: each column of the daily table sums
      to the same column of the input. */
  lemma DailyConservation(rs: seq<Record>, c: Count)
    ensures ColumnSum(DailyRental(rs), c) == Sum(rs, c)
  {
    if rs != [] {
      DayRowsSum(rs, MinKey(rs, Day), MaxKey(rs, Day), c);
      SelectSpan(rs, Day);
    }
  }
}
