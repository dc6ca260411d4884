/**
 `create_hour_rental_df`: `groupby(by=["hr"])` with a sum of `cnt`. The table is
 sparse: one row per hour that occurs, in ascending order, and nothing for an
 hour without records.
 */
module Hours {
  import opened Records
  import opened Grouping

  /** One row of the hourly table, with the columns as the dashboard renames them. */
  datatype HourRow = HourRow(hr: int, bikeRentalInHour: nat)

  /** The groupby rows under the hourly table's column names. */
  function Relabel(g: seq<Group>): (r: seq<HourRow>)
    ensures |r| == |g|
    ensures forall i :: 0 <= i < |g| ==> r[i].hr == g[i].key && r[i].bikeRentalInHour == g[i].cnt
  {
    if g == [] then [] else [HourRow(g[0].key, g[0].cnt)] + Relabel(g[1..])
  }

  /** The hourly table. */
  function ByHour(rs: seq<Record>): (r: seq<HourRow>)
    ensures rs == [] ==> r == []
  {
    Relabel(GroupBy(rs, Hr))
  }

  /** Hours are strictly ascending, so no hour appears twice; each occurs in
      some record and carries the `cnt` sum of that hour's records. */
  lemma ByHourRows(rs: seq<Record>)
    ensures forall i, j :: 0 <= i < j < |ByHour(rs)| ==> ByHour(rs)[i].hr < ByHour(rs)[j].hr
    ensures forall i :: 0 <= i < |ByHour(rs)| ==> Occurs(rs, Hr, ByHour(rs)[i].hr)
    ensures forall i :: 0 <= i < |ByHour(rs)| ==>
      ByHour(rs)[i].bikeRentalInHour == Sum(Select(rs, Hr, ByHour(rs)[i].hr, ByHour(rs)[i].hr), Cnt)
  {
    GroupByCorrect(rs, Hr);
  }

  /** Every record's hour has a row. */
  lemma ByHourComplete(rs: seq<Record>, x: Record)
    requires x in rs
    ensures exists i :: 0 <= i < |ByHour(rs)| && ByHour(rs)[i].hr == x.hr
  {
    GroupByComplete(rs, Hr, x);
    var g := GroupBy(rs, Hr);
    var i :| 0 <= i < |g| && g[i].key == x.hr;
    assert ByHour(rs)[i].hr == x.hr;
  }

  /** The sum of the `bike_rental_in_hour` column. */
  function HourTotal(rows: seq<HourRow>): nat
  {
    if rows == [] then 0 else rows[0].bikeRentalInHour + HourTotal(rows[1..])
  }

  lemma {:induction false} RelabelTotal(g: seq<Group>)
    ensures HourTotal(Relabel(g)) == GroupTotal(g)
  {
    if g != [] {
      RelabelTotal(g[1..]);
      assert Relabel(g)[1..] == Relabel(g[1..]);
    }
  }

  /** The hourly rows add up to the `cnt` sum of the whole input. */
  lemma ByHourConservation(rs: seq<Record>)
    ensures HourTotal(ByHour(rs)) == Sum(rs, Cnt)
  {
    RelabelTotal(GroupBy(rs, Hr));
    GroupByConservation(rs, Hr);
  }

  /** With hours of day 0 to 23 the table has at most 24 rows. */
  lemma ByHourAtMost24(rs: seq<Record>)
    requires forall x :: x in rs ==> 0 <= x.hr <= 23
    ensures |ByHour(rs)| <= 24
  {
    GroupByBounded(rs, Hr, 0, 23);
  }
}
