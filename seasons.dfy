/**
 `create_byseason_df`: `groupby("season")` with a sum of `cnt`, then
 `reindex([1, 2, 3, 4], fill_value=0)`. The table is dense: always the four
 season codes in order, 0 for a season without records. Records whose code is
 not 1 to 4 fall out at the reindex and count towards no row.
 */
module Seasons {
  import opened Records
  import opened Grouping

  /** The season codes the reindex asks for: spring, summer, fall, winter. */
  const SeasonCodes: seq<int> := [1, 2, 3, 4]

  /** One row of the seasonal table, with the columns as the dashboard names them. */
  datatype SeasonRow = SeasonRow(season: int, totalBikeRentals: nat)

  /** The seasonal table: exactly four rows, with keys 1, 2, 3, 4 in that order. */
  function BySeason(rs: seq<Record>): (r: seq<SeasonRow>)
    ensures |r| == 4
    ensures forall i :: 0 <= i < 4 ==> r[i].season == i + 1
  {
    var t := Reindex(GroupBy(rs, Season), SeasonCodes, 0);
    seq(|t|, i requires 0 <= i < |t| => SeasonRow(t[i].key, t[i].cnt))
  }

  /** Row `i` holds the `cnt` sum of the records of season `i + 1`; for a season
      without records that is the fill value 0. */
  lemma BySeasonTotals(rs: seq<Record>, i: nat)
    requires i < 4
    ensures BySeason(rs)[i].totalBikeRentals == Sum(Select(rs, Season, i + 1, i + 1), Cnt)
  {
    var g := GroupBy(rs, Season);
    GroupByCorrect(rs, Season);
    assert SeasonCodes[i] == i + 1;
    if HasKey(g, i + 1) {
      var j :| 0 <= j < |g| && g[j].key == i + 1;
    }
  }

  /** A season with no records appears with total 0. */
  lemma BySeasonAbsent(rs: seq<Record>, i: nat)
    requires i < 4
    requires !Occurs(rs, Season, i + 1)
    ensures BySeason(rs)[i].totalBikeRentals == 0
  {
    BySeasonTotals(rs, i);
  }

  /** No records give four zero rows. */
  lemma BySeasonEmpty()
    ensures BySeason([]) == [SeasonRow(1, 0), SeasonRow(2, 0), SeasonRow(3, 0), SeasonRow(4, 0)]
  {
    var r := BySeason([]);
    forall i | 0 <= i < 4
      ensures r[i].totalBikeRentals == 0
    {
      BySeasonTotals([], i);
    }
  }

  /** The sum of the `total_bike_rentals` column. */
  function SeasonTotal(rows: seq<SeasonRow>): nat
  {
    if rows == [] then 0 else rows[0].totalBikeRentals + SeasonTotal(rows[1..])
  }

  lemma SeasonTotalOfFour(r: seq<SeasonRow>)
    requires |r| == 4
    ensures SeasonTotal(r) == r[0].totalBikeRentals + r[1].totalBikeRentals + r[2].totalBikeRentals + r[3].totalBikeRentals
  {
    assert r[3..][1..] == [];
    assert SeasonTotal(r[3..]) == r[3].totalBikeRentals;
    assert r[2..][1..] == r[3..];
    assert SeasonTotal(r[2..]) == r[2].totalBikeRentals + SeasonTotal(r[3..]);
    assert r[1..][1..] == r[2..];
    assert SeasonTotal(r[1..]) == r[1].totalBikeRentals + SeasonTotal(r[2..]);
  }

  /** The four rows add up to the `cnt` sum of the records whose season code is
      1 to 4; other codes count for nothing. */
  lemma BySeasonConservation(rs: seq<Record>)
    ensures SeasonTotal(BySeason(rs)) == Sum(Select(rs, Season, 1, 4), Cnt)
  {
    SeasonTotalOfFour(BySeason(rs));
    BySeasonTotals(rs, 0);
    BySeasonTotals(rs, 1);
    BySeasonTotals(rs, 2);
    BySeasonTotals(rs, 3);
    SumOverSeasonCodes(rs);
  }

  /** The `cnt` sum over codes 1 to 4 is the sum of the four per-code sums. */
  lemma SumOverSeasonCodes(rs: seq<Record>)
    ensures Sum(Select(rs, Season, 1, 4), Cnt)
         == Sum(Select(rs, Season, 1, 1), Cnt) + Sum(Select(rs, Season, 2, 2), Cnt)
          + Sum(Select(rs, Season, 3, 3), Cnt) + Sum(Select(rs, Season, 4, 4), Cnt)
  {
    SelectSplit(rs, Season, 1, 4, Cnt);
    SelectSplit(rs, Season, 2, 4, Cnt);
    SelectSplit(rs, Season, 3, 4, Cnt);
  }

  /** When every code is 1 to 4, the seasonal table loses no rentals. */
  lemma BySeasonConservationInRange(rs: seq<Record>)
    requires forall x :: x in rs ==> 1 <= x.season <= 4
    ensures SeasonTotal(BySeason(rs)) == Sum(rs, Cnt)
  {
    BySeasonConservation(rs);
    SelectAll(rs, Season, 1, 4);
  }

  /** A record with a code outside 1 to 4 changes no row. */
  lemma BySeasonDropsUnknown(rs: seq<Record>, x: Record)
    requires x.season < 1 || x.season > 4
    ensures BySeason(rs + [x]) == BySeason(rs)
  {
    var a, b := BySeason(rs + [x]), BySeason(rs);
    forall i | 0 <= i < 4
      ensures a[i] == b[i]
    {
      BySeasonTotals(rs + [x], i);
      BySeasonTotals(rs, i);
      SelectAppend(rs, [x], Season, i + 1, i + 1);
      assert [x][1..] == [];
      assert Select([x], Season, i + 1, i + 1) == [];
      assert Select(rs, Season, i + 1, i + 1) + [] == Select(rs, Season, i + 1, i + 1);
    }
  }
}
