/**
 `groupby(by=k).agg({"cnt": "sum"})` and `reindex(keys, fill_value=...)`, the
 two pandas steps that the seasonal and hourly tables are built from.
 A groupby is sparse: it has one row per key that occurs, keys ascending.
 A reindex is dense: it has one row per requested key, in the requested
 order, with the fill value where the key has no row.
 */
module Grouping {
  import opened Records

  /** One row of a groupby: a key and the sum of `cnt` over its records. */
  datatype Group = Group(key: int, cnt: nat)

  /** Keys strictly ascending, hence pairwise distinct. */
  predicate Ascending(g: seq<Group>)
  {
    forall i, j :: 0 <= i < j < |g| ==> g[i].key < g[j].key
  }

  /** Some group has key `v`. */
  predicate HasKey(g: seq<Group>, v: int)
  {
    exists i :: 0 <= i < |g| && g[i].key == v
  }

  /** What a groupby on column `k` followed by a `cnt` sum is, independently of
      how it is computed: keys ascending, exactly the keys that occur, and each
      group holding the `cnt` sum of the records with its key. */
  ghost predicate IsGrouping(rs: seq<Record>, k: Key, g: seq<Group>)
  {
    && Ascending(g)
    && (forall i :: 0 <= i < |g| ==> Occurs(rs, k, g[i].key))
    && (forall i :: 0 <= i < |g| ==> g[i].cnt == Sum(Select(rs, k, g[i].key, g[i].key), Cnt))
    && (forall v :: Occurs(rs, k, v) ==> HasKey(g, v))
  }

  /** The groups among the keys `from .. from + count - 1`, skipping keys
      without records. */
  function ScanGroups(rs: seq<Record>, k: Key, from: int, count: nat): seq<Group>
    decreases count
  {
    if count == 0 then []
    else
      var g := Select(rs, k, from, from);
      var rest := ScanGroups(rs, k, from + 1, count - 1);
      if g == [] then rest else [Group(from, Sum(g, Cnt))] + rest
  }

  /** The scan yields keys of the scanned range, ascending, each one that occurs
      with its `cnt` sum. */
  lemma {:induction false} ScanGroupsRows(rs: seq<Record>, k: Key, from: int, count: nat)
    ensures forall i :: 0 <= i < |ScanGroups(rs, k, from, count)| ==>
      from <= ScanGroups(rs, k, from, count)[i].key < from + count
    ensures Ascending(ScanGroups(rs, k, from, count))
    ensures forall i :: 0 <= i < |ScanGroups(rs, k, from, count)| ==>
      Occurs(rs, k, ScanGroups(rs, k, from, count)[i].key)
    ensures forall i :: 0 <= i < |ScanGroups(rs, k, from, count)| ==>
      ScanGroups(rs, k, from, count)[i].cnt
        == Sum(Select(rs, k, ScanGroups(rs, k, from, count)[i].key, ScanGroups(rs, k, from, count)[i].key), Cnt)
    decreases count
  {
    if count > 0 {
      ScanGroupsRows(rs, k, from + 1, count - 1);
      var g := Select(rs, k, from, from);
      var rest := ScanGroups(rs, k, from + 1, count - 1);
      if g != [] {
        var r := [Group(from, Sum(g, Cnt))] + rest;
        assert forall i :: 1 <= i < |r| ==> r[i] == rest[i - 1];
      }
    }
  }

  /** The scan skips no key that occurs. */
  lemma {:induction false} ScanGroupsComplete(rs: seq<Record>, k: Key, from: int, count: nat, v: int)
    requires from <= v < from + count
    requires Occurs(rs, k, v)
    ensures HasKey(ScanGroups(rs, k, from, count), v)
    decreases count
  {
    var g := Select(rs, k, from, from);
    var rest := ScanGroups(rs, k, from + 1, count - 1);
    var r := ScanGroups(rs, k, from, count);
    if v == from {
      assert r == [Group(from, Sum(g, Cnt))] + rest;
      assert r[0].key == v;
    } else {
      ScanGroupsComplete(rs, k, from + 1, count - 1, v);
      var i :| 0 <= i < |rest| && rest[i].key == v;
      if g == [] {
        assert r == rest;
      } else {
        assert r == [Group(from, Sum(g, Cnt))] + rest;
        assert r[i + 1] == rest[i];
      }
    }
  }

  /** `groupby(by=k).agg({"cnt": "sum"})`, computed by scanning the keys from
      the smallest to the largest that occurs. */
  function GroupBy(rs: seq<Record>, k: Key): (r: seq<Group>)
    ensures rs == [] ==> r == []
  {
    if rs == [] then []
    else ScanGroups(rs, k, MinKey(rs, k), MaxKey(rs, k) - MinKey(rs, k) + 1)
  }

  /** The groupby meets its specification. */
  lemma GroupByCorrect(rs: seq<Record>, k: Key)
    ensures IsGrouping(rs, k, GroupBy(rs, k))
  {
    if rs != [] {
      var lo, hi := MinKey(rs, k), MaxKey(rs, k);
      ScanGroupsRows(rs, k, lo, hi - lo + 1);
      forall v | Occurs(rs, k, v)
        ensures HasKey(GroupBy(rs, k), v)
      {
        OccursInRange(rs, k, v, lo, hi);
        ScanGroupsComplete(rs, k, lo, hi - lo + 1, v);
      }
    }
  }

  /** The groupby has a group for the key of every record. */
  lemma GroupByComplete(rs: seq<Record>, k: Key, x: Record)
    requires x in rs
    ensures HasKey(GroupBy(rs, k), KeyOf(x, k))
  {
    GroupByCorrect(rs, k);
    OccursMember(rs, k, KeyOf(x, k));
  }

  /** The sum of `cnt` over a grouped table. */
  function GroupTotal(g: seq<Group>): nat
  {
    if g == [] then 0 else g[0].cnt + GroupTotal(g[1..])
  }

  /** One step of the scan adds the `cnt` sum of its key, which is 0 when the key is skipped. */
  lemma ScanGroupsStep(rs: seq<Record>, k: Key, from: int, count: nat)
    requires count > 0
    ensures GroupTotal(ScanGroups(rs, k, from, count))
         == Sum(Select(rs, k, from, from), Cnt) + GroupTotal(ScanGroups(rs, k, from + 1, count - 1))
  {
    var g := Select(rs, k, from, from);
    var rest := ScanGroups(rs, k, from + 1, count - 1);
    if g != [] {
      var r := [Group(from, Sum(g, Cnt))] + rest;
      assert r[1..] == rest;
    }
  }

  lemma {:induction false} ScanGroupsSum(rs: seq<Record>, k: Key, lo: int, hi: int)
    requires lo <= hi + 1
    ensures GroupTotal(ScanGroups(rs, k, lo, hi - lo + 1)) == Sum(Select(rs, k, lo, hi), Cnt)
    decreases hi - lo + 1
  {
    if lo > hi {
      SelectEmptyRange(rs, k, lo, hi);
    } else {
      ScanGroupsStep(rs, k, lo, hi - lo + 1);
      assert hi - lo + 1 - 1 == hi - (lo + 1) + 1;
      ScanGroupsSum(rs, k, lo + 1, hi);
      SelectSplit(rs, k, lo, hi, Cnt);
    }
  }

  /** Grouping conserves `cnt`: the groups add up to the sum over all records. */
  lemma GroupByConservation(rs: seq<Record>, k: Key)
    ensures GroupTotal(GroupBy(rs, k)) == Sum(rs, Cnt)
  {
    if rs != [] {
      ScanGroupsSum(rs, k, MinKey(rs, k), MaxKey(rs, k));
      SelectSpan(rs, k);
    }
  }

  /** Ascending keys are at least as far apart as their positions. */
  lemma {:induction false} AscendingSpread(g: seq<Group>, i: nat)
    requires Ascending(g)
    requires i < |g|
    ensures g[i].key >= g[0].key + i
  {
    if i > 0 {
      AscendingSpread(g, i - 1);
    }
  }

  /** Keys confined to `[lo, hi]` give at most `hi - lo + 1` groups. */
  lemma GroupByBounded(rs: seq<Record>, k: Key, lo: int, hi: int)
    requires lo <= hi
    requires forall x :: x in rs ==> InRange(x, k, lo, hi)
    ensures |GroupBy(rs, k)| <= hi - lo + 1
  {
    var g := GroupBy(rs, k);
    if g != [] {
      GroupByCorrect(rs, k);
      var n := |g| - 1;
      AscendingSpread(g, n);
      OccursInRange(rs, k, g[0].key, lo, hi);
      OccursInRange(rs, k, g[n].key, lo, hi);
    }
  }

  /** The value `reindex` puts under `key`: the fill value when the table has
      no row with that key and, when its keys ascend, the value of that row. */
  function Lookup(g: seq<Group>, key: int, fill: nat): (v: nat)
    ensures !HasKey(g, key) ==> v == fill
    ensures Ascending(g) ==> forall j :: 0 <= j < |g| && g[j].key == key ==> v == g[j].cnt
  {
    if g == [] then fill
    else if g[0].key == key then g[0].cnt
    else
      assert forall j :: 1 <= j < |g| ==> g[1..][j - 1] == g[j];
      Lookup(g[1..], key, fill)
  }

  /** `reindex(keys, fill_value=fill)`: one row per requested key, in the
      requested order, holding the fill value when `g` has no row for the key
      and, when the keys of `g` ascend, the value of its row for the key. */
  function Reindex(g: seq<Group>, keys: seq<int>, fill: nat): (r: seq<Group>)
    ensures |r| == |keys|
    ensures forall i :: 0 <= i < |r| ==> r[i].key == keys[i]
    ensures forall i :: 0 <= i < |r| && !HasKey(g, keys[i]) ==> r[i].cnt == fill
    ensures Ascending(g) ==> forall i, j :: 0 <= i < |r| && 0 <= j < |g| && g[j].key == keys[i] ==> r[i].cnt == g[j].cnt
  {
    seq(|keys|, i requires 0 <= i < |keys| => Group(keys[i], Lookup(g, keys[i], fill)))
  }
}
