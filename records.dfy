/**
 The hourly rental table the dashboard reads, already parsed: one `Record` per
 row of the table, with the calendar date `dteday` written as a day number.
 This module holds what every aggregation shares: the key and count columns,
 column sums, and `Select`, which keeps the records whose key lies in an
 inclusive range, in their original order.
 */
module Records {

  /** One hourly observation. No relation between `casual`, `registered` and
      `cnt` is assumed: the dashboard never checks one. */
  datatype Record = Record(day: int, hr: int, season: int, casual: nat, registered: nat, cnt: nat)

  /** The columns the dashboard groups or filters on. */
  datatype Key = Day | Hr | Season

  /** The columns the dashboard sums. */
  datatype Count = Casual | Registered | Cnt

  function KeyOf(x: Record, k: Key): int
  {
    match k
    case Day => x.day
    case Hr => x.hr
    case Season => x.season
  }

  function CountOf(x: Record, c: Count): nat
  {
    match c
    case Casual => x.casual
    case Registered => x.registered
    case Cnt => x.cnt
  }

  /** The sum of column `c` over `rs` (pandas' `sum`, which is 0 on no rows). */
  function Sum(rs: seq<Record>, c: Count): nat
  {
    if rs == [] then 0 else CountOf(rs[0], c) + Sum(rs[1..], c)
  }

  predicate InRange(x: Record, k: Key, lo: int, hi: int)
  {
    lo <= KeyOf(x, k) <= hi
  }

  /** The records of `rs` whose column `k` lies in `[lo, hi]`, in their order in `rs`.
      A boolean-mask selection `df[(df[k] >= lo) & (df[k] <= hi)]`. */
  function Select(rs: seq<Record>, k: Key, lo: int, hi: int): (r: seq<Record>)
    ensures |r| <= |rs|
  {
    if rs == [] then []
    else if InRange(rs[0], k, lo, hi) then [rs[0]] + Select(rs[1..], k, lo, hi)
    else Select(rs[1..], k, lo, hi)
  }

  /** A record is selected exactly when it is in `rs` and in range. */
  lemma {:induction false} SelectMember(rs: seq<Record>, k: Key, lo: int, hi: int, x: Record)
    ensures x in Select(rs, k, lo, hi) <==> x in rs && InRange(x, k, lo, hi)
  {
    if rs != [] {
      SelectMember(rs[1..], k, lo, hi, x);
      assert x in rs <==> x == rs[0] || x in rs[1..];
    }
  }

  /** Selection works record by record: on a concatenation it is the
      concatenation of the selections, so the original order is kept. */
  lemma {:induction false} SelectAppend(a: seq<Record>, b: seq<Record>, k: Key, lo: int, hi: int)
    ensures Select(a + b, k, lo, hi) == Select(a, k, lo, hi) + Select(b, k, lo, hi)
  {
    if a == [] {
      assert a + b == b;
    } else {
      assert (a + b)[0] == a[0];
      assert (a + b)[1..] == a[1..] + b;
      SelectAppend(a[1..], b, k, lo, hi);
    }
  }

  /** Every record is kept as often as it occurs when it is in range, and
      never otherwise. */
  lemma {:induction false} SelectMultiplicity(rs: seq<Record>, k: Key, lo: int, hi: int, x: Record)
    ensures multiset(Select(rs, k, lo, hi))[x] == if InRange(x, k, lo, hi) then multiset(rs)[x] else 0
  {
    if rs != [] {
      assert rs == [rs[0]] + rs[1..];
      SelectMultiplicity(rs[1..], k, lo, hi, x);
    }
  }

  lemma {:induction false} SelectIdempotent(rs: seq<Record>, k: Key, lo: int, hi: int)
    ensures Select(Select(rs, k, lo, hi), k, lo, hi) == Select(rs, k, lo, hi)
  {
    if rs != [] {
      SelectIdempotent(rs[1..], k, lo, hi);
      if InRange(rs[0], k, lo, hi) {
        var s := Select(rs, k, lo, hi);
        assert s[0] == rs[0] && s[1..] == Select(rs[1..], k, lo, hi);
      }
    }
  }

  /** A range that covers every record keeps all of them. */
  lemma {:induction false} SelectAll(rs: seq<Record>, k: Key, lo: int, hi: int)
    requires forall x :: x in rs ==> InRange(x, k, lo, hi)
    ensures Select(rs, k, lo, hi) == rs
  {
    if rs != [] {
      SelectAll(rs[1..], k, lo, hi);
      assert [rs[0]] + rs[1..] == rs;
    }
  }

  /** The span from the smallest to the largest key keeps every record. */
  lemma SelectSpan(rs: seq<Record>, k: Key)
    requires rs != []
    ensures Select(rs, k, MinKey(rs, k), MaxKey(rs, k)) == rs
  {
    SelectAll(rs, k, MinKey(rs, k), MaxKey(rs, k));
  }

  /** An empty range selects nothing. */
  lemma {:induction false} SelectEmptyRange(rs: seq<Record>, k: Key, lo: int, hi: int)
    requires hi < lo
    ensures Select(rs, k, lo, hi) == []
  {
    if rs != [] {
      SelectEmptyRange(rs[1..], k, lo, hi);
    }
  }

  /** Some record of `rs` has value `v` in column `k`: selecting `v` finds a record. */
  predicate Occurs(rs: seq<Record>, k: Key, v: int)
  {
    Select(rs, k, v, v) != []
  }

  /** `Occurs` is exactly membership of a record carrying the value. */
  lemma OccursMember(rs: seq<Record>, k: Key, v: int)
    ensures Occurs(rs, k, v) <==> exists x :: x in rs && KeyOf(x, k) == v
  {
    var s := Select(rs, k, v, v);
    if s != [] {
      SelectMember(rs, k, v, v, s[0]);
    }
    forall x | x in rs && KeyOf(x, k) == v
      ensures Occurs(rs, k, v)
    {
      SelectMember(rs, k, v, v, x);
    }
  }

  /** A value that occurs lies in any range that covers every record. */
  lemma OccursInRange(rs: seq<Record>, k: Key, v: int, lo: int, hi: int)
    requires Occurs(rs, k, v)
    requires forall x :: x in rs ==> InRange(x, k, lo, hi)
    ensures lo <= v <= hi
  {
    OccursMember(rs, k, v);
    var x :| x in rs && KeyOf(x, k) == v;
  }

  /** Summing over `[lo, hi]` is summing over `lo` alone plus over `[lo + 1, hi]`. */
  lemma {:induction false} SelectSplit(rs: seq<Record>, k: Key, lo: int, hi: int, c: Count)
    requires lo <= hi
    ensures Sum(Select(rs, k, lo, hi), c) == Sum(Select(rs, k, lo, lo), c) + Sum(Select(rs, k, lo + 1, hi), c)
  {
    if rs != [] {
      SelectSplit(rs[1..], k, lo, hi, c);
      var x := rs[0];
      if InRange(x, k, lo, hi) {
        assert ([x] + Select(rs[1..], k, lo, hi))[1..] == Select(rs[1..], k, lo, hi);
      }
      if InRange(x, k, lo, lo) {
        assert ([x] + Select(rs[1..], k, lo, lo))[1..] == Select(rs[1..], k, lo, lo);
      }
      if InRange(x, k, lo + 1, hi) {
        assert ([x] + Select(rs[1..], k, lo + 1, hi))[1..] == Select(rs[1..], k, lo + 1, hi);
      }
    }
  }

  /** The smallest value of column `k` (pandas' `min`). */
  function MinKey(rs: seq<Record>, k: Key): (m: int)
    requires rs != []
    ensures forall x :: x in rs ==> m <= KeyOf(x, k)
  {
    if |rs| == 1 then KeyOf(rs[0], k)
    else
      var m' := MinKey(rs[1..], k);
      if KeyOf(rs[0], k) <= m' then KeyOf(rs[0], k) else m'
  }

  /** The largest value of column `k` (pandas' `max`). */
  function MaxKey(rs: seq<Record>, k: Key): (m: int)
    requires rs != []
    ensures forall x :: x in rs ==> KeyOf(x, k) <= m
    ensures MinKey(rs, k) <= m
  {
    assert rs[0] in rs;
    if |rs| == 1 then KeyOf(rs[0], k)
    else
      var m' := MaxKey(rs[1..], k);
      if KeyOf(rs[0], k) >= m' then KeyOf(rs[0], k) else m'
  }

  /** The smallest and the largest key are both carried by some record. */
  lemma {:induction false} MinMaxOccur(rs: seq<Record>, k: Key)
    requires rs != []
    ensures Occurs(rs, k, MinKey(rs, k)) && Occurs(rs, k, MaxKey(rs, k))
  {
    if |rs| > 1 {
      MinMaxOccur(rs[1..], k);
    }
  }
}
