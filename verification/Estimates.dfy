/** The row estimates of sqlite_stat1. */
module Estimates {
  import opened Arith
  import opened IndexRows

  // Rows per key prefix, given n rows and d distinct prefixes.
  function Estimate(n: nat, d: nat): nat
    requires d > 0
  {
    var iVal := (n + d - 1) / d;
    if iVal == 2 && n * 10 <= d * 11 then 1 else iVal
  }

  lemma CeilIs(n: nat, d: nat)
    requires 0 < d <= n
    ensures var q := (n + d - 1) / d; q >= 1 && (q - 1) * d < n <= q * d
  {
    var q, r := (n + d - 1) / d, (n + d - 1) % d;
    assert n + d - 1 == q * d + r;
    if q == 0 { assert false; }
    assert (q - 1) * d == q * d - d;
  }

  // The estimate is n/d rounded up, except that a quotient of at most 1.1
  // counts as 1.
  lemma EstimateIs(n: nat, d: nat)
    requires 0 < d <= n
    ensures var e := Estimate(n, d); 1 <= e <= n
    ensures Estimate(n, d) == 1 <==> 10 * n <= 11 * d
    ensures var e := Estimate(n, d); e != 1 ==> (e - 1) * d < n <= e * d
  {
    var q := (n + d - 1) / d;
    CeilIs(n, d);
    if q == 1 { assert q * d == d; }
    if q == 2 { assert (q - 1) * d == d; }
    if q >= 3 { MulGap(q - 1, 1, d); }
    if q > n { MulLeast(q - 1, d); assert false; }
  }

  lemma MulLeast(a: nat, d: nat)
    requires d > 0
    ensures a * d >= a
  {}

  // More distinct prefixes never raise the estimate.
  lemma EstimateMonotone(n: nat, d: nat, d': nat)
    requires 0 < d <= d' <= n
    ensures Estimate(n, d') <= Estimate(n, d)
  {
    EstimateIs(n, d);
    EstimateIs(n, d');
    var e, e' := Estimate(n, d), Estimate(n, d');
    if e' > e && e != 1 {
      MulBoth(e, e' - 1, d, d');
      assert false;
    }
  }

  lemma MulBoth(a: nat, b: nat, c: nat, d: nat)
    requires a <= b && c <= d
    ensures a * c <= b * d
  {
    assert b * d == a * d + (b - a) * d;
    assert a * d == a * c + a * (d - c);
  }

  // The estimates of an index never increase from one column to the next.
  lemma EstimatesFall(rows: seq<Row>, nCol: nat, i: nat, j: nat)
    requires Sorted(rows, nCol) && 0 < |rows| && i <= j < nCol
    ensures 0 < Distinct(rows, |rows|, i) <= Distinct(rows, |rows|, j) <= |rows|
    ensures Estimate(|rows|, Distinct(rows, |rows|, j)) <= Estimate(|rows|, Distinct(rows, |rows|, i))
  {
    DistinctRange(rows, nCol, i);
    DistinctRange(rows, nCol, j);
    DistinctGrows(rows, nCol, |rows|, i, j);
    EstimateMonotone(|rows|, Distinct(rows, |rows|, i), Distinct(rows, |rows|, j));
  }

  lemma DistinctRange(rows: seq<Row>, nCol: nat, j: nat)
    requires Sorted(rows, nCol) && 0 < |rows| && j < nCol
    ensures 0 < Distinct(rows, |rows|, j) <= |rows|
  {
    LastRow(rows, nCol, |rows|, j);
    NDLtGrows(rows, nCol, |rows|, j, j);
  }

  // The rows whose first j+1 columns repeat those of an earlier row.
  ghost function Repeats(rows: seq<Row>, n: nat, j: nat): set<nat> {
    set k: nat | k < n && Repeated(rows, k, j)
  }

  ghost predicate Repeated(rows: seq<Row>, k: nat, j: nat) {
    exists x: nat {:trigger Agree(rows, x, k, j)} :: x < k && Agree(rows, x, k, j)
  }

  // Every row either shows a new prefix or repeats one.
  lemma {:induction false} DistinctCount(rows: seq<Row>, nCol: nat, j: nat, n: nat)
    requires Sorted(rows, nCol) && j < nCol && n <= |rows|
    ensures Distinct(rows, n, j) + |Repeats(rows, n, j)| == n
  {
    if n == 0 {
      assert Repeats(rows, 0, j) == {};
    } else {
      DistinctCount(rows, nCol, j, n - 1);
      LastRepeats(rows, n - 1, j);
      LastDistinct(rows, nCol, j, n - 1);
    }
  }

  lemma LastRepeats(rows: seq<Row>, last: nat, j: nat)
    ensures |Repeats(rows, last + 1, j)| == |Repeats(rows, last, j)| + if Repeated(rows, last, j) then 1 else 0
  {
    hide Repeated;
    assert Repeats(rows, last + 1, j) == Repeats(rows, last, j) + if Repeated(rows, last, j) then {last} else {};
  }

  lemma LastDistinct(rows: seq<Row>, nCol: nat, j: nat, last: nat)
    requires Sorted(rows, nCol) && j < nCol && last < |rows|
    ensures Distinct(rows, last + 1, j) == Distinct(rows, last, j) + if Repeated(rows, last, j) then 0 else 1
  {
    var p := Prefix(rows[last], j);
    forall t: nat | t < last
      ensures Prefix(rows[t], j) == p <==> Agree(rows, t, last, j)
    {
      PrefixIs(rows, nCol, t, last, j);
    }
    hide Agree, Prefix, Sorted;
    var rest, all := set t: nat | t < last :: Prefix(rows[t], j), set t: nat | t < last + 1 :: Prefix(rows[t], j);
    assert all == rest + {p};
    assert p in rest <==> Repeated(rows, last, j);
  }

  // The estimate for a prefix is 1 exactly if at most one row in eleven
  // repeats it.
  lemma {:induction false} EstimateOne(rows: seq<Row>, nCol: nat, j: nat)
    requires Sorted(rows, nCol) && 0 < |rows| && j < nCol
    ensures 0 < Distinct(rows, |rows|, j) <= |rows|
    ensures Estimate(|rows|, Distinct(rows, |rows|, j)) == 1 <==> 11 * |Repeats(rows, |rows|, j)| <= |rows|
  {
    hide Estimate, Distinct, Repeats;
    DistinctRange(rows, nCol, j);
    DistinctCount(rows, nCol, j, |rows|);
    EstimateIs(|rows|, Distinct(rows, |rows|, j));
  }
}
