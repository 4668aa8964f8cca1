/** The rows of an index in scan order, and what the counters of ANALYZE mean:
    cardinalities of sets of rows, defined without reference to any scan. */
module IndexRows {

  // A column value by its place in the scan. NULL comes before the values of
  // an ascending column and after those of a descending one (last); a value
  // is represented by its rank under the collation of the column, counted in
  // the column's direction.
  datatype Cell = Null(last: bool) | Val(rank: int)

  type Row = seq<Cell>

  predicate CellLess(x: Cell, y: Cell) {
    match (x, y)
    case (Null(a), Null(b)) => !a && b
    case (Null(a), Val(_)) => !a
    case (Val(_), Null(b)) => b
    case (Val(a), Val(b)) => a < b
  }

  // Length of the longest common prefix.
  function FirstDiff<T(==)>(a: seq<T>, b: seq<T>): (d: nat)
    ensures d <= |a| && d <= |b|
    ensures forall c :: 0 <= c < d ==> a[c] == b[c]
    ensures d < |a| && d < |b| ==> a[d] != b[d]
    decreases |a|
  {
    if a == [] || b == [] || a[0] != b[0] then 0
    else
      var d := FirstDiff(a[1..], b[1..]);
      assert forall c :: 0 < c < d + 1 ==> a[c] == a[1..][c - 1] == b[1..][c - 1] == b[c];
      assert d + 1 < |a| ==> a[d + 1] == a[1..][d];
      assert d + 1 < |b| ==> b[d + 1] == b[1..][d];
      d + 1
  }

  // Rows x and y agree on columns 0..j.
  predicate Agree(rows: seq<Row>, x: nat, y: nat, j: nat) {
    x < |rows| && y < |rows| && FirstDiff(rows[x], rows[y]) > j
  }

  // The first j+1 columns of row x sort strictly before those of row y.
  predicate Before(rows: seq<Row>, x: nat, y: nat, j: nat) {
    x < |rows| && y < |rows| &&
    var d := FirstDiff(rows[x], rows[y]);
    d <= j && d < |rows[x]| && d < |rows[y]| && CellLess(rows[x][d], rows[y][d])
  }

  // Row x sorts strictly before row y on all nCol columns.
  predicate Precedes(rows: seq<Row>, nCol: nat, x: nat, y: nat) {
    nCol > 0 && Before(rows, x, y, nCol - 1)
  }

  // Scan order: every row has nCol columns and the rows strictly ascend.
  ghost predicate Sorted(rows: seq<Row>, nCol: nat) {
    && nCol > 0
    && (forall x {:trigger rows[x]} :: 0 <= x < |rows| ==> |rows[x]| == nCol)
    && (forall x: nat, y: nat :: x < y < |rows| ==> Precedes(rows, nCol, x, y))
  }

  // Leftmost column in which row n differs from its predecessor.
  function Change(rows: seq<Row>, n: nat): nat
    requires n < |rows|
  {
    if n == 0 then 0 else FirstDiff(rows[n - 1], rows[n])
  }

  // ----- The meaning of the counters, over the first n rows -----------------

  function Prefix(r: Row, j: nat): Row {
    if j < |r| then r[..j + 1] else r
  }

  ghost function SameGroup(rows: seq<Row>, n: nat, k: nat, j: nat): set<nat> {
    set t: nat | t < n && Agree(rows, t, k, j)
  }

  ghost function RowsBelow(rows: seq<Row>, n: nat, k: nat, j: nat): set<nat> {
    set t: nat | t < n && Before(rows, t, k, j)
  }

  ghost function PrefixesBelow(rows: seq<Row>, n: nat, k: nat, j: nat): set<Row> {
    set t: nat | t < n && Before(rows, t, k, j) :: Prefix(rows[t], j)
  }

  // Number of rows whose first j+1 columns equal those of row k.
  ghost function NEq(rows: seq<Row>, n: nat, k: nat, j: nat): nat { |SameGroup(rows, n, k, j)| }

  // Number of rows whose first j+1 columns are less than those of row k.
  ghost function NLt(rows: seq<Row>, n: nat, k: nat, j: nat): nat { |RowsBelow(rows, n, k, j)| }

  // Number of distinct (j+1)-column prefixes less than that of row k.
  ghost function NDLt(rows: seq<Row>, n: nat, k: nat, j: nat): nat { |PrefixesBelow(rows, n, k, j)| }

  // Number of distinct (j+1)-column prefixes.
  ghost function Distinct(rows: seq<Row>, n: nat, j: nat): nat
    requires n <= |rows|
  {
    |set t: nat | t < n :: Prefix(rows[t], j)|
  }

  // ----- Order facts ---------------------------------------------------------

  lemma DiffIs<T>(a: seq<T>, b: seq<T>, d: nat)
    requires d <= |a| && d <= |b|
    requires forall c :: 0 <= c < d ==> a[c] == b[c]
    requires d == |a| || d == |b| || a[d] != b[d]
    ensures FirstDiff(a, b) == d
  {
    var e := FirstDiff(a, b);
    if e < d { assert false; }
    if d < e { assert false; }
  }

  lemma DiffSymmetric<T>(a: seq<T>, b: seq<T>)
    ensures FirstDiff(a, b) == FirstDiff(b, a)
  {
    DiffIs(b, a, FirstDiff(a, b));
  }

  lemma DiffSelf<T>(a: seq<T>)
    ensures FirstDiff(a, a) == |a|
  {
    DiffIs(a, a, |a|);
  }

  // Along an ascending chain the common prefix of the ends is the shorter of
  // the two inner ones.
  lemma DiffChain(rows: seq<Row>, nCol: nat, x: nat, y: nat, z: nat)
    requires Sorted(rows, nCol) && x < y < z < |rows|
    ensures FirstDiff(rows[x], rows[z]) ==
            if FirstDiff(rows[x], rows[y]) < FirstDiff(rows[y], rows[z])
            then FirstDiff(rows[x], rows[y]) else FirstDiff(rows[y], rows[z])
  {
    assert Precedes(rows, nCol, x, y) && Precedes(rows, nCol, y, z);
    var d, e := FirstDiff(rows[x], rows[y]), FirstDiff(rows[y], rows[z]);
    DiffIs(rows[x], rows[z], if d < e then d else e);
  }

  // Agreement on a prefix is an equivalence, and its classes are intervals.
  lemma AgreeRefl(rows: seq<Row>, nCol: nat, x: nat, j: nat)
    requires Sorted(rows, nCol) && x < |rows|
    ensures Agree(rows, x, x, j) <==> j < nCol
  {
    DiffSelf(rows[x]);
  }

  lemma AgreeSym(rows: seq<Row>, x: nat, y: nat, j: nat)
    ensures Agree(rows, x, y, j) <==> Agree(rows, y, x, j)
  {
    if x < |rows| && y < |rows| { DiffSymmetric(rows[x], rows[y]); }
  }

  lemma AgreeBetween(rows: seq<Row>, nCol: nat, x: nat, y: nat, z: nat, j: nat)
    requires Sorted(rows, nCol) && x <= y <= z < |rows|
    ensures Agree(rows, x, z, j) <==> Agree(rows, x, y, j) && Agree(rows, y, z, j)
  {
    if x < y < z {
      DiffChain(rows, nCol, x, y, z);
    } else {
      AgreeRefl(rows, nCol, y, j);
      assert FirstDiff(rows[x], rows[z]) <= nCol;
    }
  }

  lemma AgreeTrans(rows: seq<Row>, x: nat, y: nat, z: nat, j: nat)
    requires Agree(rows, x, y, j) && Agree(rows, y, z, j)
    ensures Agree(rows, x, z, j)
  {
  }

  // Distinct rows differ somewhere, so a change column is a column.
  lemma ChangeBound(rows: seq<Row>, nCol: nat, n: nat)
    requires Sorted(rows, nCol) && n < |rows|
    ensures Change(rows, n) < nCol
  {
    if n > 0 { AgreeAll(rows, nCol, n - 1, n); }
  }

  // ... and only equal rows agree everywhere.
  lemma AgreeAll(rows: seq<Row>, nCol: nat, x: nat, y: nat)
    requires Sorted(rows, nCol) && x < |rows| && y < |rows|
    ensures Agree(rows, x, y, nCol - 1) <==> x == y
  {
    AgreeRefl(rows, nCol, x, nCol - 1);
    AgreeSym(rows, x, y, nCol - 1);
    if x < y { assert Precedes(rows, nCol, x, y); }
    if y < x { assert Precedes(rows, nCol, y, x); }
  }

  // In scan order, sorting before means coming earlier in another group.
  lemma BeforeIs(rows: seq<Row>, nCol: nat, x: nat, y: nat, j: nat)
    requires Sorted(rows, nCol) && x < |rows| && y < |rows|
    ensures Before(rows, x, y, j) <==> x < y && !Agree(rows, x, y, j)
  {
    DiffSymmetric(rows[x], rows[y]);
    DiffSelf(rows[x]);
    if x < y { assert Precedes(rows, nCol, x, y); }
    if y < x { assert Precedes(rows, nCol, y, x); }
  }

  lemma PrefixIs(rows: seq<Row>, nCol: nat, x: nat, y: nat, j: nat)
    requires Sorted(rows, nCol) && x < |rows| && y < |rows| && j < nCol
    ensures Prefix(rows[x], j) == Prefix(rows[y], j) <==> Agree(rows, x, y, j)
  {
    var d := FirstDiff(rows[x], rows[y]);
    if d <= j {
      assert Prefix(rows[x], j)[d] != Prefix(rows[y], j)[d];
    }
  }

  // ----- Cardinality helpers ---------------------------------------------------

  ghost function Upto(n: nat): (s: set<nat>)
    ensures forall t: nat :: t in s <==> t < n
    ensures |s| == n
  {
    if n == 0 then {} else Upto(n - 1) + {n - 1}
  }

  lemma SubsetCard<T>(x: set<T>, y: set<T>)
    requires x <= y
    ensures |x| <= |y|
  {
    if x != {} {
      var e :| e in x;
      SubsetCard(x - {e}, y - {e});
    }
  }

  // ----- How the counters move when row n is read -------------------------------

  // An earlier row keeps its nLt and nDLt for ever; its nEq grows exactly
  // while its group is still open.
  lemma {:induction false} EarlierRow(rows: seq<Row>, nCol: nat, n: nat, k: nat, j: nat)
    requires Sorted(rows, nCol) && k < n < |rows|
    ensures NLt(rows, n + 1, k, j) == NLt(rows, n, k, j)
    ensures NDLt(rows, n + 1, k, j) == NDLt(rows, n, k, j)
    ensures NEq(rows, n + 1, k, j) == NEq(rows, n, k, j) + if Agree(rows, k, n, j) then 1 else 0
  {
    BeforeIs(rows, nCol, n, k, j);
    AgreeSym(rows, n, k, j);
    assert RowsBelow(rows, n + 1, k, j) == RowsBelow(rows, n, k, j);
    assert PrefixesBelow(rows, n + 1, k, j) == PrefixesBelow(rows, n, k, j);
    assert SameGroup(rows, n + 1, k, j) == SameGroup(rows, n, k, j) + if Agree(rows, n, k, j) then {n} else {};
  }

  // Row n on columns where it agrees with its predecessor.
  lemma {:induction false} NextRowSame(rows: seq<Row>, nCol: nat, n: nat, j: nat)
    requires Sorted(rows, nCol) && 0 < n < |rows| && j < Change(rows, n)
    ensures NEq(rows, n + 1, n, j) == NEq(rows, n, n - 1, j) + 1
    ensures NLt(rows, n + 1, n, j) == NLt(rows, n, n - 1, j)
    ensures NDLt(rows, n + 1, n, j) == NDLt(rows, n, n - 1, j)
  {
    forall t: nat | t < n
      ensures Agree(rows, t, n, j) <==> Agree(rows, t, n - 1, j)
      ensures Before(rows, t, n, j) <==> Before(rows, t, n - 1, j)
    {
      AgreeBetween(rows, nCol, t, n - 1, n, j);
      BeforeIs(rows, nCol, t, n, j);
      BeforeIs(rows, nCol, t, n - 1, j);
      AgreeRefl(rows, nCol, n - 1, j);
    }
    AgreeRefl(rows, nCol, n, j);
    BeforeIs(rows, nCol, n, n, j);
    assert SameGroup(rows, n + 1, n, j) == SameGroup(rows, n, n - 1, j) + {n};
    assert RowsBelow(rows, n + 1, n, j) == RowsBelow(rows, n, n - 1, j);
    assert PrefixesBelow(rows, n + 1, n, j) == PrefixesBelow(rows, n, n - 1, j);
  }

  // Row n on columns where it opens a new group.
  lemma {:induction false} NextRowNew(rows: seq<Row>, nCol: nat, n: nat, j: nat)
    requires Sorted(rows, nCol) && 0 < n < |rows| && Change(rows, n) <= j < nCol
    ensures NEq(rows, n + 1, n, j) == 1
    ensures NLt(rows, n + 1, n, j) == NLt(rows, n, n - 1, j) + NEq(rows, n, n - 1, j) == n
    ensures NDLt(rows, n + 1, n, j) == NDLt(rows, n, n - 1, j) + 1
  {
    forall t: nat | t < n
      ensures !Agree(rows, t, n, j) && Before(rows, t, n, j)
    {
      AgreeBetween(rows, nCol, t, n - 1, n, j);
      BeforeIs(rows, nCol, t, n, j);
    }
    AgreeRefl(rows, nCol, n, j);
    BeforeIs(rows, nCol, n, n, j);
    assert NEq(rows, n + 1, n, j) == 1 && NLt(rows, n + 1, n, j) == n
        && NDLt(rows, n + 1, n, j) == Distinct(rows, n, j) by {
      hide Before, Agree, Sorted, Prefix;
      AllBelow(rows, n, j);
    }
    hide *;
    LastRow(rows, nCol, n, j);
  }

  lemma AllBelow(rows: seq<Row>, n: nat, j: nat)
    requires n < |rows| && Agree(rows, n, n, j) && !Before(rows, n, n, j)
    requires forall t: nat | t < n :: !Agree(rows, t, n, j) && Before(rows, t, n, j)
    ensures NEq(rows, n + 1, n, j) == 1 && NLt(rows, n + 1, n, j) == n
        && NDLt(rows, n + 1, n, j) == Distinct(rows, n, j)
  {
    hide Agree, Before, Prefix, PrefixesBelow, Distinct, NDLt;
    assert SameGroup(rows, n + 1, n, j) == {n};
    assert RowsBelow(rows, n + 1, n, j) == Upto(n);
    AllPrefixesBelow(rows, n, j);
  }

  lemma AllPrefixesBelow(rows: seq<Row>, n: nat, j: nat)
    requires n < |rows| && !Before(rows, n, n, j) && forall t: nat | t < n :: Before(rows, t, n, j)
    ensures NDLt(rows, n + 1, n, j) == Distinct(rows, n, j)
  {
    hide Before, Prefix;
    assert PrefixesBelow(rows, n + 1, n, j) == set t: nat | t < n :: Prefix(rows[t], j);
  }

  lemma FirstRow(rows: seq<Row>, nCol: nat, j: nat)
    requires Sorted(rows, nCol) && 0 < |rows| && j < nCol
    ensures NEq(rows, 1, 0, j) == 1 && NLt(rows, 1, 0, j) == 0 && NDLt(rows, 1, 0, j) == 0
  {
    AgreeRefl(rows, nCol, 0, j);
    BeforeIs(rows, nCol, 0, 0, j);
    assert SameGroup(rows, 1, 0, j) == {0};
    assert RowsBelow(rows, 1, 0, j) == {};
    assert PrefixesBelow(rows, 1, 0, j) == {};
  }

  // For the last row read, below and equal make up everything read so far,
  // and the distinct prefixes are those below plus its own.
  lemma {:induction false} LastRow(rows: seq<Row>, nCol: nat, n: nat, j: nat)
    requires Sorted(rows, nCol) && 0 < n <= |rows| && j < nCol
    ensures NLt(rows, n, n - 1, j) + NEq(rows, n, n - 1, j) == n
    ensures NDLt(rows, n, n - 1, j) + 1 == Distinct(rows, n, j)
  {
    var last := n - 1;
    forall t: nat | t < n
      ensures Before(rows, t, last, j) <==> !Agree(rows, t, last, j)
    {
      BeforeIs(rows, nCol, t, last, j);
      AgreeRefl(rows, nCol, last, j);
    }
    assert NLt(rows, n, last, j) + NEq(rows, n, last, j) == n by {
      hide Before, Agree, Sorted, Distinct, NDLt;
      TwoParts(RowsBelow(rows, n, last, j), SameGroup(rows, n, last, j), n);
    }
    LastPrefix(rows, nCol, n, j);
  }

  lemma TwoParts(a: set<nat>, b: set<nat>, n: nat)
    requires forall t: nat :: t in a || t in b <==> t < n
    requires forall t: nat :: t in a ==> t !in b
    ensures |a| + |b| == n
  {
    assert a + b == Upto(n);
    assert a !! b;
  }

  lemma {:induction false} LastPrefix(rows: seq<Row>, nCol: nat, n: nat, j: nat)
    requires Sorted(rows, nCol) && 0 < n <= |rows| && j < nCol
    ensures NDLt(rows, n, n - 1, j) + 1 == Distinct(rows, n, j)
  {
    var p := Prefix(rows[n - 1], j);
    forall t: nat | t < n
      ensures Before(rows, t, n - 1, j) <==> Prefix(rows[t], j) != p
    {
      BeforeIs(rows, nCol, t, n - 1, j);
      AgreeRefl(rows, nCol, n - 1, j);
      PrefixIs(rows, nCol, t, n - 1, j);
    }
    var below, all := PrefixesBelow(rows, n, n - 1, j), set t: nat | t < n :: Prefix(rows[t], j);
    assert p !in below;
    assert all == below + {p};
  }

  // ----- Comparing groups -----------------------------------------------------

  // A longer prefix describes a smaller group.
  lemma NEqShrinks(rows: seq<Row>, n: nat, k: nat, i: nat, j: nat)
    requires i <= j
    ensures NEq(rows, n, k, j) <= NEq(rows, n, k, i)
  {
    SubsetCard(SameGroup(rows, n, k, j), SameGroup(rows, n, k, i));
  }

  lemma NEqSame(rows: seq<Row>, n: nat, x: nat, y: nat, j: nat)
    requires Agree(rows, x, y, j)
    ensures NEq(rows, n, x, j) == NEq(rows, n, y, j)
  {
    forall t: nat
      ensures Agree(rows, t, x, j) <==> Agree(rows, t, y, j)
    {
      if Agree(rows, t, x, j) { AgreeTrans(rows, t, x, y, j); }
      AgreeSym(rows, x, y, j);
      if Agree(rows, t, y, j) { AgreeTrans(rows, t, y, x, j); }
    }
    assert SameGroup(rows, n, x, j) == SameGroup(rows, n, y, j);
  }

  // On all columns a group is a single row and nLt is the row's position.
  lemma WholeRow(rows: seq<Row>, nCol: nat, n: nat, k: nat)
    requires Sorted(rows, nCol) && k < n <= |rows|
    ensures NEq(rows, n, k, nCol - 1) == 1
    ensures NLt(rows, n, k, nCol - 1) == k
  {
    var last := nCol - 1;
    forall t: nat | t < n
      ensures Agree(rows, t, k, last) <==> t == k
      ensures Before(rows, t, k, last) <==> t < k
    {
      AgreeAll(rows, nCol, t, k);
      BeforeIs(rows, nCol, t, k, last);
    }
    assert SameGroup(rows, n, k, nCol - 1) == {k};
    assert RowsBelow(rows, n, k, nCol - 1) == Upto(k);
  }

  lemma NEqPositive(rows: seq<Row>, nCol: nat, n: nat, k: nat, j: nat)
    requires Sorted(rows, nCol) && k < n <= |rows| && j < nCol
    ensures NEq(rows, n, k, j) >= 1
  {
    AgreeRefl(rows, nCol, k, j);
    assert k in SameGroup(rows, n, k, j);
  }

  // Distinct prefixes only get more numerous as columns are added.
  lemma DistinctGrows(rows: seq<Row>, nCol: nat, n: nat, i: nat, j: nat)
    requires Sorted(rows, nCol) && 0 < n <= |rows| && i <= j < nCol
    ensures Distinct(rows, n, i) <= Distinct(rows, n, j)
  {
    LastRow(rows, nCol, n, i);
    LastRow(rows, nCol, n, j);
    NDLtGrows(rows, nCol, n, i, j);
  }

  lemma {:induction false} NDLtGrows(rows: seq<Row>, nCol: nat, n: nat, i: nat, j: nat)
    requires Sorted(rows, nCol) && 0 < n <= |rows| && i <= j < nCol
    ensures NDLt(rows, n, n - 1, i) <= NDLt(rows, n, n - 1, j)
    ensures NDLt(rows, n, n - 1, i) < n
    decreases n
  {
    hide NDLt, Change, Sorted;
    if n == 1 {
      FirstRow(rows, nCol, i);
    } else {
      NDLtGrows(rows, nCol, n - 1, i, j);
      if i < Change(rows, n - 1) { NextRowSame(rows, nCol, n - 1, i); } else { NextRowNew(rows, nCol, n - 1, i); }
      if j < Change(rows, n - 1) { NextRowSame(rows, nCol, n - 1, j); } else { NextRowNew(rows, nCol, n - 1, j); }
    }
  }
}
