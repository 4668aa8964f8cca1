/** The loop that ANALYZE runs over one index: read the rows in order and find
    where each row first differs from its predecessor. */
module IndexScan {
  import opened IndexRows
  import opened Estimates

  // What is known of an index. uniqNotNull: UNIQUE with all key columns NOT
  // NULL. withoutRowidPk: the index that is a WITHOUT ROWID table. desc: the
  // columns that are sorted in descending order.
  datatype Index = Index(
    nCol: nat, nKeyCol: nat, isUnique: bool, uniqNotNull: bool, withoutRowidPk: bool, desc: seq<bool>)
  {
    // Number of columns that are compared with the previous row.
    function NColTest(): nat
      requires 0 < nKeyCol <= nCol
    {
      if withoutRowidPk then nCol - 1
      else if uniqNotNull then nKeyCol - 1 else nCol - 1
    }

    // A single-column UNIQUE index is treated specially.
    predicate Shortcut()
      requires 0 < nKeyCol <= nCol
    {
      NColTest() == 1 && nKeyCol == 1 && isUnique
    }
  }

  predicate HasNull(r: Row, n: nat) {
    exists i :: 0 <= i < n && i < |r| && r[i].Null?
  }

  // The rows of such an index, in scan order. UNIQUE admits equal keys as long
  // as they contain a NULL.
  ghost predicate RowsOf(ix: Index, rows: seq<Row>) {
    && 0 < ix.nKeyCol <= ix.nCol == |ix.desc| && Sorted(rows, ix.nCol)
    && (forall x: nat, i: nat {:trigger rows[x][i]} :: x < |rows| && i < ix.nCol && rows[x][i].Null? ==>
          rows[x][i].last == ix.desc[i])
    && (ix.isUnique ==> forall x: nat, y: nat {:trigger SameKey(ix, rows, x, y)} ::
          x < y < |rows| && SameKey(ix, rows, x, y) ==> HasNull(rows[y], ix.nKeyCol))
    && (ix.uniqNotNull ==> ix.isUnique && forall x {:trigger rows[x]} :: 0 <= x < |rows| ==>
        !HasNull(rows[x], ix.nKeyCol))
  }

  predicate SameKey(ix: Index, rows: seq<Row>, x: nat, y: nat) {
    0 < ix.nKeyCol && Agree(rows, x, y, ix.nKeyCol - 1)
  }

  // Wherever two neighbours differ first, it is within the compared columns or
  // right after them.
  lemma {:induction false} ChangeTested(ix: Index, rows: seq<Row>, k: nat)
    requires RowsOf(ix, rows) && 0 < k < |rows|
    ensures Change(rows, k) <= ix.NColTest()
  {
    ChangeBound(rows, ix.nCol, k);
    if ix.uniqNotNull && SameKey(ix, rows, k - 1, k) {
      assert false;
    }
  }

  // The key of row k starts with a value.
  predicate HasValue(rows: seq<Row>, k: nat) { k < |rows| && |rows[k]| > 0 && rows[k][0].Val? }

  predicate ValueBefore(rows: seq<Row>, k: nat) { exists x: nat | x < k :: HasValue(rows, x) }

  // What the scan reports as the first column in which row k differs from its
  // predecessor: once the key of a single-column UNIQUE index has been a
  // value, rows are no longer compared.
  function Pushed(ix: Index, rows: seq<Row>, k: nat): nat
    requires 0 < ix.nKeyCol <= ix.nCol && k < |rows|
  {
    if ix.Shortcut() && ValueBefore(rows, k) then 0 else Change(rows, k)
  }

  // The key is a single descending column, the first row has a value, and two
  // rows at the end have none.
  predicate Blinded(ix: Index, rows: seq<Row>)
    requires 0 < ix.nKeyCol <= ix.nCol == |ix.desc|
  {
    ix.Shortcut() && ix.desc[0] && |rows| >= 3 && HasValue(rows, 0) && !HasValue(rows, |rows| - 2)
  }

  // NULLs are together: at the end in a descending first column, ...
  lemma NullsLast(ix: Index, rows: seq<Row>, x: nat, y: nat)
    requires RowsOf(ix, rows) && ix.desc[0] && x <= y < |rows| && !HasValue(rows, x)
    ensures !HasValue(rows, y)
  {
    if x < y { assert Precedes(rows, ix.nCol, x, y); }
  }

  // ... else at the start.
  lemma NullsFirst(ix: Index, rows: seq<Row>, x: nat, y: nat)
    requires RowsOf(ix, rows) && !ix.desc[0] && x <= y < |rows| && HasValue(rows, x)
    ensures HasValue(rows, y)
  {
    if x < y { assert Precedes(rows, ix.nCol, x, y); }
  }

  // Two neighbours agree on a single-column UNIQUE key only if it is NULL.
  lemma SameKeyIsNull(ix: Index, rows: seq<Row>, k: nat)
    requires RowsOf(ix, rows) && ix.Shortcut() && 0 < k < |rows|
    ensures Change(rows, k) == 0 <==> HasValue(rows, k - 1) || HasValue(rows, k)
  {
    if HasValue(rows, k - 1) || HasValue(rows, k) {
      if SameKey(ix, rows, k - 1, k) { assert false; }
    } else {
      assert rows[k - 1][0] == rows[k][0];
    }
  }

  // The scan is told the truth about every row, unless it is blinded.
  lemma {:induction false} PushedRight(ix: Index, rows: seq<Row>)
    requires RowsOf(ix, rows)
    ensures (forall k: nat {:trigger Pushed(ix, rows, k)} :: k < |rows| ==> Pushed(ix, rows, k) == Change(rows, k)) <==>
            !Blinded(ix, rows)
  {
    hide Sorted, Change, RowsOf;
    assert |ix.desc| == ix.nCol >= ix.nKeyCol > 0 by { KeyBounds(ix, rows); }
    if Blinded(ix, rows) {
      var last := |rows| - 1;
      NullsLast(ix, rows, last - 1, last);
      SameKeyIsNull(ix, rows, last);
      assert Pushed(ix, rows, last) != Change(rows, last);
    } else {
      forall k: nat | k < |rows|
        ensures Pushed(ix, rows, k) == Change(rows, k)
      {
        if ix.Shortcut() && ValueBefore(rows, k) { PushedKeyRight(ix, rows, k); }
      }
    }
  }

  lemma KeyBounds(ix: Index, rows: seq<Row>)
    requires RowsOf(ix, rows)
    ensures |ix.desc| == ix.nCol >= ix.nKeyCol > 0
    ensures forall x {:trigger rows[x]} :: 0 <= x < |rows| ==> |rows[x]| == ix.nCol
  {}

  lemma PushedKeyRight(ix: Index, rows: seq<Row>, k: nat)
    requires RowsOf(ix, rows) && !Blinded(ix, rows) && ix.Shortcut() && k < |rows| && ValueBefore(rows, k)
    ensures Change(rows, k) == 0
  {
    hide Sorted, Change, RowsOf;
    var x: nat :| x < k && HasValue(rows, x);
    assert |ix.desc| == ix.nCol >= ix.nKeyCol > 0 by { KeyBounds(ix, rows); }
    SameKeyIsNull(ix, rows, k);
    if !HasValue(rows, k - 1) {
      if ix.desc[0] {
        if !HasValue(rows, 0) { NullsLast(ix, rows, 0, x); assert false; }
        NullsLast(ix, rows, k - 1, |rows| - 2);
        assert false;
      } else {
        NullsFirst(ix, rows, x, k - 1);
        assert false;
      }
    }
  }

  // The rows as the accumulator is told of them: a blinded scan reports that
  // the key of every row is new. Only the order of ranks matters.
  function Seen(ix: Index, rows: seq<Row>): (seen: seq<Row>)
    requires 0 < ix.nKeyCol <= ix.nCol == |ix.desc|
    requires forall x {:trigger rows[x]} :: 0 <= x < |rows| ==> |rows[x]| == ix.nCol
    ensures |seen| == |rows| && (!Blinded(ix, rows) ==> seen == rows)
  {
    if Blinded(ix, rows) then seq(|rows|, k requires 0 <= k < |rows| => [Val(k)] + rows[k][1..]) else rows
  }

  lemma BlindedSeen(ix: Index, rows: seq<Row>)
    requires RowsOf(ix, rows) && Blinded(ix, rows)
    ensures Sorted(Seen(ix, rows), ix.nCol)
    ensures forall k: nat {:trigger Change(Seen(ix, rows), k)} :: k < |rows| ==> Change(Seen(ix, rows), k) == 0
    ensures forall x: nat, k: nat {:trigger Agree(Seen(ix, rows), x, k, 0)} :: x < k < |rows| ==>
        !Agree(Seen(ix, rows), x, k, 0)
  {
    var seen := Seen(ix, rows);
    forall x: nat, y: nat | x < y < |seen|
      ensures FirstDiff(seen[x], seen[y]) == 0 && Precedes(seen, ix.nCol, x, y)
    {
      DiffIs(seen[x], seen[y], 0);
    }
  }

  lemma {:induction false} SeenIs(ix: Index, rows: seq<Row>)
    requires RowsOf(ix, rows)
    ensures Sorted(Seen(ix, rows), ix.nCol)
    ensures forall k: nat {:trigger Pushed(ix, rows, k)} :: k < |rows| ==>
        Pushed(ix, rows, k) == Change(Seen(ix, rows), k)
  {
    hide Change, Sorted;
    if Blinded(ix, rows) {
      BlindedSeen(ix, rows);
      forall k: nat | k < |rows|
        ensures Pushed(ix, rows, k) == 0
      {
        if k == 0 { FirstChange(rows); } else { assert HasValue(rows, 0); }
      }
    } else {
      PushedRight(ix, rows);
      RowsSorted(ix, rows);
    }
  }

  lemma FirstChange(rows: seq<Row>)
    requires 0 < |rows|
    ensures Change(rows, 0) == 0
  {}

  // The registers of the scan.
  class Scanner {
    const ix: Index
    ghost const rows: seq<Row>
    var regChng: nat
    const regPrev: array<Cell>

    constructor (ix: Index, ghost rows: seq<Row>)
      requires RowsOf(ix, rows)
      ensures Ready(0) && this.ix == ix && this.rows == rows && fresh(regPrev)
    {
      this.ix, this.rows, regChng := ix, rows, 0;
      regPrev := new Cell[ix.NColTest()](_ => Null(false));
    }

    // Before row k is read.
    ghost predicate Ready(k: nat)
      reads this, regPrev
    {
      && RowsOf(ix, rows) && k <= |rows| && regPrev.Length == ix.NColTest()
      && (k == 0 || regPrev.Length == 0 ==> regChng == 0)
      && (0 < k ==>
            if ix.Shortcut() && ValueBefore(rows, k) then
              regChng == 0 && regPrev[0].Val?
            else
              forall i {:trigger regPrev[i]} :: 0 <= i < regPrev.Length ==> regPrev[i] == rows[k - 1][i])
    }

    // next_row: compare with the previous row, column by column.
    method Compare(row: Row) returns (from: nat)
      requires regPrev.Length <= |row|
      modifies this`regChng
      ensures from == regChng <= regPrev.Length
      ensures forall i :: 0 <= i < from ==> row[i] == regPrev[i]
      ensures from < regPrev.Length ==> row[from] != regPrev[from]
    {
      from := 0;
      regChng := 0;
      while from < regPrev.Length && row[from] == regPrev[from]
        invariant 0 <= from == regChng <= regPrev.Length
        invariant forall i :: 0 <= i < from ==> row[i] == regPrev[i]
      {
        from := from + 1;
        regChng := from;
      }
    }

    // chng_addr_N: remember the columns from N on.
    method Remember(row: Row, from: nat)
      requires from <= regPrev.Length <= |row|
      modifies regPrev
      ensures forall i :: 0 <= i < regPrev.Length ==> regPrev[i] == if i < from then old(regPrev[i]) else row[i]
    {
      var i := from;
      while i < regPrev.Length
        invariant from <= i <= regPrev.Length
        invariant forall x :: 0 <= x < regPrev.Length ==> regPrev[x] == if from <= x < i then row[x]
            else old(regPrev[x])
      {
        regPrev[i] := row[i];
        i := i + 1;
      }
    }

    // Read row k: find the first compared column in which it differs from the
    // previous row and remember its columns from there on.
    method Step(row: Row, k: nat)
      requires Ready(k) && k < |rows| && row == rows[k]
      modifies this`regChng, regPrev
      ensures Ready(k + 1) && regChng == Pushed(ix, rows, k)
    {
      hide Sorted, Agree, SameKey, HasNull;
      assert |row| == ix.nCol by { RowWidth(ix, rows, k); }
      if k > 0 {
        RowWidth(ix, rows, k - 1);
        ChangeTested(ix, rows, k);
      }
      ValueNext(k);
      if regPrev.Length > 0 {
        var from := 0;
        if k > 0 {
          if ix.Shortcut() && regPrev[0].Val? {
            from := regPrev.Length;
          } else {
            from := Compare(row);
            DiffFrom(rows[k - 1], rows[k], from, regPrev.Length);
          }
        }
        Remember(row, from);
      }
    }

    lemma ValueNext(k: nat)
      ensures ValueBefore(rows, k + 1) <==> ValueBefore(rows, k) || HasValue(rows, k)
      ensures k > 0 && HasValue(rows, k - 1) ==> ValueBefore(rows, k)
    {}
  }

  lemma RowsSorted(ix: Index, rows: seq<Row>)
    requires RowsOf(ix, rows)
    ensures Sorted(rows, ix.nCol) && 0 < ix.nKeyCol <= ix.nCol
  {}

  lemma RowWidth(ix: Index, rows: seq<Row>, k: nat)
    requires RowsOf(ix, rows) && k < |rows|
    ensures |rows[k]| == ix.nCol
  {}

  lemma DiffFrom(x: Row, y: Row, from: nat, n: nat)
    requires |x| == |y| && from <= n <= |x| && FirstDiff(x, y) <= n
    requires forall i :: 0 <= i < from ==> x[i] == y[i]
    requires from < n ==> x[from] != y[from]
    ensures FirstDiff(x, y) == from
  {
    if from < n { DiffIs(x, y, from); }
  }

  // ----- The last estimate of a UNIQUE index -----------------------------------

  // The rows whose key contains a NULL and repeats the key of an earlier row.
  ghost function NullRepeats(ix: Index, rows: seq<Row>): set<nat> {
    set k: nat | k < |rows| && HasNull(rows[k], ix.nKeyCol) && RepeatsKey(ix, rows, k)
  }

  ghost predicate RepeatsKey(ix: Index, rows: seq<Row>, k: nat) {
    exists x: nat {:trigger SameKey(ix, rows, x, k)} :: x < k && SameKey(ix, rows, x, k)
  }

  // The last estimate of a UNIQUE index is not always 1: it is if at most one
  // row in eleven has a NULL in its key and repeats an earlier key, and it is
  // if the scan was blinded.
  lemma {:induction false} UniqueLastIsOne(ix: Index, rows: seq<Row>)
    requires RowsOf(ix, rows) && ix.isUnique && rows != []
    ensures var seen := Seen(ix, rows); var j := ix.nKeyCol - 1;
      && 0 < Distinct(seen, |rows|, j) <= |rows|
      && (Estimate(|rows|, Distinct(seen, |rows|, j)) == 1 <==>
            Blinded(ix, rows) || 11 * |NullRepeats(ix, rows)| <= |rows|)
  {
    hide Estimate, Distinct, Sorted, NullRepeats, Repeats;
    KeyBounds(ix, rows);
    var seen, j := Seen(ix, rows), ix.nKeyCol - 1;
    SeenIs(ix, rows);
    EstimateOne(seen, ix.nCol, j);
    if Blinded(ix, rows) { BlindedRepeats(ix, rows); } else { OnlyNullsRepeat(ix, rows); }
  }

  lemma OnlyNullsRepeat(ix: Index, rows: seq<Row>)
    requires RowsOf(ix, rows) && ix.isUnique
    ensures Repeats(rows, |rows|, ix.nKeyCol - 1) == NullRepeats(ix, rows)
  {
    hide Sorted, HasNull;
    forall k: nat | k < |rows|
      ensures Repeated(rows, k, ix.nKeyCol - 1) <==> HasNull(rows[k], ix.nKeyCol) && RepeatsKey(ix, rows, k)
    {
      if Repeated(rows, k, ix.nKeyCol - 1) {
        var x: nat :| x < k && Agree(rows, x, k, ix.nKeyCol - 1);
        assert SameKey(ix, rows, x, k);
      }
    }
  }

  lemma BlindedRepeats(ix: Index, rows: seq<Row>)
    requires RowsOf(ix, rows) && Blinded(ix, rows)
    ensures Repeats(Seen(ix, rows), |rows|, 0) == {}
  {
    BlindedSeen(ix, rows);
  }

  // With NOT NULL on all key columns the last estimate is 1.
  lemma {:induction false} NotNullLastIsOne(ix: Index, rows: seq<Row>)
    requires RowsOf(ix, rows) && ix.uniqNotNull && rows != []
    ensures Seen(ix, rows) == rows && Distinct(rows, |rows|, ix.nKeyCol - 1) == |rows|
    ensures Estimate(|rows|, |rows|) == 1
  {
    hide Sorted, Distinct, Estimate;
    KeyBounds(ix, rows);
    assert NullRepeats(ix, rows) == {};
    OnlyNullsRepeat(ix, rows);
    RowsSorted(ix, rows);
    DistinctCount(rows, ix.nCol, ix.nKeyCol - 1, |rows|);
    EstimateOne(rows, ix.nCol, ix.nKeyCol - 1);
    NotBlinded(ix, rows);
  }

  lemma NotBlinded(ix: Index, rows: seq<Row>)
    requires RowsOf(ix, rows) && ix.uniqNotNull
    ensures !Blinded(ix, rows)
  {
    hide Sorted;
    KeyBounds(ix, rows);
    var x := |rows| - 2;
    assert x >= 0 ==> !HasNull(rows[x], ix.nKeyCol);
  }

  // A blinded scan gets the number of distinct keys wrong.
  lemma {:induction false} KeysCountedRight(ix: Index, rows: seq<Row>)
    requires RowsOf(ix, rows) && rows != []
    ensures Distinct(Seen(ix, rows), |rows|, 0) == Distinct(rows, |rows|, 0) <==> !Blinded(ix, rows)
  {
    hide Sorted, Distinct, Change, Agree;
    KeyBounds(ix, rows);
    if Blinded(ix, rows) {
      BlindedRepeats(ix, rows);
      BlindedSeen(ix, rows);
      DistinctCount(Seen(ix, rows), ix.nCol, 0, |rows|);
      RowsSorted(ix, rows);
      DistinctCount(rows, ix.nCol, 0, |rows|);
      var last := |rows| - 1;
      assert last in Repeats(rows, |rows|, 0) by {
        NullsLast(ix, rows, last - 1, last);
        SameKeyIsNull(ix, rows, last);
        assert Agree(rows, last - 1, last, 0) by { NotFirst(rows, last); }
      }
    }
  }

  lemma NotFirst(rows: seq<Row>, k: nat)
    requires 0 < k < |rows| && Change(rows, k) != 0
    ensures Agree(rows, k - 1, k, 0)
  {}

  // UNIQUE (x) with two rows where x is NULL: half the rows repeat a key, and
  // the last estimate is 2.
  lemma UniqueEndsInTwo()
    ensures var ix := Index(2, 1, true, false, false, [false, false]);
      var rows := [[Null(false), Val(1)], [Null(false), Val(2)]];
      RowsOf(ix, rows) && Seen(ix, rows) == rows && Distinct(rows, 2, 0) == 1 && Estimate(2, 1) == 2
  {
    var rows := [[Null(false), Val(1)], [Null(false), Val(2)]];
    DiffIs(rows[0], rows[1], 1);
    assert Precedes(rows, 2, 0, 1);
    assert (set t: nat | t < 2 :: Prefix(rows[t], 0)) == {[Null(false)]} by {
      assert Prefix(rows[0], 0) == Prefix(rows[1], 0) == [Null(false)];
    }
  }

  // UNIQUE (x DESC) with a value and two NULLs: rows 1 and 2 share their key,
  // but the scan reports a new one.
  lemma DescendingBlinds()
    ensures var ix := Index(2, 1, true, false, false, [true, false]);
      var rows := [[Val(1), Val(1)], [Null(true), Val(2)], [Null(true), Val(3)]];
      RowsOf(ix, rows) && Blinded(ix, rows) && Pushed(ix, rows, 2) == 0 && Change(rows, 2) == 1
  {
    var rows := [[Val(1), Val(1)], [Null(true), Val(2)], [Null(true), Val(3)]];
    DiffIs(rows[0], rows[1], 0);
    DiffIs(rows[0], rows[2], 0);
    DiffIs(rows[1], rows[2], 1);
    assert Precedes(rows, 2, 0, 1) && Precedes(rows, 2, 0, 2) && Precedes(rows, 2, 1, 2);
    assert HasValue(rows, 0);
  }
}
