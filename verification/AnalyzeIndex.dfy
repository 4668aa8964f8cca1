/** ANALYZE for one index: the scan and the accumulator together, and what the
    statistics they produce say about the index. */
module AnalyzeIndex {
  import opened Arith
  import opened IndexRows
  import opened Reservoir
  import opened StatInvariants
  import opened StatSteps
  import opened Estimates
  import opened Options
  import opened Accumulator
  import opened IndexScan

  // One row of sqlite_stat4, the sampled row given by its rowid.
  datatype Stat4 = Stat4(rowid: int, nEq: seq<nat>, nLt: seq<nat>, nDLt: seq<nat>)

  function Out(s: Sample): Stat4 {
    Stat4(s.rowid, s.anEq, s.anLt, s.anDLt)
  }

  // s describes row k of the index: its rowid, and for every column the rows
  // equal to, the rows below and the distinct prefixes below its prefix.
  ghost predicate Describes(rows: seq<Row>, rowids: seq<int>, nCol: nat, s: Stat4, k: nat) {
    && k < |rows| && k < |rowids| && s.rowid == rowids[k]
    && |s.nEq| == |s.nLt| == |s.nDLt| == nCol
    && forall j {:trigger s.nEq[j]} :: 0 <= j < nCol ==>
         && s.nEq[j] == NEq(rows, |rows|, k, j) > 0
         && s.nLt[j] == NLt(rows, |rows|, k, j)
         && s.nDLt[j] == NDLt(rows, |rows|, k, j)
  }

  // The finished reservoir, sample by sample: at[x] is the row of sample x and
  // col[x] the column of the group it was kept for, if not taken periodically.
  // Periodic samples are taken as often as a third of the reservoir allows.
  ghost predicate Report(sc: Scan, stat4: seq<Stat4>, at: seq<nat>, col: seq<Option<nat>>) {
    && |stat4| == |at| == |col| <= sc.mxSample
    && (forall x {:trigger stat4[x]} :: 0 <= x < |stat4| ==> Describes(sc.rows, sc.rowids, sc.nCol, stat4[x], at[x]))
    && (forall x, y :: 0 <= x < y < |at| ==> at[x] < at[y])
    && (forall x {:trigger col[x]} :: 0 <= x < |col| && col[x].Some? ==> col[x].value < sc.nCol - 1)
    && (forall x {:trigger col[x]} :: 0 <= x < |col| && col[x].None? ==> Multiple(at[x] + 1, sc.nPSample))
    && (forall k: nat {:trigger Multiple(k + 1, sc.nPSample)} ::
          k < |sc.rows| && Multiple(k + 1, sc.nPSample) ==> TakenWhenDue(at, col, k))
    && Nones(col) <= sc.mxSample / 3 && ClosestSpacing(sc.nPSample, |sc.rows|, sc.mxSample)
    && (forall k: nat, c: nat {:trigger Represented(sc, stat4, at, col, k, c)} ::
          k < |sc.rows| && c < sc.nCol - 1 ==> Represented(sc, stat4, at, col, k, c))
  }

  // The group of row k at column c has a sample, or the reservoir is full of
  // samples kept for groups at least as large.
  ghost predicate Represented(sc: Scan, stat4: seq<Stat4>, at: seq<nat>, col: seq<Option<nat>>, k: nat, c: nat)
    requires |stat4| == |at| == |col|
  {
    || (exists x :: 0 <= x < |at| && Agree(sc.rows, at[x], k, c))
    || (|at| == sc.mxSample && forall x {:trigger col[x]} :: 0 <= x < |at| && col[x].Some? ==>
          col[x].value < |stat4[x].nEq| && NEq(sc.rows, |sc.rows|, k, c) <= stat4[x].nEq[col[x].value])
  }

  // Row k was taken because it was due.
  ghost predicate TakenWhenDue(at: seq<nat>, col: seq<Option<nat>>, k: nat) {
    exists x {:trigger at[x]} :: 0 <= x < |at| && x < |col| && at[x] == k && col[x].None?
  }

  function Nones(col: seq<Option<nat>>): nat {
    if col == [] then 0 else Nones(col[..|col| - 1]) + if col[|col| - 1].None? then 1 else 0
  }

  lemma {:induction false} NonesOf(a: seq<Sample>)
    ensures Nones(Columns(a)) == PeriodicCount(a)
    decreases |a|
  {
    if a != [] {
      NonesOf(a[..|a| - 1]);
      assert Columns(a)[..|a| - 1] == Columns(a[..|a| - 1]);
    }
  }

  // The periodic part of a report.
  lemma DueReported(sc: Scan, st: Store, k: nat)
    requires StoreSettled(sc, |sc.rows|, st, 0, |sc.rows|) && k < |sc.rows| && Multiple(k + 1, sc.nPSample)
    ensures TakenWhenDue(Places(st.a), Columns(st.a), k)
  {
    hide NEq, NLt, NDLt, Agree, Better, Covered, Least, AllSettled, Ascending;
    assert HoldsPeriodic(sc, st, k);
    var x :| 0 <= x < |st.a| && st.a[x].isPSample && Pos(st.a[x]) == k;
    assert Places(st.a)[x] == k && Columns(st.a)[x] == None;
  }

  lemma FewPeriodic(sc: Scan, st: Store)
    requires StoreSettled(sc, |sc.rows|, st, 0, |sc.rows|) && sc.nPSample == Interval(|sc.rows|, sc.mxSample)
    ensures Nones(Columns(st.a)) <= sc.mxSample / 3
  {
    hide NEq, NLt, NDLt, Agree, Better, Covered, Least, Interval;
    forall x | 0 <= x < |st.a|
      ensures DueBelow(sc, st.a[x], |sc.rows|)
    {
      assert Settled(sc, |sc.rows|, st.a[x], 0);
    }
    PeriodicThird(sc, |sc.rows|, |sc.rows|, st.a);
    NonesOf(st.a);
  }

  function Places(a: seq<Sample>): (at: seq<nat>)
    requires forall x {:trigger a[x]} :: 0 <= x < |a| ==> |a[x].anLt| > 0
    ensures |at| == |a| && forall x :: 0 <= x < |a| ==> at[x] == Pos(a[x])
  {
    seq(|a|, x requires 0 <= x < |a| => Pos(a[x]))
  }

  function Columns(a: seq<Sample>): (col: seq<Option<nat>>)
    ensures |col| == |a| && forall x :: 0 <= x < |a| ==> col[x] == if a[x].isPSample then None else Some(a[x].iCol)
  {
    seq(|a|, x requires 0 <= x < |a| => if a[x].isPSample then None else Some(a[x].iCol))
  }

  lemma {:induction false} ReportIs(sc: Scan, st: Store, stat4: seq<Stat4>)
    requires StoreSettled(sc, |sc.rows|, st, 0, |sc.rows|) && sc.nPSample == Interval(|sc.rows|, sc.mxSample)
    requires |stat4| == |st.a| && forall x {:trigger stat4[x]} :: 0 <= x < |stat4| ==> stat4[x] == Out(st.a[x])
    ensures Report(sc, stat4, Places(st.a), Columns(st.a))
  {
    hide NEq, NLt, NDLt, Agree, Better, Covered, Periodics, Least, Interval, ClosestSpacing, Nones, TakenWhenDue;
    FewPeriodic(sc, st);
    IntervalIsClosest(|sc.rows|, sc.mxSample);
    FinalExact(sc, st, |sc.rows|);
    var at, col := Places(st.a), Columns(st.a);
    forall x | 0 <= x < |st.a|
      ensures if st.a[x].isPSample then Multiple(Pos(st.a[x]) + 1, sc.nPSample) else st.a[x].iCol < sc.nCol - 1
    {
      assert Settled(sc, |sc.rows|, st.a[x], 0);
    }
    forall k: nat | k < |sc.rows| && Multiple(k + 1, sc.nPSample)
      ensures TakenWhenDue(at, col, k)
    {
      DueReported(sc, st, k);
    }
    forall k: nat, c: nat | k < |sc.rows| && c < sc.nCol - 1
      ensures Represented(sc, stat4, at, col, k, c)
    {
      FinalCoverage(sc, st, |sc.rows|, k, c);
      if x :| 0 <= x < |st.a| && Agree(sc.rows, Pos(st.a[x]), k, c) {
        assert Agree(sc.rows, at[x], k, c);
      }
    }
  }

  lemma ReportOf(sc: Scan, st: Store, stat4: seq<Stat4>) returns (at: seq<nat>, col: seq<Option<nat>>)
    requires StoreSettled(sc, |sc.rows|, st, 0, |sc.rows|) && sc.nPSample == Interval(|sc.rows|, sc.mxSample)
    requires |stat4| == |st.a| && forall x {:trigger stat4[x]} :: 0 <= x < |stat4| ==> stat4[x] == Out(st.a[x])
    ensures Report(sc, stat4, at, col)
  {
    ReportIs(sc, st, stat4);
    at, col := Places(st.a), Columns(st.a);
  }

  // Push every row of the index into a new accumulator, which takes it for
  // the index that the scan shows it.
  method ScanIndex(ix: Index, rows: seq<Row>, rowids: seq<int>, mxSample: nat, iPrn: nat) returns (acc: StatAccum)
    requires RowsOf(ix, rows) && |rowids| == |rows|
    ensures fresh(acc) && fresh(acc.a) && fresh(acc.aBest)
    ensures acc.rows == Seen(ix, rows) && acc.nKeyCol == ix.nKeyCol && acc.mxSample == mxSample
    ensures acc.Sc() == Scan(Seen(ix, rows), rowids, ix.nCol, mxSample, Interval(|rows|, mxSample))
    ensures acc.Valid() && acc.nRow == |rows| && acc.iGet == -1
  {
    hide *;
    KeyBounds(ix, rows);
    SeenIs(ix, rows);
    ghost var seen := Seen(ix, rows);
    acc := new StatAccum(seen, rowids, ix.nCol, ix.nKeyCol, |rows|, mxSample, iPrn);
    ghost var objects: set<object> := {acc, acc.curEq, acc.curLt, acc.curDLt, acc.aBest, acc.a};
    var scan := new Scanner(ix, rows);
    var k := 0;
    while k < |rows|
      invariant scan !in objects && scan.regPrev !in objects
      invariant 0 <= k <= |rows| && acc.Valid() && acc.nRow == k && acc.iGet == -1
      invariant scan.Ready(k) && scan.rows == rows
    {
      scan.Step(rows[k], k);
      acc.StatPush(scan.regChng, rowids[k]);
      k := k + 1;
    }
  }

  // Read off one sample.
  method NextSample(acc: StatAccum, rowid: int) returns (s: Stat4)
    requires acc.Finished() && acc.iGet < acc.nSample && rowid == acc.a[acc.iGet].rowid
    modifies acc`iGet
    ensures acc.Finished() && acc.iGet == old(acc.iGet) + 1 && s == Out(acc.a[old(acc.iGet)])
  {
    hide StoreSettled;
    var nEq := acc.StatGetNEq();
    var nLt := acc.StatGetNLt();
    var nDLt := acc.StatGetNDLt();
    s := Stat4(rowid, nEq, nLt, nDLt);
  }

  // Read off the samples.
  method CollectSamples(acc: StatAccum) returns (stat4: seq<Stat4>, ghost st: Store)
    requires acc.Valid() && 0 < acc.mxSample && 0 < acc.nRow && acc.iGet == -1
    modifies acc, acc.a, acc.aBest
    ensures StoreSettled(acc.Sc(), acc.nRow, st, 0, acc.nRow) && acc.nRow == old(acc.nRow)
    ensures |stat4| == |st.a| && forall x {:trigger stat4[x]} :: 0 <= x < |stat4| ==> stat4[x] == Out(st.a[x])
  {
    hide *;
    acc.ValidParts();
    stat4 := [];
    var rowid := acc.StatGetRowid();
    acc.FinishedParts();
    st := acc.View();
    while rowid.Some?
      invariant acc.Finished() && acc.nRow == old(acc.nRow) && acc.nSample <= acc.a.Length && acc.View() == st
      invariant acc.iGet == |stat4| <= |st.a| == acc.nSample
      invariant rowid == if acc.iGet < acc.nSample then Some(acc.a[acc.iGet].rowid) else None
      invariant forall x {:trigger stat4[x]} :: 0 <= x < |stat4| ==> stat4[x] == Out(st.a[x])
      decreases |st.a| - |stat4|
    {
      acc.FinishedParts();
      var s := NextSample(acc, rowid.value);
      stat4 := stat4 + [s];
      acc.FinishedParts();
      rowid := acc.StatGetRowid();
    }
    acc.FinishedParts();
  }

  // ANALYZE for one index: the sqlite_stat1 line and the sqlite_stat4 rows.
  // An index without rows gets no sqlite_stat1 line unless it is partial. The
  // figures are those of the rows as the scan sees them, which are the rows
  // of the index unless the scan is blinded.
  method AnalyzeIndex(ix: Index, rows: seq<Row>, rowids: seq<int>, partial: bool, mxSample: nat, iPrn: nat)
      returns (stat1: Option<seq<nat>>, stat4: seq<Stat4>, ghost at: seq<nat>, ghost col: seq<Option<nat>>)
    requires RowsOf(ix, rows) && |rowids| == |rows|
    ensures stat1.Some? <==> rows != [] || partial
    ensures stat1.Some? ==> |stat1.value| == ix.nKeyCol + 1 && stat1.value[0] == |rows|
    ensures rows != [] ==> var seen := Seen(ix, rows);
              forall i {:trigger Distinct(seen, |rows|, i)} :: 0 <= i < ix.nKeyCol ==>
                0 < Distinct(seen, |rows|, i) <= |rows|
                    && stat1.value[i + 1] == Estimate(|rows|, Distinct(seen, |rows|, i))
    ensures rows != [] && ix.isUnique ==>
              (stat1.value[ix.nKeyCol] == 1 <==> Blinded(ix, rows) || 11 * |NullRepeats(ix, rows)| <= |rows|)
    ensures rows == [] && partial ==> forall i :: 0 < i <= ix.nKeyCol ==> stat1.value[i] == 0
    ensures rows == [] || mxSample == 0 ==> stat4 == []
    ensures rows != [] && mxSample > 0 ==>
              Report(Scan(Seen(ix, rows), rowids, ix.nCol, mxSample, Interval(|rows|, mxSample)), stat4, at, col)
  {
    assert ix.nKeyCol > 0;
    KeyBounds(ix, rows);
    if rows != [] && ix.isUnique { UniqueLastIsOne(ix, rows); }
    hide RowsOf, Blinded, NullRepeats, Seen, Report, Estimate, Distinct, Interval, StoreSettled, NEq;
    stat1, stat4, at, col := None, [], [], [];
    var acc := ScanIndex(ix, rows, rowids, mxSample, iPrn);
    if rows != [] || partial {
      var line := acc.StatGetStat1();
      stat1 := Some(line);
    }
    if rows != [] && mxSample > 0 {
      ghost var st;
      stat4, st := CollectSamples(acc);
      at, col := ReportOf(acc.Sc(), st, stat4);
    }
  }
}
