/** From one row to the next: closed groups get their counts, the new row opens
    its groups, a periodic sample may be taken, and the best rows are updated. */
module StatSteps {
  import opened Arith
  import opened IndexRows
  import opened Reservoir
  import opened StatInvariants

  // ----- Filling in the counts of closed groups --------------------------------

  function Filled(s: Sample, cur: seq<nat>, c: nat): Sample
    requires |s.anEq| == |cur|
  {
    s.(anEq := seq(|cur|, j requires 0 <= j < |cur| => if j >= c && s.anEq[j] == 0 then cur[j] else s.anEq[j]))
  }

  // Exactly the groups that are still open (columns below c shared with row
  // n-1) are unknown.
  ghost predicate Settled(sc: Scan, n: nat, s: Sample, c: nat) {
    && n > 0 && Figures(sc, n, s)
    && (forall j {:trigger s.anEq[j]} :: 0 <= j < sc.nCol ==>
          s.anEq[j] == if j < c && j < sc.nCol - 1 && Agree(sc.rows, Pos(s), n - 1, j) then 0
              else NEq(sc.rows, n, Pos(s), j))
    && (if s.isPSample then
          sc.nPSample > 0 && (Pos(s) + 1) % sc.nPSample == 0
        else
          && s.iCol < sc.nCol - 1
          && (Agree(sc.rows, Pos(s), n - 1, s.iCol) ==> s.iCol >= c))
  }

  ghost predicate AllSettled(sc: Scan, n: nat, a: seq<Sample>, c: nat) {
    forall x {:trigger a[x]} :: 0 <= x < |a| ==> Settled(sc, n, a[x], c)
  }

  ghost predicate StoreSettled(sc: Scan, n: nat, st: Store, c: nat, m: nat) {
    && 0 < n <= |sc.rows| && Sorted(sc.rows, sc.nCol) && 0 < sc.mxSample && |st.a| <= sc.mxSample
    && AllShaped(st.a, sc.nCol) && AllSettled(sc, n, st.a, c) && Ascending(st.a, sc.nCol)
    && NoBlankFrom(st.a, sc.nCol, st.nMaxEqZero)
    && (|st.a| >= sc.mxSample ==> Least(st.a, sc.nCol, st.iMin))
    && Periodics(sc, m, st) && Covered(sc, n, st, c)
  }

  // The counters of the current row, over the n rows read.
  ghost predicate CurrentEq(sc: Scan, n: nat, anEq: seq<nat>) {
    n > 0 && |anEq| == sc.nCol &&
    forall j {:trigger anEq[j]} :: 0 <= j < sc.nCol ==> anEq[j] == NEq(sc.rows, n, n - 1, j)
  }

  ghost predicate CurrentLt(sc: Scan, n: nat, anLt: seq<nat>) {
    n > 0 && |anLt| == sc.nCol &&
    forall j {:trigger anLt[j]} :: 0 <= j < sc.nCol ==> anLt[j] == NLt(sc.rows, n, n - 1, j)
  }

  ghost predicate CurrentDLt(sc: Scan, n: nat, anDLt: seq<nat>) {
    n > 0 && |anDLt| == sc.nCol &&
    forall j {:trigger anDLt[j]} :: 0 <= j < sc.nCol ==> anDLt[j] == NDLt(sc.rows, n, n - 1, j)
  }

  lemma FilledSample(sc: Scan, n: nat, s: Sample, cur: seq<nat>, c: nat)
    requires 0 < n <= |sc.rows| && Sorted(sc.rows, sc.nCol) && Level(sc, n, s, c) && CurrentEq(sc, n, cur)
    ensures Settled(sc, n, Filled(s, cur, c), c)
    ensures !s.isPSample ==> Score(Filled(s, cur, c)) == Score(s)
  {
    hide NEq, NLt, NDLt, Better;
    var t := Filled(s, cur, c);
    forall j | 0 <= j < sc.nCol
      ensures t.anEq[j] == if j < c && j < sc.nCol - 1 && Agree(sc.rows, Pos(s), n - 1, j) then 0
          else NEq(sc.rows, n, Pos(s), j)
    {
      NEqPositive(sc.rows, sc.nCol, n, Pos(s), j);
      if s.anEq[j] == 0 { NEqSame(sc.rows, n, Pos(s), n - 1, j); }
    }
    if !s.isPSample {
      assert forall j :: s.iCol <= j < sc.nCol ==> t.anEq[j] == s.anEq[j];
      assert t.anEq[s.iCol + 1..] == s.anEq[s.iCol + 1..];
    }
  }

  // The reservoir after the closing loop of samplePushPrevious.
  ghost predicate FilledStore(sc: Scan, st: Store, cur: seq<nat>, c: nat, post: Store)
    requires AllShaped(st.a, sc.nCol) && |cur| == sc.nCol
  {
    && |post.a| == |st.a| && post.iMin == st.iMin
    && post.nMaxEqZero == (if c < st.nMaxEqZero then c else st.nMaxEqZero)
    && forall x {:trigger post.a[x]} :: 0 <= x < |st.a| ==> post.a[x] == Filled(st.a[x], cur, c)
  }

  lemma FilledOrder(sc: Scan, st: Store, cur: seq<nat>, c: nat, post: Store)
    requires AllShaped(st.a, sc.nCol) && |cur| == sc.nCol && FilledStore(sc, st, cur, c, post)
    requires Ascending(st.a, sc.nCol) && NoBlankFrom(st.a, sc.nCol, st.nMaxEqZero)
    requires forall j {:trigger cur[j]} :: 0 <= j < |cur| ==> cur[j] != 0
    ensures AllShaped(post.a, sc.nCol)
    ensures Ascending(post.a, sc.nCol) && NoBlankFrom(post.a, sc.nCol, post.nMaxEqZero)
  {
    hide NEq, NLt, NDLt, Better;
    assert forall x {:trigger post.a[x]} :: 0 <= x < |post.a| ==>
      Shaped(st.a[x], sc.nCol) && post.a[x].anLt == st.a[x].anLt;
    forall x, j | 0 <= x < |post.a| && post.nMaxEqZero <= j < sc.nCol
      ensures post.a[x].anEq[j] != 0
    {
      if j < c { assert st.a[x].anEq[j] != 0; }
    }
  }

  lemma FilledAll(sc: Scan, n: nat, st: Store, cur: seq<nat>, c: nat, post: Store)
    requires Core(sc, n, st, c) && CurrentEq(sc, n, cur) && FilledStore(sc, st, cur, c, post)
    ensures AllSettled(sc, n, post.a, c)
    ensures forall x {:trigger post.a[x]} :: 0 <= x < |st.a| && !st.a[x].isPSample ==>
        Score(post.a[x]) == Score(st.a[x])
  {
    hide NEq, NLt, NDLt, Better;
    forall x | 0 <= x < |post.a|
      ensures Settled(sc, n, post.a[x], c)
      ensures !st.a[x].isPSample ==> Score(post.a[x]) == Score(st.a[x])
    {
      assert Level(sc, n, st.a[x], c);
      FilledSample(sc, n, st.a[x], cur, c);
    }
  }

  // Same samples up to filled-in counts: same victim, same coverage.
  lemma FilledVictim(sc: Scan, st: Store, cur: seq<nat>, c: nat, post: Store)
    requires AllShaped(st.a, sc.nCol) && AllShaped(post.a, sc.nCol) && |cur| == sc.nCol
        && FilledStore(sc, st, cur, c, post)
    requires forall x {:trigger post.a[x]} :: 0 <= x < |st.a| && !st.a[x].isPSample ==>
        Score(post.a[x]) == Score(st.a[x])
    requires |st.a| >= sc.mxSample ==> Least(st.a, sc.nCol, st.iMin)
    ensures |post.a| >= sc.mxSample ==> Least(post.a, sc.nCol, post.iMin)
    ensures VictimNoWorse(sc, st, post)
  {
    hide NEq, NLt, NDLt;
    if |st.a| >= sc.mxSample { BetterOrder(st.a[st.iMin], st.a[st.iMin], st.a[st.iMin], sc.nCol); }
  }

  lemma FilledCover(sc: Scan, n: nat, st: Store, cur: seq<nat>, c: nat, m: nat, post: Store)
    requires 0 < sc.mxSample
    requires AllShaped(st.a, sc.nCol) && AllShaped(post.a, sc.nCol) && |cur| == sc.nCol
        && FilledStore(sc, st, cur, c, post)
    requires n > 0 && sc.nCol > 0 && Covered(sc, n, st, c) && Periodics(sc, m, st) && VictimNoWorse(sc, st, post)
    ensures Covered(sc, n, post, c) && Periodics(sc, m, post)
  {
    hide NEq, NLt, NDLt, Better;
    forall x: nat, k: nat, c': nat | Stands(sc, st.a, x, k, c')
      ensures CoveredGroup(sc, n, post, k, c')
    {
      assert Stands(sc, post.a, x, k, c');
    }
    CoverKept(sc, n, st, post, c);
    forall k: nat | HoldsPeriodic(sc, st, k)
      ensures HoldsPeriodic(sc, post, k)
    {
      var x :| 0 <= x < |st.a| && st.a[x].isPSample && Pos(st.a[x]) == k;
      assert post.a[x].isPSample && Pos(post.a[x]) == k;
    }
  }

  lemma {:induction false} FillStep(sc: Scan, n: nat, st: Store, cur: seq<nat>, c: nat, m: nat, post: Store)
    requires StoreOk(sc, n, st, c, m) && CurrentEq(sc, n, cur) && FilledStore(sc, st, cur, c, post)
    ensures StoreSettled(sc, n, post, c, m) && VictimNoWorse(sc, st, post)
  {
    hide NEq, NLt, NDLt, Better;
    forall j | 0 <= j < sc.nCol
      ensures cur[j] != 0
    {
      NEqPositive(sc.rows, sc.nCol, n, n - 1, j);
    }
    FilledOrder(sc, st, cur, c, post);
    FilledAll(sc, n, st, cur, c, post);
    FilledVictim(sc, st, cur, c, post);
    FilledCover(sc, n, st, cur, c, m, post);
  }

  // ----- The next row arrives ------------------------------------------------------

  lemma SettledNext(sc: Scan, n: nat, s: Sample)
    requires 0 < n < |sc.rows| && Sorted(sc.rows, sc.nCol) && Settled(sc, n, s, Change(sc.rows, n))
    ensures Level(sc, n + 1, s, sc.nCol - 1)
    ensures !Agree(sc.rows, Pos(s), n, sc.nCol - 1)
  {
    hide NEq, NLt, NDLt, Better;
    var c, k := Change(sc.rows, n), Pos(s);
    AgreeAll(sc.rows, sc.nCol, k, n);
    forall j | 0 <= j < sc.nCol
      ensures NLt(sc.rows, n + 1, k, j) == NLt(sc.rows, n, k, j) && NDLt(sc.rows, n + 1, k, j) == NDLt(sc.rows, n, k, j)
      ensures Agree(sc.rows, k, n, j) <==> j < c && Agree(sc.rows, k, n - 1, j)
      ensures s.anEq[j] == if j < sc.nCol - 1 && Agree(sc.rows, k, n, j) then 0 else NEq(sc.rows, n + 1, k, j)
      ensures NEq(sc.rows, n + 1, k, j) > 0
    {
      EarlierRow(sc.rows, sc.nCol, n, k, j);
      AgreeBetween(sc.rows, sc.nCol, k, n - 1, n, j);
      NEqPositive(sc.rows, sc.nCol, n + 1, k, j);
    }
  }

  lemma CoveredNext(sc: Scan, n: nat, st: Store)
    requires 0 < n < |sc.rows| && Sorted(sc.rows, sc.nCol) && AllShaped(st.a, sc.nCol)
    requires Covered(sc, n, st, Change(sc.rows, n))
    ensures Covered(sc, n + 1, st, sc.nCol - 1)
  {
    hide NEq, NLt, NDLt, Better;
    forall k: nat, c: nat | k < n + 1 && c < sc.nCol - 1 && !Agree(sc.rows, k, n, c)
      ensures CoveredGroup(sc, n + 1, st, k, c)
    {
      AgreeRefl(sc.rows, sc.nCol, n, c);
      AgreeBetween(sc.rows, sc.nCol, k, n - 1, n, c);
      assert CoveredGroup(sc, n, st, k, c);
      EarlierRow(sc.rows, sc.nCol, n, k, c);
    }
  }

  lemma {:induction false} NextRowStep(sc: Scan, n: nat, st: Store)
    requires 0 < n < |sc.rows| && StoreSettled(sc, n, st, Change(sc.rows, n), n)
    ensures StoreOk(sc, n + 1, st, sc.nCol - 1, n)
    ensures AllBefore(st.a, n)
  {
    hide NEq, NLt, NDLt, Better;
    forall x | 0 <= x < |st.a|
      ensures Level(sc, n + 1, st.a[x], sc.nCol - 1) && Pos(st.a[x]) < n
      ensures !Agree(sc.rows, Pos(st.a[x]), n, sc.nCol - 1)
    {
      assert Settled(sc, n, st.a[x], Change(sc.rows, n));
      SettledNext(sc, n, st.a[x]);
    }
    assert AllLevels(sc, n + 1, st.a, sc.nCol - 1);
    CoveredNext(sc, n, st);
  }

  lemma CurrentNext(sc: Scan, n: nat, j: nat)
    requires 0 < n < |sc.rows| && Sorted(sc.rows, sc.nCol) && j < sc.nCol
    ensures if j < Change(sc.rows, n) then
              && NEq(sc.rows, n + 1, n, j) == NEq(sc.rows, n, n - 1, j) + 1
              && NLt(sc.rows, n + 1, n, j) == NLt(sc.rows, n, n - 1, j)
              && NDLt(sc.rows, n + 1, n, j) == NDLt(sc.rows, n, n - 1, j)
            else
              && NEq(sc.rows, n + 1, n, j) == 1
              && NLt(sc.rows, n + 1, n, j) == NLt(sc.rows, n, n - 1, j) + NEq(sc.rows, n, n - 1, j)
              && NDLt(sc.rows, n + 1, n, j) == NDLt(sc.rows, n, n - 1, j) + 1
  {
    hide NEq, NLt, NDLt, Better;
    if j < Change(sc.rows, n) { NextRowSame(sc.rows, sc.nCol, n, j); } else { NextRowNew(sc.rows, sc.nCol, n, j); }
  }

  // ----- Periodic samples --------------------------------------------------------------

  // The current row as a sample.
  ghost predicate CurrentSample(sc: Scan, n: nat, s: Sample) {
    && 0 < n && Shaped(s, sc.nCol) && Figures(sc, n, s) && Pos(s) == n - 1 && CurrentEq(sc, n, s.anEq)
  }

  lemma PeriodicLevel(sc: Scan, n: nat, s: Sample)
    requires 0 < n <= |sc.rows| && Sorted(sc.rows, sc.nCol) && CurrentSample(sc, n, s) && s.isPSample
    requires sc.nPSample > 0 && n % sc.nPSample == 0
    ensures Level(sc, n, Blanked(s, sc.nCol - 1), sc.nCol - 1)
    ensures Pos(Blanked(s, sc.nCol - 1)) == n - 1
    ensures Blanked(s, sc.nCol - 1).anEq[sc.nCol - 1] != 0
  {
    hide NEq, NLt, NDLt, Better;
    var t, last := Blanked(s, sc.nCol - 1), sc.nCol - 1;
    assert forall j :: 0 <= j < last ==> t.anEq[j] == 0;
    assert t.anEq[last] == s.anEq[last];
    WholeRow(sc.rows, sc.nCol, n, n - 1);
    var k := n - 1;
    forall j | 0 <= j < sc.nCol
      ensures Agree(sc.rows, k, k, j)
    {
      AgreeRefl(sc.rows, sc.nCol, k, j);
    }
    assert Pos(t) == Pos(s);
    assert Counts(sc, n, t);
  }

  lemma PeriodicAppended(sc: Scan, n: nat, st: Store, s: Sample, post: Store)
    requires 0 < sc.nCol && Core(sc, n, st, sc.nCol - 1) && CurrentSample(sc, n, s) && s.isPSample
    requires sc.nPSample > 0 && n % sc.nPSample == 0
    requires AllBefore(st.a, n - 1)
    requires Inserted(sc.mxSample, sc.nCol, st, s, sc.nCol - 1, post)
    ensures Appended(sc, n, st, Blanked(s, sc.nCol - 1), sc.nCol - 1, post)
  {
    hide NEq, NLt, NDLt, Better;
    PeriodicLevel(sc, n, s);
    assert post.nMaxEqZero >= sc.nCol - 1;
  }

  lemma PeriodicHeld(sc: Scan, st: Store, m: nat)
    requires AllShaped(st.a, sc.nCol) && Periodics(sc, m, st) && HoldsPeriodic(sc, st, m)
    ensures Periodics(sc, m + 1, st)
  {}

  // The row just read is due for periodic sampling and is taken, whatever the
  // victim's score.
  lemma {:induction false} PeriodicInsert(sc: Scan, n: nat, st: Store, t: Sample, l: nat, post: Store)
    requires 0 < n && l + 1 == sc.nCol && Appended(sc, n, st, t, l, post)
    requires Periodics(sc, n - 1, st) && Covered(sc, n, st, l) && t.isPSample && Pos(t) == n - 1
    ensures StoreOk(sc, n, post, l, n) && VictimNoWorse(sc, st, post)
  {
    hide NEq, NLt, NDLt, Better;
    var last := |post.a| - 1;
    assert post.a[last] == t;
    assert VictimNoWorse(sc, st, post) by { AppendVictim(sc, n, st, t, l, post); }
    assert StoreOk(sc, n, post, l, n) by {
      assert Core(sc, n, post, l) by { AppendCore(sc, n, st, t, l, post); }
      assert Periodics(sc, n, post) by {
        AppendPeriodics(sc, n, st, t, l, post, n - 1);
        PeriodicHeld(sc, post, n - 1);
      }
      assert Covered(sc, n, post, l) by { AppendCover(sc, n, st, t, l, post, l); }
      assert Leader(sc, n, post, l) by { AgreeAll(sc.rows, sc.nCol, n - 1, n - 1); }
    }
  }

  // ... as sampleInsert does it.
  lemma {:induction false} PeriodicTaken(sc: Scan, n: nat, st: Store, s: Sample, post: Store)
    requires 0 < n && 0 < sc.nCol && StoreOk(sc, n, st, sc.nCol - 1, n - 1) && CurrentSample(sc, n, s) && s.isPSample
    requires Multiple(n, sc.nPSample)
    requires AllBefore(st.a, n - 1)
    requires Inserted(sc.mxSample, sc.nCol, st, s, sc.nCol - 1, post)
    ensures StoreOk(sc, n, post, sc.nCol - 1, n) && VictimNoWorse(sc, st, post)
  {
    hide NEq, NLt, NDLt, Better, Agree, Level;
    assert Appended(sc, n, st, Blanked(s, sc.nCol - 1), sc.nCol - 1, post) by { PeriodicAppended(sc, n, st, s, post); }
    assert Pos(Blanked(s, sc.nCol - 1)) == n - 1 by { PeriodicLevel(sc, n, s); }
    PeriodicInsert(sc, n, st, Blanked(s, sc.nCol - 1), sc.nCol - 1, post);
  }

  // No sample is due.
  lemma PeriodicNone(sc: Scan, n: nat, st: Store)
    requires 0 < n && 0 < sc.nCol && StoreOk(sc, n, st, sc.nCol - 1, n - 1) && !Multiple(n, sc.nPSample)
    ensures StoreOk(sc, n, st, sc.nCol - 1, n)
  {}

  function PeriodicCount(a: seq<Sample>): (c: nat)
    ensures c <= |a|
  {
    if a == [] then 0
    else PeriodicCount(a[..|a| - 1]) + if a[|a| - 1].isPSample then 1 else 0
  }

  lemma AllPeriodic(a: seq<Sample>)
    requires forall x {:trigger a[x]} :: 0 <= x < |a| ==> a[x].isPSample
    ensures PeriodicCount(a) == |a|
  {
    hide NEq, NLt, NDLt, Better;
    if a != [] { AllPeriodic(a[..|a| - 1]); }
  }

  // Row position and kind of a sample among the first n rows.
  ghost predicate DueBelow(sc: Scan, s: Sample, n: nat) {
    |s.anLt| > 0 && Pos(s) < n && (s.isPSample ==> Multiple(Pos(s) + 1, sc.nPSample))
  }

  // Periodic samples sit one per interval.
  lemma {:induction false} PeriodicBound(sc: Scan, a: seq<Sample>, n: nat)
    requires forall x {:trigger a[x]} :: 0 <= x < |a| ==> DueBelow(sc, a[x], n)
    requires forall x, y {:trigger a[x], a[y]} :: 0 <= x < y < |a| ==>
      |a[x].anLt| > 0 && |a[y].anLt| > 0 && Pos(a[x]) < Pos(a[y])
    ensures PeriodicCount(a) <= Multiples(n, sc.nPSample)
    decreases |a|
  {
    hide NEq, NLt, NDLt, Better;
    if a != [] {
      var last := |a| - 1;
      var k := Pos(a[last]);
      forall x | 0 <= x < last
        ensures DueBelow(sc, a[..last][x], k)
      {
        assert DueBelow(sc, a[x], n);
      }
      PeriodicBound(sc, a[..last], k);
      MultiplesGrow(k + 1, n, sc.nPSample);
    }
  }

  lemma LevelsDue(sc: Scan, n: nat, a: seq<Sample>, l: nat, m: nat)
    requires AllLevels(sc, n, a, l)
    requires AllBefore(a, m)
    ensures forall x {:trigger a[x]} :: 0 <= x < |a| ==> DueBelow(sc, a[x], m)
  {
    hide NEq, NLt, NDLt, Better;
    forall x | 0 <= x < |a|
      ensures DueBelow(sc, a[x], m)
    {
      assert Level(sc, n, a[x], l);
    }
  }

  // As long as no more rows arrive than were announced, at most a third of
  // the reservoir is periodic, so a full reservoir has a victim.
  lemma {:induction false} PeriodicThird(sc: Scan, nEst: nat, n: nat, a: seq<Sample>)
    requires forall x {:trigger a[x]} :: 0 <= x < |a| ==> DueBelow(sc, a[x], n)
    requires AllShaped(a, sc.nCol) && Ascending(a, sc.nCol) && n <= nEst
    requires sc.nPSample == Interval(nEst, sc.mxSample)
    ensures PeriodicCount(a) <= sc.mxSample / 3
    ensures 0 < |a| == sc.mxSample ==> exists x :: 0 <= x < |a| && !a[x].isPSample
  {
    hide NEq, NLt, NDLt, Better;
    PeriodicBound(sc, a, n);
    ThirdOfBudget(nEst, sc.mxSample, n);
    if forall x :: 0 <= x < |a| ==> a[x].isPSample { AllPeriodic(a); }
  }

  // Before a periodic sample is inserted, one of its interval is still missing.
  lemma PeriodicRoom(sc: Scan, n: nat, a: seq<Sample>)
    requires 0 < n && AllShaped(a, sc.nCol) && Ascending(a, sc.nCol) && Multiple(n, sc.nPSample)
    requires forall x {:trigger a[x]} :: 0 <= x < |a| ==> DueBelow(sc, a[x], n - 1)
    ensures PeriodicCount(a) + 1 <= Multiples(n, sc.nPSample)
  {
    hide NEq, NLt, NDLt, Better;
    PeriodicBound(sc, a, n - 1);
  }

  // ----- The best row of each group being read --------------------------------------------

  // For column i: a row of the current group, its figures for the finer
  // columns exact, lying in the largest finer group.
  ghost predicate BestFor(sc: Scan, n: nat, b: Sample, i: nat) {
    && 0 < n && i < sc.nCol - 1 && Figures(sc, n, b) && !b.isPSample && b.iCol == i
    && Agree(sc.rows, Pos(b), n - 1, i)
    && (forall j {:trigger b.anEq[j]} :: i < j < sc.nCol ==> b.anEq[j] == NEq(sc.rows, n, Pos(b), j))
    && (forall t: nat {:trigger Agree(sc.rows, t, n - 1, i)} :: t < n && Agree(sc.rows, t, n - 1, i) ==>
          NEq(sc.rows, n, t, i + 1) <= NEq(sc.rows, n, Pos(b), i + 1))
  }

  ghost predicate BestRows(sc: Scan, n: nat, best: seq<Sample>) {
    |best| == sc.nCol && AllShaped(best, sc.nCol) &&
    forall i {:trigger best[i]} :: 0 <= i < sc.nCol - 1 ==> BestFor(sc, n, best[i], i)
  }

  lemma PostFirst(s: Sample, t: Sample)
    requires s.iCol == t.iCol && s.iCol + 1 < |s.anEq| && s.iCol + 1 < |t.anEq|
    ensures s.anEq[s.iCol + 1] > t.anEq[s.iCol + 1] ==> BetterPost(s, t)
    ensures BetterPost(s, t) ==> s.anEq[s.iCol + 1] >= t.anEq[s.iCol + 1]
  {
    hide LexGreater, FirstDiff;
    var i := s.iCol + 1;
    assert Tail(s) == [s.anEq[i]] + (s.anEq[i + 1..] + [s.iHash]);
    assert Tail(t) == [t.anEq[i]] + (t.anEq[i + 1..] + [t.iHash]);
    LexStep(s.anEq[i], t.anEq[i], s.anEq[i + 1..] + [s.iHash], t.anEq[i + 1..] + [t.iHash]);
  }

  // The better of the best row so far and the row just read; a group that
  // just began at column c or before starts over.
  function BestChoice(c: nat, b: Sample, cur: Sample, i: nat): Sample
    requires b.iCol < |b.anEq| && cur.iCol < |cur.anEq|
  {
    if i >= c || BetterPost(cur, b) then cur else b
  }

  // The row just read, as a candidate for column i.
  ghost predicate CandidateRow(sc: Scan, n: nat, s: Sample, i: nat) {
    CurrentSample(sc, n, s) && !s.isPSample && s.iCol == i < sc.nCol - 1
  }

  lemma CurrentIsCandidate(sc: Scan, n: nat, s: Sample, i: nat)
    requires CurrentSample(sc, n, s) && !s.isPSample && i < sc.nCol - 1
    ensures CandidateRow(sc, n, s.(iCol := i), i)
  {
    hide NEq, NLt, NDLt;
    assert Pos(s.(iCol := i)) == Pos(s);
  }

  lemma BestReplaced(sc: Scan, n: nat, cur: Sample, i: nat)
    requires 0 < n <= |sc.rows| && Sorted(sc.rows, sc.nCol) && CandidateRow(sc, n, cur, i)
    requires forall t: nat {:trigger Agree(sc.rows, t, n - 1, i)} :: t < n && Agree(sc.rows, t, n - 1, i) ==>
               NEq(sc.rows, n, t, i + 1) <= NEq(sc.rows, n, n - 1, i + 1)
    ensures BestFor(sc, n, cur, i)
  {
    hide NEq, NLt, NDLt, Better;
    AgreeRefl(sc.rows, sc.nCol, n - 1, i);
  }

  // A new group at column i: only the new row belongs to it.
  lemma BestReset(sc: Scan, n: nat, cur: Sample, i: nat)
    requires n < |sc.rows| && Sorted(sc.rows, sc.nCol) && CandidateRow(sc, n + 1, cur, i) && i >= Change(sc.rows, n)
    ensures BestFor(sc, n + 1, cur, i)
  {
    hide NEq, NLt, NDLt, Better;
    forall t: nat | t < n + 1 && Agree(sc.rows, t, n, i)
      ensures t == n
    {
      if t < n { AgreeBetween(sc.rows, sc.nCol, t, n - 1, n, i); }
    }
    BestReplaced(sc, n + 1, cur, i);
  }

  // Sizes of the finer groups when row n joins the group of column i.
  lemma FinerSizes(sc: Scan, n: nat, b: Sample, i: nat, t: nat)
    requires 0 < n < |sc.rows| && Sorted(sc.rows, sc.nCol) && BestFor(sc, n, b, i) && i < Change(sc.rows, n)
    requires t <= n && Agree(sc.rows, t, n, i)
    ensures Agree(sc.rows, t, n, i + 1) ==> NEq(sc.rows, n + 1, t, i + 1) == NEq(sc.rows, n + 1, n, i + 1)
    ensures !Agree(sc.rows, t, n, i + 1) ==> NEq(sc.rows, n + 1, t, i + 1) <= b.anEq[i + 1]
  {
    hide NEq, NLt, NDLt, Better;
    AgreeRefl(sc.rows, sc.nCol, n, i + 1);
    if Agree(sc.rows, t, n, i + 1) {
      NEqSame(sc.rows, n + 1, t, n, i + 1);
    } else {
      EarlierRow(sc.rows, sc.nCol, n, t, i + 1);
      AgreeBetween(sc.rows, sc.nCol, t, n - 1, n, i);
    }
  }

  lemma BestImproved(sc: Scan, n: nat, b: Sample, cur: Sample, i: nat)
    requires 0 < n < |sc.rows| && Sorted(sc.rows, sc.nCol) && BestFor(sc, n, b, i) && CandidateRow(sc, n + 1, cur, i)
    requires i < Change(sc.rows, n) && BetterPost(cur, b)
    ensures BestFor(sc, n + 1, cur, i)
  {
    hide NEq, NLt, NDLt, Better;
    PostFirst(cur, b);
    forall t: nat | t < n + 1 && Agree(sc.rows, t, n, i)
      ensures NEq(sc.rows, n + 1, t, i + 1) <= NEq(sc.rows, n + 1, n, i + 1)
    {
      FinerSizes(sc, n, b, i, t);
      assert cur.anEq[i + 1] >= b.anEq[i + 1];
    }
    BestReplaced(sc, n + 1, cur, i);
  }

  // A row that stays best shares no finer group with the new row: otherwise
  // the new row would have counted one more and won.
  lemma {:induction false} BestStays(sc: Scan, n: nat, b: Sample, cur: Sample, i: nat)
    requires 0 < n < |sc.rows| && Sorted(sc.rows, sc.nCol) && BestFor(sc, n, b, i) && CandidateRow(sc, n + 1, cur, i)
    requires i < Change(sc.rows, n) && !BetterPost(cur, b)
    ensures !Agree(sc.rows, Pos(b), n, i + 1)
  {
    hide NEq, NLt, NDLt, Better;
    PostFirst(cur, b);
    if Agree(sc.rows, Pos(b), n, i + 1) {
      EarlierRow(sc.rows, sc.nCol, n, Pos(b), i + 1);
      NEqSame(sc.rows, n + 1, Pos(b), n, i + 1);
      assert false;
    }
  }

  lemma BestKeptLargest(sc: Scan, n: nat, b: Sample, cur: Sample, i: nat, t: nat)
    requires 0 < n < |sc.rows| && Sorted(sc.rows, sc.nCol) && BestFor(sc, n, b, i) && CandidateRow(sc, n + 1, cur, i)
    requires i < Change(sc.rows, n) && !BetterPost(cur, b) && t < n + 1 && Agree(sc.rows, t, n, i)
    ensures NEq(sc.rows, n + 1, t, i + 1) <= b.anEq[i + 1]
  {
    hide NEq, NLt, NDLt, Better;
    PostFirst(cur, b);
    FinerSizes(sc, n, b, i, t);
    assert cur.anEq[i + 1] <= b.anEq[i + 1];
  }

  lemma BestKeptFigures(sc: Scan, n: nat, b: Sample, i: nat)
    requires 0 < n < |sc.rows| && Sorted(sc.rows, sc.nCol) && BestFor(sc, n, b, i)
    requires !Agree(sc.rows, Pos(b), n, i + 1)
    ensures Figures(sc, n + 1, b)
    ensures forall j {:trigger b.anEq[j]} :: i < j < sc.nCol ==> b.anEq[j] == NEq(sc.rows, n + 1, Pos(b), j)
  {
    hide NEq, NLt, NDLt, Better;
    forall j | 0 <= j < sc.nCol
      ensures NLt(sc.rows, n + 1, Pos(b), j) == NLt(sc.rows, n, Pos(b), j)
      ensures NDLt(sc.rows, n + 1, Pos(b), j) == NDLt(sc.rows, n, Pos(b), j)
      ensures j > i ==> NEq(sc.rows, n + 1, Pos(b), j) == NEq(sc.rows, n, Pos(b), j)
    {
      EarlierRow(sc.rows, sc.nCol, n, Pos(b), j);
    }
  }

  lemma {:induction false} BestKept(sc: Scan, n: nat, b: Sample, cur: Sample, i: nat)
    requires 0 < n < |sc.rows| && Sorted(sc.rows, sc.nCol) && BestFor(sc, n, b, i) && CandidateRow(sc, n + 1, cur, i)
    requires i < Change(sc.rows, n) && !BetterPost(cur, b)
    ensures BestFor(sc, n + 1, b, i)
  {
    hide NEq, NLt, NDLt, Better;
    BestStays(sc, n, b, cur, i);
    BestKeptFigures(sc, n, b, i);
    AgreeBetween(sc.rows, sc.nCol, Pos(b), n - 1, n, i);
    forall t: nat | t < n + 1 && Agree(sc.rows, t, n, i)
      ensures NEq(sc.rows, n + 1, t, i + 1) <= b.anEq[i + 1]
    {
      BestKeptLargest(sc, n, b, cur, i, t);
    }
  }

  lemma {:induction false} BestStep(sc: Scan, n: nat, b: Sample, cur: Sample, i: nat)
    requires n < |sc.rows| && Sorted(sc.rows, sc.nCol) && Shaped(b, sc.nCol) && CandidateRow(sc, n + 1, cur, i)
    requires n > 0 && i < Change(sc.rows, n) ==> BestFor(sc, n, b, i)
    ensures BestFor(sc, n + 1, BestChoice(Change(sc.rows, n), b, cur, i), i)
  {
    hide NEq, NLt, NDLt, Better;
    if i >= Change(sc.rows, n) {
      BestReset(sc, n, cur, i);
    } else if BetterPost(cur, b) {
      BestImproved(sc, n, b, cur, i);
    } else {
      BestKept(sc, n, b, cur, i);
    }
  }

  // The best rows known after row n-1, as far as row n shares them.
  ghost predicate BestShared(sc: Scan, n: nat, best: seq<Sample>, c: nat) {
    && |best| == sc.nCol && AllShaped(best, sc.nCol)
    && (0 < n ==> forall i {:trigger best[i]} :: 0 <= i < sc.nCol - 1 && i < c ==> BestFor(sc, n, best[i], i))
  }

  lemma {:induction false} BestAll(sc: Scan, n: nat, best: seq<Sample>, cur: Sample, best': seq<Sample>)
    requires n < |sc.rows| && Sorted(sc.rows, sc.nCol) && BestShared(sc, n, best, Change(sc.rows, n))
    requires CurrentSample(sc, n + 1, cur) && !cur.isPSample && |best'| == sc.nCol && AllShaped(best', sc.nCol)
    requires forall i {:trigger best'[i]} :: 0 <= i < sc.nCol - 1 ==>
               best'[i] == BestChoice(Change(sc.rows, n), best[i], cur.(iCol := i), i)
    ensures BestRows(sc, n + 1, best')
  {
    hide NEq, NLt, NDLt, Better, Agree, Change, BetterPost, BestFor, BestChoice, CurrentSample, Sorted;
    forall i | 0 <= i < sc.nCol - 1
      ensures BestFor(sc, n + 1, best'[i], i)
    {
      CurrentIsCandidate(sc, n + 1, cur, i);
      BestStep(sc, n, best[i], cur.(iCol := i), i);
    }
  }

  // When the group of column i closes, its best row, given the final size of
  // the group, is a candidate for the reservoir.
  lemma BestIsCandidate(sc: Scan, n: nat, b: Sample, cur: seq<nat>, i: nat)
    requires 0 < n <= |sc.rows| && Sorted(sc.rows, sc.nCol) && BestFor(sc, n, b, i) && CurrentEq(sc, n, cur)
    ensures Candidate(sc, n, b.(anEq := b.anEq[i := cur[i]]), i)
  {
    hide NEq, NLt, NDLt, Better;
    NEqSame(sc.rows, n, Pos(b), n - 1, i);
    forall j | 0 <= j < sc.nCol
      ensures NEq(sc.rows, n, Pos(b), j) > 0
    {
      NEqPositive(sc.rows, sc.nCol, n, Pos(b), j);
    }
  }

  // ----- The start of the scan ---------------------------------------------------------------

  lemma EmptyStore(sc: Scan, st: Store)
    requires Sorted(sc.rows, sc.nCol) && 0 < |sc.rows| && 0 < sc.mxSample && 0 < sc.nPSample && st.a == []
    ensures StoreOk(sc, 1, st, sc.nCol - 1, 0)
  {
    forall k: nat, c: nat | k < 1 && c < sc.nCol
      ensures Agree(sc.rows, k, 0, c)
    {
      AgreeRefl(sc.rows, sc.nCol, 0, c);
    }
  }

  lemma FirstCurrent(sc: Scan, anEq: seq<nat>, anLt: seq<nat>, anDLt: seq<nat>)
    requires Sorted(sc.rows, sc.nCol) && 0 < |sc.rows| && |anEq| == |anLt| == |anDLt| == sc.nCol
    requires forall j {:trigger anEq[j]} :: 0 <= j < sc.nCol ==> anEq[j] == 1
    requires forall j {:trigger anLt[j]} :: 0 <= j < sc.nCol ==> anLt[j] == 0
    requires forall j {:trigger anDLt[j]} :: 0 <= j < sc.nCol ==> anDLt[j] == 0
    ensures CurrentEq(sc, 1, anEq) && CurrentLt(sc, 1, anLt) && CurrentDLt(sc, 1, anDLt)
  {
    forall j | 0 <= j < sc.nCol
      ensures NEq(sc.rows, 1, 0, j) == 1 && NLt(sc.rows, 1, 0, j) == 0 && NDLt(sc.rows, 1, 0, j) == 0
    {
      FirstRow(sc.rows, sc.nCol, j);
    }
  }

  // The arrays of the current row make a sample of it.
  lemma CurrentIsSample(sc: Scan, n: nat, s: Sample)
    requires Sorted(sc.rows, sc.nCol) && 0 < n <= |sc.rows| && n <= |sc.rowids| && s.rowid == sc.rowids[n - 1]
    requires CurrentEq(sc, n, s.anEq) && CurrentLt(sc, n, s.anLt) && CurrentDLt(sc, n, s.anDLt) && s.iCol < sc.nCol
    ensures CurrentSample(sc, n, s)
  {
    WholeRow(sc.rows, sc.nCol, n, n - 1);
  }

  // ----- What the finished reservoir says ------------------------------------------------------

  // After the final push no count is missing: every kept sample carries the
  // rowid, nEq, nLt and nDLt of its row over the whole index.
  lemma {:induction false} FinalExact(sc: Scan, st: Store, m: nat)
    requires StoreSettled(sc, |sc.rows|, st, 0, m)
    ensures forall x {:trigger st.a[x]} :: 0 <= x < |st.a| ==>
              && Pos(st.a[x]) < |sc.rows| && st.a[x].rowid == sc.rowids[Pos(st.a[x])]
              && forall j :: 0 <= j < sc.nCol ==>
                   && st.a[x].anEq[j] == NEq(sc.rows, |sc.rows|, Pos(st.a[x]), j) > 0
                   && st.a[x].anLt[j] == NLt(sc.rows, |sc.rows|, Pos(st.a[x]), j)
                   && st.a[x].anDLt[j] == NDLt(sc.rows, |sc.rows|, Pos(st.a[x]), j)
  {
    hide NEq, NLt, NDLt, Agree, Better, Covered, Periodics, Least;
    forall x, j | 0 <= x < |st.a| && 0 <= j < sc.nCol
      ensures Settled(sc, |sc.rows|, st.a[x], 0)
      ensures NEq(sc.rows, |sc.rows|, Pos(st.a[x]), j) > 0
    {
      assert Settled(sc, |sc.rows|, st.a[x], 0);
      NEqPositive(sc.rows, sc.nCol, |sc.rows|, Pos(st.a[x]), j);
    }
  }

  // Every group of rows sharing a prefix is represented by a kept sample, or
  // the reservoir is full of samples that stand for groups at least as large.
  lemma {:induction false} FinalCoverage(sc: Scan, st: Store, m: nat, k: nat, c: nat)
    requires StoreSettled(sc, |sc.rows|, st, 0, m) && k < |sc.rows| && c < sc.nCol - 1
    ensures (exists x :: 0 <= x < |st.a| && Agree(sc.rows, Pos(st.a[x]), k, c)) ||
            (|st.a| == sc.mxSample && forall x :: 0 <= x < |st.a| && !st.a[x].isPSample ==>
               NEq(sc.rows, |sc.rows|, k, c) <= st.a[x].anEq[st.a[x].iCol])
  {
    hide NEq, NLt, NDLt, Agree, Better, Periodics;
    assert CoveredGroup(sc, |sc.rows|, st, k, c);
    if x :| Stands(sc, st.a, x, k, c) {
      assert 0 <= x < |st.a| && Agree(sc.rows, Pos(st.a[x]), k, c);
    } else {
      forall x | 0 <= x < |st.a| && !st.a[x].isPSample
        ensures st.a[st.iMin].anEq[st.a[st.iMin].iCol] <= st.a[x].anEq[st.a[x].iCol]
      {
        BetterCases(st.a[st.iMin], st.a[x]);
      }
    }
  }
}
