/** The accumulator object behind stat_init(), stat_push() and stat_get(). */
module Accumulator {
  import opened Options
  import opened Arith
  import opened Estimates
  import opened IndexRows
  import opened Reservoir
  import opened StatInvariants
  import opened StatSteps

  function NextHash(iPrn: nat): nat {
    (iPrn * 1103515245 + 12345) % 0x1_0000_0000
  }

  // Different states of the generator have different successors, so it never merges two
  // sequences of hashes.
  lemma HashDiffers(a: nat, b: nat)
    requires a < 0x1_0000_0000 && b < 0x1_0000_0000 && a != b
    ensures NextHash(a) != NextHash(b)
  {
    if NextHash(a) == NextHash(b) {
      var t := ModDiff(a * 1103515245 + 12345, b * 1103515245 + 12345, 0x1_0000_0000);
      NoCommonMultiple(a - b, t);
    }
  }

  // The multiplier has an inverse modulo 2^32.
  lemma NoCommonMultiple(d: int, t: int)
    requires d * 1103515245 == t * 0x1_0000_0000 && -0x1_0000_0000 < d < 0x1_0000_0000
    ensures d == 0
  {
    var q := t * 4005161829 - d * 1029054899;
    assert d == q * 0x1_0000_0000;
  }

  lemma ModDiff(x: nat, y: nat, m: nat) returns (t: int)
    requires m > 0 && x % m == y % m
    ensures x - y == t * m
  {
    t := x / m - y / m;
    assert x == (x / m) * m + x % m && y == (y / m) * m + y % m;
  }

  method SampleIsBetterPost(s: Sample, t: Sample, nCol: nat) returns (better: bool)
    requires Shaped(s, nCol) && Shaped(t, nCol) && s.iCol == t.iCol
    ensures better == BetterPost(s, t)
  {
    hide FirstDiff;
    var i := s.iCol + 1;
    while i < nCol
      invariant s.iCol < i <= nCol
      invariant BetterPost(s, t) <==> LexGreater(s.anEq[i..] + [s.iHash], t.anEq[i..] + [t.iHash])
    {
      assert s.anEq[i..] + [s.iHash] == [s.anEq[i]] + (s.anEq[i + 1..] + [s.iHash]);
      assert t.anEq[i..] + [t.iHash] == [t.anEq[i]] + (t.anEq[i + 1..] + [t.iHash]);
      LexStep(s.anEq[i], t.anEq[i], s.anEq[i + 1..] + [s.iHash], t.anEq[i + 1..] + [t.iHash]);
      if s.anEq[i] > t.anEq[i] { return true; }
      if s.anEq[i] < t.anEq[i] { return false; }
      i := i + 1;
    }
    assert s.anEq[i..] + [s.iHash] == [s.iHash] + [];
    assert t.anEq[i..] + [t.iHash] == [t.iHash] + [];
    LexStep(s.iHash, t.iHash, [], []);
    return s.iHash > t.iHash;
  }

  method SampleIsBetter(s: Sample, t: Sample, nCol: nat) returns (better: bool)
    requires Shaped(s, nCol) && Shaped(t, nCol)
    ensures better == Better(s, t)
  {
    BetterCases(s, t);
    var nEqNew, nEqOld := s.anEq[s.iCol], t.anEq[t.iCol];
    if nEqNew > nEqOld { return true; }
    if nEqNew == nEqOld {
      if s.iCol < t.iCol { return true; }
      if s.iCol == t.iCol {
        better := SampleIsBetterPost(s, t, nCol);
        return better;
      }
    }
    return false;
  }

  // If the sample at i beats the one at u, it beats all that u is not
  // beaten by.
  lemma Beaten(nCol: nat, s: seq<Sample>, c: nat, i: int, u: int)
    requires AllShaped(s, nCol) && 0 <= i < u < |s| && Open(s, c, u)
    requires forall x: nat {:trigger Open(s, c, x)} :: i < x && Open(s, c, x) && x != u ==>
               !Better(s[x], s[u]) && (u < x ==> Better(s[u], s[x]))
    ensures Better(s[i], s[u]) ==> forall x: nat {:trigger Open(s, c, x)} :: i < x && Open(s, c, x) ==>
        Better(s[i], s[x]) && !Better(s[x], s[i])
  {
    if Better(s[i], s[u]) {
      forall x: nat | i < x && Open(s, c, x)
        ensures Better(s[i], s[x]) && !Better(s[x], s[i])
      {
        if x != u { BetterChain(s[i], s[u], s[x], nCol); }
        BetterOrder(s[x], s[i], s[x], nCol);
      }
    }
  }

  lemma Undercut(nCol: nat, s: seq<Sample>, i: int, best: int)
    requires AllShaped(s, nCol) && 0 <= best < i < |s|
    requires forall x {:trigger s[x]} :: 0 <= x < i && x != best && !s[x].isPSample ==>
               !Better(s[best], s[x]) && (x < best ==> Better(s[x], s[best]))
    ensures Better(s[best], s[i]) ==> forall x {:trigger s[x]} :: 0 <= x < i && !s[x].isPSample ==>
        Better(s[x], s[i]) && !Better(s[i], s[x])
  {
    if Better(s[best], s[i]) {
      forall x | 0 <= x < i && !s[x].isPSample
        ensures Better(s[x], s[i]) && !Better(s[i], s[x])
      {
        if x != best { BetterChain(s[x], s[best], s[i], nCol); }
        BetterOrder(s[x], s[i], s[x], nCol);
      }
    }
  }

  lemma {:induction false} WithoutCount(a: seq<Sample>, m: nat)
    requires m < |a|
    ensures PeriodicCount(Without(a, m)) + (if a[m].isPSample then 1 else 0) == PeriodicCount(a)
    decreases |a|
  {
    var last := |a| - 1;
    if m == last {
      assert Without(a, m) == a[..last];
    } else {
      WithoutCount(a[..last], m);
      assert Without(a, m)[..last - 1] == Without(a[..last], m);
      assert Without(a, m)[last - 1] == a[last];
    }
  }

  // What is kept, with the new sample after it, is well formed and ordered.
  lemma KeptShaped(mx: nat, st: Store, s: Sample, nEqZero: nat, nCol: nat)
    requires AllShaped(st.a, nCol) && Shaped(s, nCol) && nEqZero < nCol && (|st.a| >= mx ==> st.iMin < |st.a|)
    requires AllBefore(st.a, Pos(s))
    ensures AllShaped(Kept(mx, st) + [Blanked(s, nEqZero)], nCol)
    ensures Blanked(s, nEqZero).isPSample == s.isPSample
    ensures var b := Kept(mx, st); |b| > 0 ==> Shaped(b[|b| - 1], nCol) && Pos(b[|b| - 1]) < Pos(s)
  {
    forall x | 0 <= x < |Kept(mx, st)|
      ensures Was(mx, st, x) < |st.a| && Kept(mx, st)[x] == st.a[Was(mx, st, x)]
    {
      KeptAt(mx, st, s, x);
    }
  }

  // After an insertion there is a victim again.
  lemma {:induction false} VictimExists(mx: nat, st: Store, t: Sample)
    requires |st.a| >= mx ==> st.iMin < |st.a|
    requires t.isPSample ==> PeriodicCount(st.a) + 1 < mx
    ensures var b := Kept(mx, st) + [t]; |b| >= mx ==> exists x :: 0 <= x < |b| && !b[x].isPSample
  {
    var b := Kept(mx, st) + [t];
    if |b| >= mx && forall x :: 0 <= x < |b| ==> b[x].isPSample {
      AllPeriodic(b);
      assert b[..|b| - 1] == Kept(mx, st) && b[|b| - 1] == t;
      if |st.a| >= mx { WithoutCount(st.a, st.iMin); }
    }
  }

  // What sampleInsert asserts about the reservoir holds for every candidate.
  lemma CandidateReady(sc: Scan, n: nat, st: Store, new_: Sample, l: nat)
    requires 0 < l && Core(sc, n, st, l) && Candidate(sc, n, new_, l - 1)
    ensures new_.anEq[l - 1] > 0
    ensures forall x: nat {:trigger Open(st.a, l - 1, x)} ::
              Open(st.a, l - 1, x) && !st.a[x].isPSample ==> st.a[x].iCol > l - 1 && Better(new_, st.a[x])
    ensures !SomeOpen(st.a, l - 1) ==> AllBefore(st.a, Pos(new_))
  {
    forall x: nat | Open(st.a, l - 1, x) && !st.a[x].isPSample
      ensures st.a[x].iCol > l - 1 && Better(new_, st.a[x])
    {
      NewBeatsOpen(sc, n, st, l, l - 1, new_, x);
    }
    if !SomeOpen(st.a, l - 1) { NewIsLast(sc, n, st, new_, l); }
    assert new_.anEq[l - 1] != 0;
  }

  // "No worse" chains along a run.
  lemma VictimTransitive(sc: Scan, s: Store, t: Store, u: Store)
    requires VictimNoWorse(sc, s, t) && VictimNoWorse(sc, t, u)
    ensures VictimNoWorse(sc, s, u)
  {
    if |s.a| >= sc.mxSample > 0 && Better(s.a[s.iMin], u.a[u.iMin]) {
      BetterChain(s.a[s.iMin], u.a[u.iMin], t.a[t.iMin], sc.nCol);
      assert false;
    }
  }

  // A periodic sample always fits: it comes last and leaves a victim.
  lemma PeriodicReady(sc: Scan, nEst: nat, n: nat, st: Store)
    requires 0 < n <= nEst && 0 < sc.nCol && StoreOk(sc, n, st, sc.nCol - 1, n - 1) && Multiple(n, sc.nPSample)
    requires sc.nPSample == Interval(nEst, sc.mxSample)
    requires AllBefore(st.a, n - 1)
    ensures PeriodicCount(st.a) + 1 < sc.mxSample
  {
    hide NEq, NLt, NDLt, Agree, Better, Interval;
    LevelsDue(sc, n, st.a, sc.nCol - 1, n - 1);
    PeriodicRoom(sc, n, st.a);
    ThirdOfBudget(nEst, sc.mxSample, n);
  }

  method RoundUp(nRow: nat, nDistinct: nat) returns (iVal: nat)
    requires nDistinct > 0
    ensures iVal == Estimate(nRow, nDistinct)
  {
    iVal := (nRow + nDistinct - 1) / nDistinct;
    if iVal == 2 && nRow * 10 <= nDistinct * 11 { iVal := 1; }
  }

  class StatAccum {
    // The index that is going to be scanned; the object never reads it.
    ghost const rows: seq<Row>
    ghost const rowids: seq<int>

    const nEst: nat
    const nCol: nat
    const nKeyCol: nat
    const mxSample: nat
    const nPSample: nat

    var nRow: nat
    var iPrn: nat

    // The current row as a sample.
    const curEq: array<nat>
    const curLt: array<nat>
    const curDLt: array<nat>
    var curRowid: int
    var curIsPSample: bool
    var curCol: nat
    var curHash: nat

    // The best rows of the current groups, and the reservoir.
    const aBest: array<Sample>
    const a: array<Sample>
    var iMin: nat
    var nSample: nat
    var nMaxEqZero: nat
    var iGet: int

    ghost function Sc(): Scan {
      Scan(rows, rowids, nCol, mxSample, nPSample)
    }

    ghost function View(): Store
      requires nSample <= a.Length
      reads this`nSample, this`iMin, this`nMaxEqZero, a
    {
      Store(a[..nSample], iMin, nMaxEqZero)
    }

    function Current(): Sample
      reads this, curEq, curLt, curDLt
    {
      Sample(curEq[..], curLt[..], curDLt[..], curRowid, curIsPSample, curCol, curHash)
    }

    // The buffers are separate objects of the right sizes.
    ghost predicate Layout() {
      && curEq.Length == curLt.Length == curDLt.Length == aBest.Length == nCol
      && a.Length == mxSample && 0 < nKeyCol <= nCol
      && curEq != curLt && curEq != curDLt && curLt != curDLt && a != aBest
      && (curEq as object) != a && (curLt as object) != a && (curDLt as object) != a
      && (curEq as object) != aBest && (curLt as object) != aBest && (curDLt as object) != aBest
    }

    // The samples in the reservoir are well formed and the victim is known.
    ghost predicate StoreShaped()
      reads this`nSample, this`iMin, this`nMaxEqZero, a
    {
      && Layout() && nSample <= mxSample && 0 < mxSample && AllShaped(a[..nSample], nCol)
      && (nSample >= mxSample ==> Least(a[..nSample], nCol, iMin))
    }

    // Find the best open sample for column iCol, unless a periodic one is open.
    method FindUpgrade(new_: Sample) returns (periodic: bool, u: int)
      requires StoreShaped() && Shaped(new_, nCol)
      requires forall x: nat {:trigger Open(a[..nSample], new_.iCol, x)} ::
                 Open(a[..nSample], new_.iCol, x) && !a[x].isPSample ==> a[x].iCol > new_.iCol && Better(new_, a[x])
      ensures periodic == OpenPeriodic(a[..nSample], new_.iCol)
      ensures !periodic ==> (u >= 0 <==> SomeOpen(a[..nSample], new_.iCol))
      ensures !periodic && u >= 0 ==> Open(a[..nSample], new_.iCol, u) && BestOpen(a[..nSample], nCol, new_.iCol, u)
    {
      hide Better;
      ghost var s := a[..nSample];
      var c := new_.iCol;
      u := -1;
      var i := nSample - 1;
      while i >= 0
        invariant -1 <= i < nSample
        invariant forall x: nat {:trigger Open(s, c, x)} :: i < x && Open(s, c, x) ==> !s[x].isPSample && u != -1
        invariant u != -1 ==> i < u < nSample && Open(s, c, u)
        invariant u != -1 ==> forall x: nat {:trigger Open(s, c, x)} :: i < x && Open(s, c, x) && x != u ==>
                    !Better(s[x], s[u]) && (u < x ==> Better(s[u], s[x]))
      {
        var pOld := a[i];
        assert pOld == s[i];
        if pOld.anEq[c] == 0 {
          assert Open(s, c, i);
          if pOld.isPSample { return true, -1; }
          assert pOld.iCol > c;
          assert Better(new_, pOld);
          var better := true;
          if u != -1 {
            better := SampleIsBetter(pOld, a[u], nCol);
            Beaten(nCol, s, c, i, u);
          }
          if better { u := i; }
        }
        i := i - 1;
      }
      periodic := false;
    }

    // Once the reservoir is full, find the next victim.
    method FindNewMin()
      requires Layout() && nSample <= mxSample && 0 < mxSample && AllShaped(a[..nSample], nCol)
      requires nSample >= mxSample ==> exists x :: 0 <= x < nSample && !a[x].isPSample
      modifies this`iMin
      ensures if nSample >= mxSample then Least(a[..nSample], nCol, iMin) else iMin == old(iMin)
    {
      hide Better;
      if nSample >= mxSample {
        ghost var s := a[..nSample];
        var best := -1;
        var i := 0;
        while i < mxSample
          invariant 0 <= i <= mxSample
          invariant best == -1 ==> forall x {:trigger s[x]} :: 0 <= x < i ==> s[x].isPSample
          invariant best != -1 ==> 0 <= best < i && !s[best].isPSample
          invariant best != -1 ==> forall x {:trigger s[x]} :: 0 <= x < i && x != best && !s[x].isPSample ==>
                      !Better(s[best], s[x]) && (x < best ==> Better(s[x], s[best]))
        {
          assert a[i] == s[i];
          if !a[i].isPSample {
            var replace := true;
            if best != -1 {
              replace := SampleIsBetter(a[best], a[i], nCol);
              assert a[best] == s[best];
              Undercut(nCol, s, i, best);
            }
            if replace { best := i; }
          }
          i := i + 1;
        }
        assert best >= 0;
        iMin := best;
      }
    }

    // Give sample u the priority of new_.
    method UpgradeSample(u: nat, new_: Sample)
      requires StoreShaped() && Shaped(new_, nCol) && u < nSample && !a[u].isPSample
      modifies a, this`iMin
      ensures AllShaped(a[..nSample], nCol)
          && a[..nSample] == old(a[..nSample])[u := Upgrade(old(a[..nSample])[u], new_)]
      ensures if nSample >= mxSample then Least(a[..nSample], nCol, iMin) else iMin == old(iMin)
    {
      ghost var s := a[..nSample];
      a[u] := Upgrade(a[u], new_);
      assert a[..nSample] == s[u := Upgrade(s[u], new_)];
      assert !a[u].isPSample;
      FindNewMin();
    }

    // If the reservoir is full, close the gap over the victim.
    method MakeRoom()
      requires Layout() && nSample <= mxSample && 0 < mxSample && (nSample >= mxSample ==> iMin < nSample)
      modifies a, this`nSample
      ensures nSample < mxSample && a[..nSample] == Kept(mxSample, old(View()))
    {
      ghost var was := View();
      if nSample >= mxSample {
        forall x | iMin <= x < nSample - 1 { a[x] := a[x + 1]; }
        nSample := mxSample - 1;
      }
      assert a[..nSample] == Kept(mxSample, was);
    }

    method PutLast(t: Sample)
      requires nSample < a.Length
      modifies a, this`nSample
      ensures nSample == old(nSample) + 1 <= a.Length && a[..nSample] == old(a[..nSample]) + [t]
    {
      a[nSample] := t;
      nSample := nSample + 1;
    }

    // Evict the victim if the reservoir is full, and append the new sample.
    method AppendSample(new_: Sample, nEqZero: nat)
      requires Layout() && nSample <= mxSample && 0 < mxSample && AllShaped(a[..nSample], nCol)
      requires nSample >= mxSample ==> iMin < nSample
      requires Shaped(new_, nCol) && nEqZero < nCol
      requires AllBefore(a[..nSample], Pos(new_))
      requires new_.isPSample ==> PeriodicCount(a[..nSample]) + 1 < mxSample
      modifies a, this`iMin, this`nSample
      ensures nSample <= mxSample
      ensures AllShaped(a[..nSample], nCol) && a[..nSample] == Kept(mxSample, old(View())) + [Blanked(new_, nEqZero)]
      ensures if nSample >= mxSample then Least(a[..nSample], nCol, iMin) else iMin == old(iMin)
    {
      ghost var was := View();
      assert was.a == a[..nSample] && was.iMin == iMin;
      hide *;
      var t := Blanked(new_, nEqZero);
      KeptShaped(mxSample, was, new_, nEqZero, nCol);
      VictimExists(mxSample, was, t);
      MakeRoom();
      assert nSample == 0 || Pos(new_) > Pos(a[nSample - 1]);
      PutLast(t);
      FindNewMin();
    }

    // Copy a sample into the reservoir, evicting the victim if it is full; or
    // upgrade an open sample of the same group; or do nothing if the group
    // already has a periodic one.
    method SampleInsert(new_: Sample, nEqZero: nat)
      requires StoreShaped() && Shaped(new_, nCol) && nEqZero < nCol
      requires !new_.isPSample ==> new_.anEq[new_.iCol] > 0
      requires !new_.isPSample ==> forall x: nat {:trigger Open(a[..nSample], new_.iCol, x)} ::
                 Open(a[..nSample], new_.iCol, x) && !a[x].isPSample ==> a[x].iCol > new_.iCol && Better(new_, a[x])
      requires new_.isPSample || !SomeOpen(a[..nSample], new_.iCol) ==> AllBefore(a[..nSample], Pos(new_))
      requires new_.isPSample ==> PeriodicCount(a[..nSample]) + 1 < mxSample
      modifies a, this`iMin, this`nSample, this`nMaxEqZero
      ensures StoreShaped() && Inserted(mxSample, nCol, old(View()), new_, nEqZero, View())
    {
      hide Better, BestOpen, PeriodicCount, Without, Blanked, Upgrade, AllBefore;
      ghost var s := a[..nSample];
      if nEqZero > nMaxEqZero { nMaxEqZero := nEqZero; }
      if !new_.isPSample {
        assert new_.anEq[new_.iCol] > 0;
        var periodic, u := FindUpgrade(new_);
        if periodic { return; }
        if u >= 0 {
          assert s == a[..nSample] && a[u] == s[u];
          UpgradeSample(u, new_);
          return;
        }
      }
      AppendSample(new_, nEqZero);
    }

    // Insert a candidate unless the reservoir is full of better ones.
    method PushCandidate(best: Sample)
      requires StoreShaped() && Shaped(best, nCol) && !best.isPSample && best.anEq[best.iCol] > 0
      requires forall x: nat {:trigger Open(a[..nSample], best.iCol, x)} ::
                 Open(a[..nSample], best.iCol, x) && !a[x].isPSample ==> a[x].iCol > best.iCol && Better(best, a[x])
      requires !SomeOpen(a[..nSample], best.iCol) ==> AllBefore(a[..nSample], Pos(best))
      modifies a, this`iMin, this`nSample, this`nMaxEqZero
      ensures StoreShaped() && Pushed(Sc(), old(View()), best, best.iCol, View())
    {
      var push := nSample < mxSample;
      if !push {
        assert a[iMin] == a[..nSample][iMin];
        push := SampleIsBetter(best, a[iMin], nCol);
      }
      if push { SampleInsert(best, best.iCol); }
    }

    // The group of column i closes: push its best row.
    method PushBest(i: nat)
      requires StoreShaped() && i < nCol - 1
      requires 0 < nRow && StoreOk(Sc(), nRow, View(), i + 1, nRow)
      requires CurrentEq(Sc(), nRow, curEq[..]) && BestFor(Sc(), nRow, aBest[i], i)
      modifies a, aBest, this`iMin, this`nSample, this`nMaxEqZero
      ensures StoreShaped() && StoreOk(Sc(), nRow, View(), i, nRow)
      ensures VictimNoWorse(Sc(), old(View()), View())
      ensures Shaped(aBest[i], nCol) && forall x :: 0 <= x < nCol && x != i ==> aBest[x] == old(aBest[x])
    {
      hide NEq, NLt, NDLt, Better, Agree, Covered, Leader, Periodics, Level, Pushed;
      ghost var was := View();
      BestIsCandidate(Sc(), nRow, aBest[i], curEq[..], i);
      var best := aBest[i].(anEq := aBest[i].anEq[i := curEq[i]]);
      aBest[i] := best;
      assert View() == was;
      assert Candidate(Sc(), nRow, best, i);
      CandidateReady(Sc(), nRow, was, best, i + 1);
      PushCandidate(best);
      PushStep(Sc(), nRow, was, best, i + 1, nRow, View());
    }

    // Push the best rows of all groups that close, finest first.
    method PushClosing(iChng: nat)
      requires StoreShaped() && iChng < nCol
      requires 0 < nRow && StoreOk(Sc(), nRow, View(), nCol - 1, nRow)
      requires CurrentEq(Sc(), nRow, curEq[..]) && BestRows(Sc(), nRow, aBest[..])
      modifies a, aBest, this`iMin, this`nSample, this`nMaxEqZero
      ensures StoreShaped() && StoreOk(Sc(), nRow, View(), iChng, nRow)
      ensures VictimNoWorse(Sc(), old(View()), View())
      ensures AllShaped(aBest[..], nCol) && forall x :: 0 <= x < iChng ==> aBest[x] == old(aBest[x])
    {
      hide StoreOk, NEq, NLt, NDLt, Better, Agree;
      ghost var was, best := View(), aBest[..];
      assert VictimNoWorse(Sc(), was, View()) by { VictimSame(Sc(), was, was); }
      var i := nCol - 2;
      while i >= iChng
        invariant iChng - 1 <= i <= nCol - 2
        invariant StoreShaped() && StoreOk(Sc(), nRow, View(), i + 1, nRow)
        invariant VictimNoWorse(Sc(), was, View())
        invariant forall x :: 0 <= x < nCol ==> Shaped(aBest[x], nCol) && (x <= i || x < iChng ==> aBest[x] == best[x])
      {
        ghost var mid := View();
        assert BestFor(Sc(), nRow, best[i], i);
        PushBest(i);
        VictimTransitive(Sc(), was, mid, View());
        i := i - 1;
      }
    }

    // Give the samples of the groups that closed their counts.
    method FillClosed(iChng: nat)
      requires Layout() && nSample <= mxSample && AllShaped(a[..nSample], nCol) && iChng < nCol
      requires NoBlankFrom(a[..nSample], nCol, nMaxEqZero)
      modifies a, this`nMaxEqZero
      ensures FilledStore(Sc(), old(View()), curEq[..], iChng, View())
    {
      ghost var s, cur := a[..nSample], curEq[..];
      if iChng < nMaxEqZero {
        var i := nSample - 1;
        while i >= 0
          invariant -1 <= i < nSample
          invariant forall x {:trigger a[x]} :: 0 <= x < nSample ==>
                      a[x] == if x <= i then s[x] else Filled(s[x], cur, iChng)
        {
          var j := iChng;
          var anEq := a[i].anEq;
          while j < nCol
            invariant iChng <= j <= nCol && |anEq| == nCol
            invariant forall y :: 0 <= y < nCol ==>
                        anEq[y] == if iChng <= y < j && s[i].anEq[y] == 0 then curEq[y] else s[i].anEq[y]
          {
            if anEq[j] == 0 { anEq := anEq[j := curEq[j]]; }
            j := j + 1;
          }
          assert anEq == Filled(s[i], cur, iChng).anEq;
          a[i] := a[i].(anEq := anEq);
          i := i - 1;
        }
        nMaxEqZero := iChng;
      } else {
        forall x | 0 <= x < nSample
          ensures Filled(s[x], cur, iChng).anEq == s[x].anEq
        {
          assert forall j :: nMaxEqZero <= j < nCol ==> s[x].anEq[j] != 0;
        }
      }
    }

    // Column iChng is about to change: close the groups of the last row from
    // that column on.
    method SamplePushPrevious(iChng: nat)
      requires StoreShaped() && iChng < nCol
      requires 0 < nRow && StoreOk(Sc(), nRow, View(), nCol - 1, nRow)
      requires CurrentEq(Sc(), nRow, curEq[..]) && BestRows(Sc(), nRow, aBest[..])
      modifies a, aBest, this`iMin, this`nSample, this`nMaxEqZero
      ensures StoreShaped() && StoreSettled(Sc(), nRow, View(), iChng, nRow)
      ensures VictimNoWorse(Sc(), old(View()), View())
      ensures AllShaped(aBest[..], nCol) && forall x :: 0 <= x < iChng ==> aBest[x] == old(aBest[x])
    {
      hide Covered, Leader, Periodics, Level, NEq, NLt, NDLt, Better, Agree;
      ghost var was := View();
      PushClosing(iChng);
      ghost var mid := View();
      // No sample has a zero at or beyond nMaxEqZero.
      assert NoBlankFrom(a[..nSample], nCol, nMaxEqZero);
      FillClosed(iChng);
      FillStep(Sc(), nRow, mid, curEq[..], iChng, nRow, View());
      VictimTransitive(Sc(), was, mid, View());
    }

    // The counters of the current row are those of row n-1.
    ghost predicate Counters(n: nat)
      reads curEq, curLt, curDLt
    {
      && CurrentEq(Sc(), n, curEq[..]) && CurrentDLt(Sc(), n, curDLt[..])
      && (0 < mxSample ==> CurrentLt(Sc(), n, curLt[..]))
    }

    // The best rows of the groups that row n-1 shares with the row after it.
    ghost predicate BestUpto(n: nat, c: nat)
      reads aBest
    {
      BestShared(Sc(), n, aBest[..], c)
    }

    // Rows 0..n-1 have been read and rows 0..m-1 considered for the reservoir.
    ghost predicate Sampled(n: nat, m: nat)
      reads this`nSample, this`iMin, this`nMaxEqZero, a
    {
      && StoreShaped() && StoreOk(Sc(), n, View(), nCol - 1, m) && AllBefore(a[..nSample], m)
    }

    // ----- stat_init() -------------------------------------------------------

    constructor (ghost rows: seq<Row>, ghost rowids: seq<int>, nCol: nat, nKeyCol: nat, nEst: nat,
        mxSample: nat, iPrn: nat)
      requires Sorted(rows, nCol) && |rowids| == |rows| <= nEst && 0 < nKeyCol <= nCol
      ensures Valid() && nRow == 0 && iGet == -1
      ensures this.rows == rows && this.rowids == rowids && this.nCol == nCol && this.nKeyCol == nKeyCol
      ensures this.nEst == nEst && this.mxSample == mxSample && this.iPrn == iPrn
          && nPSample == Interval(nEst, mxSample)
      ensures Sc() == Scan(rows, rowids, nCol, mxSample, Interval(nEst, mxSample))
      ensures ClosestSpacing(nPSample, nEst, mxSample)
      ensures fresh(curEq) && fresh(curLt) && fresh(curDLt) && fresh(aBest) && fresh(a)
    {
      this.rows, this.rowids := rows, rowids;
      this.nEst, this.nCol, this.nKeyCol, this.mxSample := nEst, nCol, nKeyCol, mxSample;
      this.nPSample := nEst / (mxSample / 3 + 1) + 1;
      nRow, this.iPrn := 0, iPrn;
      curEq := new nat[nCol](_ => 0);
      curLt := new nat[nCol](_ => 0);
      curDLt := new nat[nCol](_ => 0);
      curRowid, curIsPSample, curCol, curHash := 0, false, 0, 0;
      aBest := new Sample[nCol](i requires 0 <= i < nCol =>
        Sample(Zeros(nCol), Zeros(nCol), Zeros(nCol), 0, false, i, 0));
      a := new Sample[mxSample](_ => Sample(Zeros(nCol), Zeros(nCol), Zeros(nCol), 0, false, 0, 0));
      iMin, nSample, nMaxEqZero, iGet := 0, 0, 0, -1;
      new;
      IntervalIsClosest(nEst, mxSample);
    }

    // Before the first row.
    ghost predicate Blank()
      requires Layout()
      reads this`nSample, this`nMaxEqZero, curLt, curDLt, aBest
    {
      && nSample == 0 && nMaxEqZero == 0 && AllShaped(aBest[..], nCol)
      && (forall j {:trigger curLt[j]} :: 0 <= j < nCol ==> curLt[j] == 0)
      && (forall j {:trigger curDLt[j]} :: 0 <= j < nCol ==> curDLt[j] == 0)
    }

    // After nRow rows: the counters of the current row are exact, and so is
    // everything the reservoir knows.
    ghost predicate Running()
      requires Layout()
      reads this, curEq, curLt, curDLt, aBest, a
    {
      && Counters(nRow) && nSample <= mxSample
      && (0 < mxSample ==> BestRows(Sc(), nRow, aBest[..]) && Sampled(nRow, nRow))
    }

    ghost predicate Setting() {
      && Layout() && Sorted(rows, nCol) && |rowids| == |rows| <= nEst
      && nPSample == Interval(nEst, mxSample)
    }

    ghost predicate Valid()
      reads this, curEq, curLt, curDLt, aBest, a
    {
      && Setting() && nRow <= |rows| && !curIsPSample && curCol < nCol
      && if nRow == 0 then Blank() else Running()
    }

    // At any time at most a third of the reservoir is periodic, and a full
    // reservoir has a sample that may be evicted.
    lemma AtMostThird()
      requires Valid() && 0 < mxSample
      ensures nSample <= a.Length && PeriodicCount(View().a) <= mxSample / 3 && ClosestSpacing(nPSample, nEst, mxSample)
      ensures nSample == mxSample ==> exists x :: 0 <= x < nSample && !a[x].isPSample
    {
      hide NEq, NLt, NDLt, Agree, Better, Interval, Sorted, CurrentEq, CurrentLt, CurrentDLt, BestRows, Covered,
          Leader, Least;
      IntervalIsClosest(nEst, mxSample);
      if nRow > 0 {
        LevelsDue(Sc(), nRow, View().a, nCol - 1, nRow);
        PeriodicThird(Sc(), nEst, nRow, View().a);
      }
    }

    // ----- stat_push() ----------------------------------------------------------

    // Move the counters of the current row on by one row.
    method AdvanceCurrent(iChng: nat)
      requires Setting() && 0 < nRow < |rows| && iChng == Change(rows, nRow) <= nCol
      requires Counters(nRow)
      modifies curEq, curLt, curDLt
      ensures Counters(nRow + 1)
    {
      hide NEq, NLt, NDLt, Change, Sorted;
      ghost var eq, lt, dlt := curEq[..], curLt[..], curDLt[..];
      var i := 0;
      while i < iChng
        invariant 0 <= i <= iChng
        invariant forall j :: 0 <= j < nCol ==> curEq[j] == eq[j] + if j < i then 1 else 0
        invariant curLt[..] == lt && curDLt[..] == dlt
      {
        curEq[i] := curEq[i] + 1;
        i := i + 1;
      }
      i := iChng;
      while i < nCol
        invariant iChng <= i <= nCol
        invariant forall j :: 0 <= j < nCol ==>
                    && curEq[j] == (if j < iChng then eq[j] + 1 else if j < i then 1 else eq[j])
                    && curDLt[j] == (if iChng <= j < i then dlt[j] + 1 else dlt[j])
                    && curLt[j] == (if iChng <= j < i && mxSample > 0 then lt[j] + eq[j] else lt[j])
      {
        curDLt[i] := curDLt[i] + 1;
        if mxSample > 0 { curLt[i] := curLt[i] + curEq[i]; }
        curEq[i] := 1;
        i := i + 1;
      }
      forall j | 0 <= j < nCol
        ensures curEq[j] == NEq(rows, nRow + 1, nRow, j)
        ensures curDLt[j] == NDLt(rows, nRow + 1, nRow, j)
        ensures mxSample > 0 ==> curLt[j] == NLt(rows, nRow + 1, nRow, j)
      {
        CurrentNext(Sc(), nRow, j);
        assert eq[j] == NEq(rows, nRow, nRow - 1, j) && dlt[j] == NDLt(rows, nRow, nRow - 1, j);
        assert mxSample > 0 ==> lt[j] == NLt(rows, nRow, nRow - 1, j);
      }
    }

    // Kind and column of the current row do not matter for its counters.
    lemma CurrentAnyway()
      requires Layout() && CurrentSample(Sc(), nRow, Current())
      ensures CurrentSample(Sc(), nRow, Current().(isPSample := true, iCol := 0))
    {
      hide NEq, NLt, NDLt;
      assert Pos(Current().(isPSample := true, iCol := 0)) == Pos(Current());
    }

    // Is the current row to be a periodic sample?
    predicate IsDue()
      requires Layout() && 0 < nPSample
      reads curLt
    {
      var nLt := curLt[nCol - 1];
      nLt / nPSample != (nLt + 1) / nPSample
    }

    lemma DueIs()
      requires Layout() && 0 < nPSample && 0 < nRow && CurrentSample(Sc(), nRow, Current())
      ensures IsDue() == Multiple(nRow, nPSample)
    {
      hide NEq, NLt, NDLt;
      DivStep(curLt[nCol - 1], nPSample);
    }

    // Insert the current row as a periodic sample.
    method InsertCurrent()
      requires StoreShaped() && Shaped(Current(), nCol) && PeriodicCount(a[..nSample]) + 1 < mxSample
      requires AllBefore(a[..nSample], Pos(Current()))
      modifies a, this`iMin, this`nSample, this`nMaxEqZero, this`curIsPSample, this`curCol
      ensures StoreShaped() && nSample <= a.Length && curCol == 0 && !curIsPSample
      ensures Inserted(mxSample, nCol, old(View()), old(Current()).(isPSample := true, iCol := 0), nCol - 1, View())
    {
      hide Least, Inserted;
      curIsPSample := true;
      curCol := 0;
      SampleInsert(Current(), nCol - 1);
      curIsPSample := false;
    }

    // The current row is due: take it.
    method TakeDue()
      requires Setting() && 0 < nRow <= |rows| && 0 < mxSample && curCol < nCol && !curIsPSample
      requires Sampled(nRow, nRow - 1) && CurrentSample(Sc(), nRow, Current()) && Multiple(nRow, nPSample)
      modifies a, this`iMin, this`nSample, this`nMaxEqZero, this`curIsPSample, this`curCol
      ensures Sampled(nRow, nRow)
      ensures VictimNoWorse(Sc(), old(View()), View()) && curCol < nCol && !curIsPSample
    {
      hide *;
      PeriodicParts();
      PeriodicFits();
      ghost var was, s := View(), Current().(isPSample := true, iCol := 0);
      InsertCurrent();
      PeriodicTaken(Sc(), nRow, was, s, View());
      StillEarlier();
    }

    // Take the current row as a periodic sample if it is due.
    method TakePeriodic()
      requires Setting() && 0 < nRow <= |rows| && 0 < mxSample && curCol < nCol && !curIsPSample
      requires Sampled(nRow, nRow - 1) && CurrentSample(Sc(), nRow, Current())
      modifies a, this`iMin, this`nSample, this`nMaxEqZero, this`curIsPSample, this`curCol
      ensures Sampled(nRow, nRow)
      ensures VictimNoWorse(Sc(), old(View()), View()) && curCol < nCol && !curIsPSample
    {
      PeriodicParts();
      hide *;
      if IsDue() {
        TakeDue();
      } else {
        PeriodicNone(Sc(), nRow, View());
        VictimSame(Sc(), View(), View());
        StillEarlier();
      }
    }

    lemma StillEarlier()
      requires 0 < nRow && StoreShaped() && StoreOk(Sc(), nRow, View(), nCol - 1, nRow)
      ensures Sampled(nRow, nRow)
    {
      hide NEq, NLt, NDLt, Agree, Better, Blanks;
      forall x | 0 <= x < nSample
        ensures |View().a[x].anLt| > 0 && Pos(View().a[x]) < nRow
      {
        assert Level(Sc(), nRow, View().a[x], nCol - 1);
      }
    }

    // What the step for a periodic sample relies on, part by part.
    lemma PeriodicParts()
      requires Setting() && 0 < nRow <= |rows| && 0 < mxSample && Sampled(nRow, nRow - 1)
      requires CurrentSample(Sc(), nRow, Current())
      ensures Sc().nCol == nCol && Sc().mxSample == mxSample && Sc().nPSample == nPSample > 0 && nSample <= a.Length
      ensures StoreShaped() && StoreOk(Sc(), nRow, View(), nCol - 1, nRow - 1)
      ensures Shaped(Current(), nCol) && CurrentSample(Sc(), nRow, Current().(isPSample := true, iCol := 0))
      ensures AllShaped(View().a, nCol) && |View().a| == nSample && (nSample >= mxSample ==> View().iMin < nSample)
      ensures AllBefore(View().a, nRow - 1) && AllBefore(a[..nSample], Pos(Current()))
      ensures Layout() && IsDue() == Multiple(nRow, nPSample)
    {
      hide NEq, NLt, NDLt, StoreOk, Interval, Sorted, Multiple, IsDue, Better;
      DueIs();
      CurrentAnyway();
    }

    lemma PeriodicFits()
      requires Setting() && 0 < nRow <= |rows| && 0 < mxSample && Sampled(nRow, nRow - 1)
      ensures Multiple(nRow, nPSample) ==> PeriodicCount(a[..nSample]) + 1 < mxSample
    {
      hide StoreOk, Interval, Sorted, Multiple, PeriodicCount;
      if Multiple(nRow, nPSample) { PeriodicReady(Sc(), nEst, nRow, View()); }
    }

    // Keep the better of the current row and the best row so far, for every
    // column; columns whose group just began start over.
    method UpdateBest(iChng: nat)
      requires Layout() && AllShaped(aBest[..], nCol) && !curIsPSample && iChng <= nCol && curCol < nCol
      requires forall i {:trigger aBest[..][i]} :: 0 <= i < nCol - 1 && i < iChng ==> aBest[..][i].iCol == i
      modifies aBest, this`curCol
      ensures curCol < nCol && AllShaped(aBest[..], nCol)
      ensures forall i {:trigger aBest[..][i]} :: 0 <= i < nCol - 1 ==>
                aBest[..][i] == BestChoice(iChng, old(aBest[..])[i], old(Current()).(iCol := i), i)
      ensures aBest[nCol - 1] == old(aBest[nCol - 1])
    {
      hide BetterPost;
      ghost var best, cur := aBest[..], Current();
      var i := 0;
      while i < nCol - 1
        invariant 0 <= i <= nCol - 1 && curCol < nCol && Current() == cur.(iCol := curCol)
        invariant forall x :: i <= x < nCol ==> aBest[x] == best[x]
        invariant forall x :: 0 <= x < i ==> aBest[x] == BestChoice(iChng, best[x], cur.(iCol := x), x)
      {
        curCol := i;
        assert aBest[i] == best[i];
        var replace := i >= iChng;
        if !replace { replace := SampleIsBetterPost(Current(), aBest[i], nCol); }
        if replace { aBest[i] := Current(); }
        i := i + 1;
      }
      assert forall x :: 0 <= x < nCol ==> Shaped(aBest[x], nCol);
    }

    // ... so that the best rows of all current groups are known again.
    method ChooseBest(iChng: nat)
      requires Setting() && 0 < nRow <= |rows| && iChng == Change(rows, nRow - 1) <= nCol
      requires curCol < nCol && !curIsPSample && CurrentSample(Sc(), nRow, Current())
      requires BestUpto(nRow - 1, iChng)
      modifies aBest, this`curCol
      ensures BestRows(Sc(), nRow, aBest[..]) && curCol < nCol
    {
      assert iChng > 0 ==> nRow > 1;
      assert forall i {:trigger aBest[..][i]} :: 0 <= i < nCol - 1 && i < iChng ==> aBest[..][i].iCol == i by {
        assert forall i {:trigger aBest[..][i]} :: 0 <= i < nCol - 1 && i < iChng ==>
            BestFor(Sc(), nRow - 1, aBest[..][i], i);
      }
      hide Change, BestChoice, CurrentSample, Sorted, BestUpto, BestShared, BestRows;
      ghost var best, cur := aBest[..], Current();
      assert BestShared(Sc(), nRow - 1, best, iChng);
      UpdateBest(iChng);
      BestAll(Sc(), nRow - 1, best, cur, aBest[..]);
    }

    // Sampling for the row just read.
    method SampleRow(iChng: nat, rowid: int)
      requires Setting() && 0 < nRow <= |rows| && 0 < mxSample && iChng == Change(rows, nRow - 1) <= nCol
      requires curCol < nCol && !curIsPSample && rowid == rowids[nRow - 1]
      requires Counters(nRow) && BestUpto(nRow - 1, iChng) && Sampled(nRow, nRow - 1)
      modifies a, aBest, this`iMin, this`nSample, this`nMaxEqZero, this`curIsPSample, this`curCol
      modifies this`curRowid, this`curHash, this`iPrn
      ensures Sampled(nRow, nRow) && BestRows(Sc(), nRow, aBest[..])
      ensures VictimNoWorse(Sc(), old(View()), View()) && curCol < nCol && !curIsPSample
      ensures iPrn == curHash == NextHash(old(iPrn)) && curRowid == rowid
    {
      hide Change, NextHash, BestUpto, Sampled, VictimNoWorse, BestRows, Sorted, CurrentSample, CurrentEq,
          CurrentLt, CurrentDLt;
      curRowid := rowid;
      iPrn := NextHash(iPrn);
      curHash := iPrn;
      CurrentIsSample(Sc(), nRow, Current());
      TakePeriodic();
      CurrentIsSample(Sc(), nRow, Current());
      ChooseBest(iChng);
    }

    // The first row: every group starts with it.
    method StartCurrent()
      requires Setting() && Blank() && 0 < |rows|
      modifies curEq
      ensures Counters(1) && (0 < mxSample ==> Sampled(1, 0) && BestUpto(0, 0))
    {
      if mxSample > 0 { StartSampling(); }
      hide Sampled, BestUpto, Interval, Sorted;
      var i := 0;
      while i < nCol
        invariant 0 <= i <= nCol
        invariant forall j :: 0 <= j < i ==> curEq[j] == 1
      {
        curEq[i] := 1;
        i := i + 1;
      }
      FirstCurrent(Sc(), curEq[..], curLt[..], curDLt[..]);
    }

    // Nothing has been sampled before the first row.
    lemma StartSampling()
      requires Setting() && Blank() && 0 < |rows| && 0 < mxSample
      ensures Sampled(1, 0) && BestUpto(0, 0)
    {
      EmptyStore(Sc(), View());
    }

    // Close the groups of the last row that the next row leaves.
    method CloseGroups(iChng: nat)
      requires Setting() && 0 < nRow < |rows| && 0 < mxSample && iChng == Change(rows, nRow) < nCol
      requires Counters(nRow) && BestRows(Sc(), nRow, aBest[..]) && Sampled(nRow, nRow)
      modifies a, aBest, this`iMin, this`nSample, this`nMaxEqZero
      ensures Sampled(nRow + 1, nRow) && BestUpto(nRow, iChng) && nSample <= mxSample && nSample <= a.Length
      ensures VictimNoWorse(Sc(), old(View()), View())
    {
      hide NEq, NLt, NDLt, Better, Agree, StoreOk, StoreSettled, VictimNoWorse, Sorted, BestFor, CurrentEq;
      ghost var best := aBest[..];
      SamplePushPrevious(iChng);
      NextRowStep(Sc(), nRow, View());
      assert forall i {:trigger aBest[..][i]} :: 0 <= i < nCol && i < iChng ==> aBest[..][i] == best[i];
    }

    // What Valid() says, part by part.
    lemma ValidParts()
      requires Valid()
      ensures Setting() && nRow <= |rows| && nSample <= mxSample && AllShaped(View().a, nCol)
      ensures nSample >= mxSample > 0 ==> iMin < nSample
      ensures nRow == 0 ==> Blank()
      ensures 0 < nRow ==> Counters(nRow) && (0 < mxSample ==> BestRows(Sc(), nRow, aBest[..]) && Sampled(nRow, nRow))
      ensures VictimNoWorse(Sc(), View(), View()) && curCol < nCol && !curIsPSample
      ensures var current: set<object> := {curEq, curLt, curDLt}; current !! {a, aBest}
    {
      hide StoreOk, Interval, Sorted, CurrentEq, CurrentLt, CurrentDLt, Better;
      VictimSame(Sc(), View(), View());
    }

    lemma MakeValid()
      requires Setting() && 0 < nRow <= |rows| && nSample <= mxSample && curCol < nCol && !curIsPSample
      requires Counters(nRow) && (0 < mxSample ==> BestRows(Sc(), nRow, aBest[..]) && Sampled(nRow, nRow))
      ensures Valid()
    {
      hide StoreOk, Interval, Sorted, CurrentEq, CurrentLt, CurrentDLt, BestRows, Sampled;
    }

    // Move on to the next row; its sampling is still to be done.
    method NextRow(iChng: nat)
      requires Valid() && nRow < |rows| && iChng == Change(rows, nRow) < nCol && nSample <= a.Length
      requires nRow == 0 ==> iChng == 0
      modifies a, aBest, curEq, curLt, curDLt, this`iMin, this`nSample, this`nMaxEqZero, this`nRow
      ensures nRow == old(nRow) + 1 && Setting() && nRow <= |rows| && nSample <= mxSample && nSample <= a.Length
      ensures Counters(nRow) && VictimNoWorse(Sc(), old(View()), View())
      ensures 0 < mxSample ==> Sampled(nRow, nRow - 1) && BestUpto(nRow - 1, iChng)
    {
      hide *;
      ValidParts();
      if nRow == 0 {
        StartCurrent();
      } else {
        if mxSample > 0 { CloseGroups(iChng); }
        AdvanceCurrent(iChng);
      }
      nRow := nRow + 1;
    }

    // stat_push(P, C, R): the next row of the index differs from the previous
    // one first in column iChng, and has the given rowid.
    method StatPush(iChng: nat, rowid: int)
      requires Valid() && nRow < |rows| && iChng == Change(rows, nRow) && rowid == rowids[nRow]
      modifies this, curEq, curLt, curDLt, aBest, a
      ensures Valid() && nRow == old(nRow) + 1 && iGet == old(iGet)
      ensures nSample <= a.Length && old(nSample) <= a.Length && VictimNoWorse(Sc(), old(View()), View())
      ensures mxSample > 0 ==> iPrn == curHash == NextHash(old(iPrn)) && curRowid == rowid
    {
      hide *;
      ValidParts();
      PushColumn();
      ghost var was := View();
      NextRow(iChng);
      if mxSample > 0 {
        ghost var mid := View();
        SampleRow(iChng, rowid);
        SampledSize(nRow, nRow);
        VictimTransitive(Sc(), was, mid, View());
      }
      MakeValid();
    }

    lemma PushColumn()
      requires Valid() && nRow < |rows|
      ensures Change(rows, nRow) < nCol && nCol > 0 && nSample <= a.Length
      ensures nRow == 0 ==> Change(rows, nRow) == 0
    {
      ChangeBound(rows, nCol, nRow);
    }

    lemma SampledSize(n: nat, m: nat)
      requires Sampled(n, m)
      ensures nSample <= mxSample && nSample <= a.Length
    {}

    // ----- stat_get() --------------------------------------------------------------

    // All counts are known and samples 0..iGet-1 have been read off.
    ghost predicate Finished()
      reads this, a
    {
      && Setting() && 0 < mxSample && 0 < nRow <= |rows| && StoreShaped()
      && StoreSettled(Sc(), nRow, View(), 0, nRow) && 0 <= iGet
    }

    lemma FinishedParts()
      requires Finished()
      ensures nSample <= a.Length && |View().a| == nSample && StoreSettled(Sc(), nRow, View(), 0, nRow) && iGet >= 0
      ensures forall x {:trigger View().a[x]} :: 0 <= x < nSample ==> View().a[x] == a[x]
    {
      hide StoreSettled;
    }

    // stat_get(P, STAT_GET_ROWID): close all groups on the first call, then
    // the rowid of the next sample, or nothing when there is none.
    method StatGetRowid() returns (rowid: Option<int>)
      requires 0 < mxSample && 0 < nRow && (if iGet < 0 then Valid() else Finished())
      modifies this, a, aBest
      ensures Finished() && nRow == old(nRow) && iGet == (if old(iGet) < 0 then 0 else old(iGet))
      ensures old(nSample) <= a.Length && VictimNoWorse(Sc(), old(View()), View())
      ensures nSample <= a.Length
      ensures old(iGet) >= 0 ==> View() == old(View()) && nSample == old(nSample)
      ensures rowid == if iGet < nSample then Some(a[iGet].rowid) else None
    {
      if iGet < 0 {
        ValidParts();
        Finish();
        iGet := 0;
      } else {
        VictimSame(Sc(), View(), View());
      }
      if iGet < nSample { rowid := Some(a[iGet].rowid); } else { rowid := None; }
    }

    method Finish()
      requires Setting() && 0 < mxSample && 0 < nRow <= |rows| && Counters(nRow)
      requires BestRows(Sc(), nRow, aBest[..]) && Sampled(nRow, nRow)
      modifies a, aBest, this`iMin, this`nSample, this`nMaxEqZero
      ensures StoreShaped() && StoreSettled(Sc(), nRow, View(), 0, nRow)
      ensures VictimNoWorse(Sc(), old(View()), View())
    {
      hide StoreOk, StoreSettled, VictimNoWorse, BestRows, Least, Interval, Sorted, CurrentEq;
      SamplePushPrevious(0);
    }

    // stat_get(P, STAT_GET_NEQ / NLT / NDLT): the counts of the current
    // sample; asking for nDLt moves on to the next one.
    method StatGetNEq() returns (cnt: seq<nat>)
      requires Finished() && iGet < nSample
      ensures cnt == a[iGet].anEq
    {
      cnt := a[iGet].anEq;
    }

    method StatGetNLt() returns (cnt: seq<nat>)
      requires Finished() && iGet < nSample
      ensures cnt == a[iGet].anLt
    {
      cnt := a[iGet].anLt;
    }

    method StatGetNDLt() returns (cnt: seq<nat>)
      requires Finished() && iGet < nSample
      modifies this`iGet
      ensures Finished() && iGet == old(iGet) + 1 && cnt == a[old(iGet)].anDLt
    {
      cnt := a[iGet].anDLt;
      iGet := iGet + 1;
    }

    // stat_get(P, STAT_GET_STAT1): the row count and one estimate per key column.
    method StatGetStat1() returns (stat: seq<nat>)
      requires Valid()
      ensures |stat| == nKeyCol + 1 && stat[0] == nRow
      ensures nRow == 0 ==> forall i :: 0 < i <= nKeyCol ==> stat[i] == 0
      ensures nRow > 0 ==> forall i {:trigger Distinct(rows, nRow, i)} :: 0 <= i < nKeyCol ==>
                0 < Distinct(rows, nRow, i) <= nRow && stat[i + 1] == Estimate(nRow, Distinct(rows, nRow, i))
    {
      ShapeOnly();
      hide Valid, Distinct, Estimate;
      stat := [nRow];
      var i := 0;
      while i < nKeyCol
        invariant 0 <= i <= nKeyCol && |stat| == i + 1 && stat[0] == nRow
        invariant nRow == 0 ==> forall x :: 0 < x <= i ==> stat[x] == 0
        invariant nRow > 0 ==> forall x {:trigger Distinct(rows, nRow, x)} :: 0 <= x < i ==>
                    0 < Distinct(rows, nRow, x) <= nRow && stat[x + 1] == Estimate(nRow, Distinct(rows, nRow, x))
      {
        ColumnEstimate(i);
        var nDistinct := curDLt[i] + 1;
        var iVal := RoundUp(nRow, nDistinct);
        stat := stat + [iVal];
        i := i + 1;
      }
    }

    lemma ShapeOnly()
      requires Valid()
      ensures 0 < nKeyCol <= nCol == curDLt.Length && nRow <= |rows|
    {}

    lemma ColumnEstimate(i: nat)
      requires Valid() && i < nCol == curDLt.Length && nRow <= |rows|
      ensures nRow > 0 ==> 0 < Distinct(rows, nRow, i) == curDLt[i] + 1 <= nRow
      ensures var d := curDLt[i] + 1; nRow == 0 ==> Estimate(nRow, d) == 0
    {
      if nRow == 0 {
        assert curDLt[i] == 0;
      } else {
        hide Estimate, StoreOk, BestRows, CurrentEq, CurrentLt, NDLt, Distinct, Sorted;
        LastRow(rows, nCol, nRow, i);
        NDLtGrows(rows, nCol, nRow, i, i);
        assert curDLt[..][i] == NDLt(rows, nRow, nRow - 1, i);
      }
    }
  }
}
