/** What holds of the reservoir while ANALYZE reads an index, and why each step
    keeps it. Rows 0..n-1 have been read; "level l" means that the groups of
    columns l and above that hold row n-1 are being closed. */
module StatInvariants {
  import opened IndexRows
  import opened Reservoir

  // The position of the sampled row: its nLt over all columns.
  function Pos(s: Sample): nat
    requires |s.anLt| > 0
  {
    s.anLt[|s.anLt| - 1]
  }

  // All samples are of rows before row m.
  ghost predicate AllBefore(a: seq<Sample>, m: nat) {
    forall x {:trigger a[x]} :: 0 <= x < |a| ==> |a[x].anLt| > 0 && Pos(a[x]) < m
  }

  // The sample carries the rowid of its row, and nLt and nDLt are exact.
  ghost predicate Figures(sc: Scan, n: nat, s: Sample) {
    && Shaped(s, sc.nCol) && Pos(s) < n && Pos(s) < |sc.rowids| && s.rowid == sc.rowids[Pos(s)]
    && (forall j {:trigger s.anLt[j]} {:trigger s.anDLt[j]} :: 0 <= j < sc.nCol ==>
          s.anLt[j] == NLt(sc.rows, n, Pos(s), j) && s.anDLt[j] == NDLt(sc.rows, n, Pos(s), j))
  }

  // ... and nEq is exact unless it is still unknown (0).
  ghost predicate Counts(sc: Scan, n: nat, s: Sample) {
    && Figures(sc, n, s)
    && (forall j {:trigger s.anEq[j]} :: 0 <= j < sc.nCol && s.anEq[j] != 0 ==>
          s.anEq[j] == NEq(sc.rows, n, Pos(s), j))
  }

  // Which nEq are unknown: those of open groups, and for a non-periodic
  // sample only groups coarser than the one it was chosen for.
  ghost predicate Blanks(sc: Scan, n: nat, s: Sample, l: nat)
    requires Shaped(s, sc.nCol) && n > 0
  {
    && (forall j {:trigger s.anEq[j]} :: 0 <= j < sc.nCol && s.anEq[j] == 0 ==>
          j < sc.nCol - 1 && Agree(sc.rows, Pos(s), n - 1, j))
    && (forall j {:trigger s.anEq[j]} ::
          0 <= j < sc.nCol - 1 && (j < l || s.isPSample) && Agree(sc.rows, Pos(s), n - 1, j) ==> s.anEq[j] == 0)
    && (if s.isPSample then
          sc.nPSample > 0 && (Pos(s) + 1) % sc.nPSample == 0
        else
          && s.iCol < sc.nCol - 1
          && (forall j {:trigger s.anEq[j]} :: s.iCol <= j < sc.nCol ==> s.anEq[j] != 0)
          && (Agree(sc.rows, Pos(s), n - 1, s.iCol) ==> s.iCol >= l))
  }

  ghost predicate Level(sc: Scan, n: nat, s: Sample, l: nat) {
    n > 0 && Counts(sc, n, s) && Blanks(sc, n, s, l)
  }

  ghost predicate AllLevels(sc: Scan, n: nat, a: seq<Sample>, l: nat) {
    forall x {:trigger a[x]} :: 0 <= x < |a| ==> Level(sc, n, a[x], l)
  }

  ghost predicate Ascending(a: seq<Sample>, nCol: nat)
    requires AllShaped(a, nCol)
  {
    forall x, y {:trigger a[x], a[y]} :: 0 <= x < y < |a| ==> Pos(a[x]) < Pos(a[y])
  }

  ghost predicate NoBlankFrom(a: seq<Sample>, nCol: nat, m: nat)
    requires AllShaped(a, nCol)
  {
    forall x, j {:trigger a[x].anEq[j]} :: 0 <= x < |a| && m <= j < nCol ==> a[x].anEq[j] != 0
  }

  ghost predicate Core(sc: Scan, n: nat, st: Store, l: nat) {
    && 0 < n <= |sc.rows| && Sorted(sc.rows, sc.nCol) && 0 < sc.mxSample && |st.a| <= sc.mxSample
    && AllShaped(st.a, sc.nCol)
    && AllLevels(sc, n, st.a, l)
    && Ascending(st.a, sc.nCol)
    && NoBlankFrom(st.a, sc.nCol, st.nMaxEqZero)
    && (|st.a| >= sc.mxSample ==> Least(st.a, sc.nCol, st.iMin))
  }

  // If the group of row n-1 at column l has any sample, then it has a
  // periodic one or one chosen for exactly that group.
  ghost predicate Leader(sc: Scan, n: nat, st: Store, l: nat)
    requires AllShaped(st.a, sc.nCol) && n > 0 && sc.nCol > 0
  {
    forall x {:trigger st.a[x]} :: 0 <= x < |st.a| && Agree(sc.rows, Pos(st.a[x]), n - 1, l) ==>
      exists v {:trigger st.a[v]} :: 0 <= v < |st.a| && Agree(sc.rows, Pos(st.a[v]), n - 1, l) &&
        (st.a[v].isPSample || st.a[v].iCol == l)
  }

  // Every row due for periodic sampling among rows 0..m-1 is still held.
  ghost predicate Periodics(sc: Scan, m: nat, st: Store)
    requires AllShaped(st.a, sc.nCol)
  {
    sc.nPSample > 0 &&
    forall k: nat {:trigger HoldsPeriodic(sc, st, k)} :: k < m && (k + 1) % sc.nPSample == 0 ==>
        HoldsPeriodic(sc, st, k)
  }

  ghost predicate HoldsPeriodic(sc: Scan, st: Store, k: nat)
    requires AllShaped(st.a, sc.nCol)
  {
    exists x {:trigger st.a[x]} :: 0 <= x < |st.a| && st.a[x].isPSample && Pos(st.a[x]) == k
  }

  // Sample x stands for the group of row k at column c.
  ghost predicate Stands(sc: Scan, a: seq<Sample>, x: int, k: nat, c: nat)
    requires AllShaped(a, sc.nCol)
  {
    0 <= x < |a| && Agree(sc.rows, Pos(a[x]), k, c) && (a[x].isPSample || a[x].iCol <= c)
  }

  // The group of row k at column c is represented, or it is no larger than
  // the group that the worst kept sample stands for.
  ghost predicate CoveredGroup(sc: Scan, n: nat, st: Store, k: nat, c: nat)
    requires AllShaped(st.a, sc.nCol)
  {
    || (exists x :: Stands(sc, st.a, x, k, c))
    || (|st.a| >= sc.mxSample && st.iMin < |st.a| && NEq(sc.rows, n, k, c) <= st.a[st.iMin].anEq[st.a[st.iMin].iCol])
  }

  // All groups that are closed are covered.
  ghost predicate Covered(sc: Scan, n: nat, st: Store, l: nat)
    requires AllShaped(st.a, sc.nCol) && n > 0 && sc.nCol > 0
  {
    forall k: nat, c: nat {:trigger CoveredGroup(sc, n, st, k, c)} ::
      k < n && c < sc.nCol - 1 && (c >= l || !Agree(sc.rows, k, n - 1, c)) ==> CoveredGroup(sc, n, st, k, c)
  }

  ghost predicate StoreOk(sc: Scan, n: nat, st: Store, l: nat, m: nat) {
    Core(sc, n, st, l) && Leader(sc, n, st, l) && Periodics(sc, m, st) && Covered(sc, n, st, l)
  }

  // The row chosen for the group of row n-1 at column i, that group closing.
  ghost predicate Candidate(sc: Scan, n: nat, s: Sample, i: nat) {
    && n > 0 && Figures(sc, n, s) && !s.isPSample && s.iCol == i < sc.nCol - 1
    && Agree(sc.rows, Pos(s), n - 1, i)
    && forall j {:trigger s.anEq[j]} :: i <= j < sc.nCol ==> s.anEq[j] == NEq(sc.rows, n, Pos(s), j) != 0
  }

  // The worst kept sample never gets worse.
  ghost predicate VictimNoWorse(sc: Scan, st: Store, post: Store) {
    && AllShaped(st.a, sc.nCol) && AllShaped(post.a, sc.nCol)
    && (|st.a| >= sc.mxSample > 0 ==>
          && |post.a| >= sc.mxSample && st.iMin < |st.a| && post.iMin < |post.a|
          && !Better(st.a[st.iMin], post.a[post.iMin]))
  }

  // ----- Pushing the best row of a closing group ---------------------------------

  lemma OpenIs(sc: Scan, n: nat, st: Store, l: nat, i: nat, x: nat)
    requires Core(sc, n, st, l) && i < l && i < sc.nCol - 1 && x < |st.a|
    ensures Open(st.a, i, x) <==> Agree(sc.rows, Pos(st.a[x]), n - 1, i)
  {
    hide NEq, NLt, NDLt, Better;
    assert Level(sc, n, st.a[x], l);
    var s := st.a[x];
    assert s.anEq[i] == 0 || s.anEq[i] != 0;
  }

  // The candidate outranks every open non-periodic sample: it stands for a
  // group that contains the sample's own.
  lemma NewBeatsOpen(sc: Scan, n: nat, st: Store, l: nat, i: nat, new_: Sample, x: nat)
    requires Core(sc, n, st, l) && i < l && Candidate(sc, n, new_, i)
    requires Open(st.a, i, x) && !st.a[x].isPSample
    ensures st.a[x].iCol > i && Better(new_, st.a[x])
    ensures new_.anEq[i] == NEq(sc.rows, n, Pos(st.a[x]), i) > 0
    ensures st.a[x].anEq[st.a[x].iCol] <= new_.anEq[i]
  {
    hide NEq, NLt, NDLt, Better;
    var s := st.a[x];
    assert Level(sc, n, s, l);
    OpenIs(sc, n, st, l, i, x);
    AgreeSym(sc.rows, Pos(s), n - 1, i);
    AgreeTrans(sc.rows, Pos(new_), n - 1, Pos(s), i);
    NEqSame(sc.rows, n, Pos(new_), Pos(s), i);
    assert new_.anEq[i] != 0;
    assert s.anEq[s.iCol] != 0;
    NEqShrinks(sc.rows, n, Pos(s), i, s.iCol);
    BetterCases(new_, s);
  }

  // A sample that is right for column l is right for column l-1 as long as
  // it is not touched: fewer columns are required to be known.
  lemma LevelDown(sc: Scan, n: nat, a: seq<Sample>, l: nat)
    requires 0 < l && AllLevels(sc, n, a, l)
    ensures AllLevels(sc, n, a, l - 1)
  {
    hide NEq, NLt, NDLt, Better;
    forall x | 0 <= x < |a|
      ensures Level(sc, n, a[x], l - 1)
    {
      assert Level(sc, n, a[x], l);
    }
  }

  // All rows of a group are covered alike.
  lemma CoverSame(sc: Scan, n: nat, st: Store, y: nat, k: nat, c: nat)
    requires AllShaped(st.a, sc.nCol) && Agree(sc.rows, k, y, c) && CoveredGroup(sc, n, st, y, c)
    ensures CoveredGroup(sc, n, st, k, c)
  {
    hide NEq, NLt, NDLt, Better;
    AgreeSym(sc.rows, k, y, c);
    if x :| Stands(sc, st.a, x, y, c) {
      AgreeTrans(sc.rows, Pos(st.a[x]), y, k, c);
      assert Stands(sc, st.a, x, k, c);
    } else {
      NEqSame(sc.rows, n, k, y, c);
    }
  }

  // Closing column l-1 only adds the group of the last row to what must be covered.
  lemma CoverDown(sc: Scan, n: nat, st: Store, l: nat)
    requires 0 < l && AllShaped(st.a, sc.nCol) && n > 0 && sc.nCol > 0 && Covered(sc, n, st, l)
    requires l < sc.nCol ==> CoveredGroup(sc, n, st, n - 1, l - 1)
    ensures Covered(sc, n, st, l - 1)
  {
    hide NEq, NLt, NDLt, Better;
    forall k: nat, c: nat | k < n && c < sc.nCol - 1 && (c >= l - 1 || !Agree(sc.rows, k, n - 1, c))
      ensures CoveredGroup(sc, n, st, k, c)
    {
      if c == l - 1 && Agree(sc.rows, k, n - 1, c) { CoverSame(sc, n, st, n - 1, k, c); }
    }
  }

  // Full, and the candidate does not beat the victim: then no non-periodic
  // sample shares its group, for the candidate would beat that sample.
  lemma SkipMeansNoneOpen(sc: Scan, n: nat, st: Store, new_: Sample, l: nat, x: nat)
    requires 0 < l && Core(sc, n, st, l) && Candidate(sc, n, new_, l - 1)
    requires |st.a| >= sc.mxSample && !Better(new_, st.a[st.iMin])
    requires x < |st.a| && Agree(sc.rows, Pos(st.a[x]), n - 1, l - 1)
    ensures st.a[x].isPSample
  {
    hide NEq, NLt, NDLt, Better;
    OpenIs(sc, n, st, l, l - 1, x);
    if !st.a[x].isPSample {
      NewBeatsOpen(sc, n, st, l, l - 1, new_, x);
      if x != st.iMin { BetterChain(new_, st.a[x], st.a[st.iMin], sc.nCol); }
      assert false;
    }
  }

  // ... and its group is no larger than the victim's, so leaving it out is fair.
  lemma SkipIsFair(sc: Scan, n: nat, st: Store, new_: Sample, l: nat)
    requires 0 < l && Core(sc, n, st, l) && Candidate(sc, n, new_, l - 1)
    requires |st.a| >= sc.mxSample && !Better(new_, st.a[st.iMin])
    ensures CoveredGroup(sc, n, st, n - 1, l - 1)
  {
    hide NEq, NLt, NDLt, Better;
    BetterCases(new_, st.a[st.iMin]);
    assert new_.anEq[l - 1] != 0;
    NEqSame(sc.rows, n, Pos(new_), n - 1, l - 1);
  }

  lemma SkipStep(sc: Scan, n: nat, st: Store, new_: Sample, l: nat, m: nat)
    requires 0 < l && StoreOk(sc, n, st, l, m) && Candidate(sc, n, new_, l - 1)
    requires |st.a| >= sc.mxSample && !Better(new_, st.a[st.iMin])
    ensures StoreOk(sc, n, st, l - 1, m)
  {
    hide NEq, NLt, NDLt, Better;
    forall x | 0 <= x < |st.a| && Agree(sc.rows, Pos(st.a[x]), n - 1, l - 1)
      ensures st.a[x].isPSample
    {
      SkipMeansNoneOpen(sc, n, st, new_, l, x);
    }
    LevelDown(sc, n, st.a, l);
    SkipIsFair(sc, n, st, new_, l);
    CoverDown(sc, n, st, l);
  }

  // An open periodic sample already stands for the group.
  lemma PeriodicStep(sc: Scan, n: nat, st: Store, new_: Sample, l: nat, m: nat, post: Store)
    requires 0 < l && StoreOk(sc, n, st, l, m) && Candidate(sc, n, new_, l - 1)
    requires OpenPeriodic(st.a, l - 1) && Inserted(sc.mxSample, sc.nCol, st, new_, l - 1, post)
    ensures StoreOk(sc, n, post, l - 1, m)
  {
    hide NEq, NLt, NDLt, Better, Level, Least, Ascending, NoBlankFrom;
    var p: nat :| Open(st.a, l - 1, p) && st.a[p].isPSample;
    OpenIs(sc, n, st, l, l - 1, p);
    LevelDown(sc, n, st.a, l);
    SameSamples(sc, n, st, post, l, m);
    assert Stands(sc, post.a, p, n - 1, l - 1);
    CoverDown(sc, n, post, l);
  }

  // nMaxEqZero is only an upper bound.
  lemma SameSamples(sc: Scan, n: nat, st: Store, post: Store, l: nat, m: nat)
    requires StoreOk(sc, n, st, l, m) && post.a == st.a && post.iMin == st.iMin && post.nMaxEqZero >= st.nMaxEqZero
    ensures StoreOk(sc, n, post, l, m)
  {
    hide NEq, NLt, NDLt, Better;
    forall k: nat | HoldsPeriodic(sc, st, k)
      ensures HoldsPeriodic(sc, post, k)
    {}
    forall k: nat, c: nat | CoveredGroup(sc, n, st, k, c)
      ensures CoveredGroup(sc, n, post, k, c)
    {
      if x :| Stands(sc, st.a, x, k, c) { assert Stands(sc, post.a, x, k, c); }
    }
  }

  // ----- Upgrading ----------------------------------------------------------------

  // The size of the group a sample was chosen for is always known.
  lemma ScoreKnown(sc: Scan, n: nat, s: Sample, l: nat)
    requires Level(sc, n, s, l) && !s.isPSample
    ensures s.anEq[s.iCol] == NEq(sc.rows, n, Pos(s), s.iCol) != 0
  {
    hide NEq, NLt, NDLt, Better;
    assert s.anEq[s.iCol] != 0;
  }

  // Within one group, the sample chosen for the group outranks those chosen
  // for groups inside it.
  lemma FinerLoses(rows: seq<Row>, n: nat, t: Sample, s: Sample, last: nat)
    requires |t.anLt| > 0 && |s.anLt| > 0 && t.iCol < s.iCol < |s.anEq| && t.iCol < |t.anEq|
    requires t.anEq[t.iCol] == NEq(rows, n, Pos(t), t.iCol) && s.anEq[s.iCol] == NEq(rows, n, Pos(s), s.iCol)
    requires Agree(rows, Pos(t), last, t.iCol) && Agree(rows, Pos(s), last, t.iCol)
    ensures Better(t, s)
  {
    hide NEq, NLt, NDLt, Better;
    AgreeSym(rows, Pos(s), last, t.iCol);
    AgreeTrans(rows, Pos(t), last, Pos(s), t.iCol);
    NEqSame(rows, n, Pos(t), Pos(s), t.iCol);
    NEqShrinks(rows, n, Pos(s), t.iCol, s.iCol);
    BetterCases(t, s);
  }

  // The upgraded sample is known in every column from the new one on: either
  // its finer groups were closed before, or it was chosen for the next column.
  lemma {:induction false} UpgradeHasNoHole(sc: Scan, n: nat, st: Store, new_: Sample, l: nat, u: nat)
    requires 0 < l && Core(sc, n, st, l) && Leader(sc, n, st, l) && Candidate(sc, n, new_, l - 1)
    requires !OpenPeriodic(st.a, l - 1) && BestOpen(st.a, sc.nCol, l - 1, u)
    ensures !st.a[u].isPSample
    ensures forall j {:trigger st.a[u].anEq[j]} :: l <= j < sc.nCol ==> st.a[u].anEq[j] != 0
  {
    hide NEq, NLt, NDLt, Better;
    var s := st.a[u];
    if Agree(sc.rows, Pos(s), n - 1, l) {
      var v :| 0 <= v < |st.a| && Agree(sc.rows, Pos(st.a[v]), n - 1, l) && (st.a[v].isPSample || st.a[v].iCol == l);
      LeaderIsBest(sc, n, st, l, u, v);
    }
    assert Level(sc, n, s, l);
  }

  lemma LeaderIsBest(sc: Scan, n: nat, st: Store, l: nat, u: nat, v: nat)
    requires 0 < l && Core(sc, n, st, l) && l < sc.nCol
    requires !OpenPeriodic(st.a, l - 1) && BestOpen(st.a, sc.nCol, l - 1, u)
    requires v < |st.a| && (st.a[v].isPSample || st.a[v].iCol == l)
    requires Agree(sc.rows, Pos(st.a[v]), n - 1, l) && Agree(sc.rows, Pos(st.a[u]), n - 1, l)
    ensures st.a[u].iCol <= l
  {
    hide NEq, NLt, NDLt, Better;
    OpenIs(sc, n, st, l, l - 1, v);
    if st.a[u].iCol > l {
      ScoreKnown(sc, n, st.a[u], l);
      ScoreKnown(sc, n, st.a[v], l);
      FinerLoses(sc.rows, n, st.a[v], st.a[u], n - 1);
      assert false;
    }
  }

  lemma {:induction false} UpgradeLevel(sc: Scan, n: nat, s: Sample, new_: Sample, l: nat)
    requires 0 < l && Level(sc, n, s, l) && Candidate(sc, n, new_, l - 1)
    requires !s.isPSample && s.iCol > l - 1 && new_.anEq[l - 1] == NEq(sc.rows, n, Pos(s), l - 1) > 0
    requires forall j {:trigger s.anEq[j]} :: l <= j < sc.nCol ==> s.anEq[j] != 0
    ensures Level(sc, n, Upgrade(s, new_), l - 1)
  {
    hide NEq, NLt, NDLt, Better;
    var t := Upgrade(s, new_);
    assert Pos(t) == Pos(s);
    assert forall j {:trigger t.anEq[j]} :: 0 <= j < sc.nCol && j != l - 1 ==> t.anEq[j] == s.anEq[j];
    assert Counts(sc, n, t);
  }

  lemma {:induction false} UpgradedSample(sc: Scan, n: nat, st: Store, new_: Sample, l: nat, u: nat)
    requires 0 < l && Core(sc, n, st, l) && Leader(sc, n, st, l) && Candidate(sc, n, new_, l - 1)
    requires !OpenPeriodic(st.a, l - 1) && BestOpen(st.a, sc.nCol, l - 1, u)
    ensures Level(sc, n, Upgrade(st.a[u], new_), l - 1)
    ensures Better(Upgrade(st.a[u], new_), st.a[u])
    ensures Agree(sc.rows, Pos(st.a[u]), n - 1, l - 1) && st.a[u].iCol > l - 1 && !st.a[u].isPSample
  {
    hide NEq, NLt, NDLt, Better;
    var s := st.a[u];
    UpgradeHasNoHole(sc, n, st, new_, l, u);
    NewBeatsOpen(sc, n, st, l, l - 1, new_, u);
    OpenIs(sc, n, st, l, l - 1, u);
    UpgradeLevel(sc, n, s, new_, l);
    BetterCases(Upgrade(s, new_), s);
  }

  // Replacing a sample by a better one never lowers the victim's score.
  lemma VictimUpgraded(sc: Scan, st: Store, post: Store, u: nat)
    requires AllShaped(st.a, sc.nCol) && AllShaped(post.a, sc.nCol)
    requires |st.a| >= sc.mxSample ==> Least(st.a, sc.nCol, st.iMin)
    requires u < |st.a| == |post.a| && post.a == st.a[u := post.a[u]]
    requires !st.a[u].isPSample && Better(post.a[u], st.a[u])
    requires |post.a| >= sc.mxSample ==> Least(post.a, sc.nCol, post.iMin)
    ensures VictimNoWorse(sc, st, post)
  {
    hide NEq, NLt, NDLt, Better;
    if |st.a| >= sc.mxSample {
      var o, w := st.a[st.iMin], post.a[post.iMin];
      if post.iMin == u {
        if u != st.iMin { BetterChain(w, st.a[u], o, sc.nCol); }
        BetterOrder(w, o, w, sc.nCol);
      } else {
        assert w == st.a[post.iMin];
        BetterOrder(o, w, o, sc.nCol);
      }
    }
  }

  // Upgrading moves no sample and blanks nothing.
  lemma Rewritten(st: Store, post: Store, nCol: nat, new_: Sample, u: nat)
    requires AllShaped(st.a, nCol) && AllShaped(post.a, nCol) && u < |st.a|
    requires new_.iCol < |new_.anEq| && new_.iCol < nCol && new_.anEq[new_.iCol] != 0
    requires post.a == st.a[u := Upgrade(st.a[u], new_)] && post.nMaxEqZero >= st.nMaxEqZero
    requires Ascending(st.a, nCol) && NoBlankFrom(st.a, nCol, st.nMaxEqZero)
    ensures Ascending(post.a, nCol) && NoBlankFrom(post.a, nCol, post.nMaxEqZero)
  {
    hide NEq, NLt, NDLt, Better;
    forall x | 0 <= x < |post.a|
      ensures Pos(post.a[x]) == Pos(st.a[x])
    {}
    forall x, j | 0 <= x < |post.a| && post.nMaxEqZero <= j < nCol
      ensures post.a[x].anEq[j] != 0
    {
      assert st.a[x].anEq[j] != 0;
    }
  }

  lemma {:induction false} UpgradeCore(sc: Scan, n: nat, st: Store, new_: Sample, l: nat, u: nat, post: Store)
    requires 0 < l && Core(sc, n, st, l) && Leader(sc, n, st, l) && Candidate(sc, n, new_, l - 1)
    requires !OpenPeriodic(st.a, l - 1) && BestOpen(st.a, sc.nCol, l - 1, u)
    requires post.a == st.a[u := Upgrade(st.a[u], new_)] && AllShaped(post.a, sc.nCol)
    requires VictimFound(sc.mxSample, sc.nCol, st, post)
    requires post.nMaxEqZero == if l - 1 > st.nMaxEqZero then l - 1 else st.nMaxEqZero
    ensures Core(sc, n, post, l - 1) && VictimNoWorse(sc, st, post)
  {
    hide NEq, NLt, NDLt, Better;
    UpgradedSample(sc, n, st, new_, l, u);
    VictimUpgraded(sc, st, post, u);
    LevelDown(sc, n, st.a, l);
    assert AllLevels(sc, n, post.a, l - 1);
    assert new_.anEq[l - 1] != 0;
    Rewritten(st, post, sc.nCol, new_, u);
  }

  // The upgraded sample stands for everything it stood for before.
  lemma UpgradeKeepsPeriodics(sc: Scan, st: Store, new_: Sample, m: nat, u: nat, post: Store)
    requires AllShaped(st.a, sc.nCol) && AllShaped(post.a, sc.nCol) && Shaped(new_, sc.nCol)
    requires u < |st.a| && post.a == st.a[u := Upgrade(st.a[u], new_)] && Periodics(sc, m, st)
    ensures Periodics(sc, m, post)
  {
    hide NEq, NLt, NDLt, Better;
    forall k: nat | HoldsPeriodic(sc, st, k)
      ensures HoldsPeriodic(sc, post, k)
    {
      var x :| 0 <= x < |st.a| && st.a[x].isPSample && Pos(st.a[x]) == k;
      assert post.a[x].isPSample && Pos(post.a[x]) == k;
    }
  }

  lemma UpgradeKeepsCover(sc: Scan, n: nat, st: Store, new_: Sample, l: nat, u: nat, post: Store)
    requires 0 < sc.mxSample
    requires AllShaped(st.a, sc.nCol) && AllShaped(post.a, sc.nCol) && Shaped(new_, sc.nCol) && 0 < n
    requires u < |st.a| && new_.iCol <= st.a[u].iCol && post.a == st.a[u := Upgrade(st.a[u], new_)]
    requires VictimNoWorse(sc, st, post) && Covered(sc, n, st, l)
    ensures Covered(sc, n, post, l)
  {
    hide NEq, NLt, NDLt, Better;
    forall x: nat, k: nat, c: nat | Stands(sc, st.a, x, k, c)
      ensures CoveredGroup(sc, n, post, k, c)
    {
      assert Stands(sc, post.a, x, k, c);
    }
    CoverKept(sc, n, st, post, l);
  }

  // Coverage survives a step that raises the victim's score, as long as what
  // the old samples stood for stays covered.
  lemma CoverKept(sc: Scan, n: nat, st: Store, post: Store, l: nat)
    requires 0 < sc.mxSample
    requires AllShaped(st.a, sc.nCol) && AllShaped(post.a, sc.nCol) && 0 < n && 0 < sc.nCol
    requires Covered(sc, n, st, l) && VictimNoWorse(sc, st, post)
    requires forall x: nat, k: nat, c: nat {:trigger Stands(sc, st.a, x, k, c)} ::
               Stands(sc, st.a, x, k, c) ==> CoveredGroup(sc, n, post, k, c)
    ensures Covered(sc, n, post, l)
  {
    hide NEq, NLt, NDLt, Better;
    if |st.a| >= sc.mxSample { BetterCases(st.a[st.iMin], post.a[post.iMin]); }
    forall k: nat, c: nat | CoveredGroup(sc, n, st, k, c)
      ensures CoveredGroup(sc, n, post, k, c)
    {}
  }

  lemma {:induction false} UpgradeStep(sc: Scan, n: nat, st: Store, new_: Sample, l: nat, m: nat, u: nat, post: Store)
    requires 0 < l && StoreOk(sc, n, st, l, m) && Candidate(sc, n, new_, l - 1)
    requires !OpenPeriodic(st.a, l - 1) && BestOpen(st.a, sc.nCol, l - 1, u)
    requires post.a == st.a[u := Upgrade(st.a[u], new_)] && AllShaped(post.a, sc.nCol)
    requires VictimFound(sc.mxSample, sc.nCol, st, post)
    requires post.nMaxEqZero == if l - 1 > st.nMaxEqZero then l - 1 else st.nMaxEqZero
    ensures StoreOk(sc, n, post, l - 1, m) && VictimNoWorse(sc, st, post)
  {
    hide NEq, NLt, NDLt, Better;
    UpgradeCore(sc, n, st, new_, l, u, post);
    UpgradedSample(sc, n, st, new_, l, u);
    UpgradeKeepsPeriodics(sc, st, new_, m, u, post);
    UpgradeKeepsCover(sc, n, st, new_, l, u, post);
    Closes(sc, n, l, m, u, post);
  }

  // A sample chosen for the closing group stands for it.
  lemma Closes(sc: Scan, n: nat, l: nat, m: nat, u: nat, post: Store)
    requires 0 < l && Core(sc, n, post, l - 1) && Periodics(sc, m, post) && Covered(sc, n, post, l)
    requires u < |post.a| && post.a[u].iCol == l - 1 && Agree(sc.rows, Pos(post.a[u]), n - 1, l - 1)
    ensures StoreOk(sc, n, post, l - 1, m)
  {
    hide NEq, NLt, NDLt, Better;
    assert Stands(sc, post.a, u, n - 1, l - 1);
    CoverDown(sc, n, post, l);
  }

  // ----- Appending -------------------------------------------------------------------

  // A candidate without open samples in its group comes after every sample:
  // anything later would lie in the group and be open.
  lemma NoneOpenMeansLater(sc: Scan, n: nat, st: Store, new_: Sample, l: nat, x: nat)
    requires 0 < l && Core(sc, n, st, l) && Candidate(sc, n, new_, l - 1)
    requires !SomeOpen(st.a, l - 1) && x < |st.a|
    ensures Pos(st.a[x]) < Pos(new_)
  {
    hide NEq, NLt, NDLt, Better;
    OpenIs(sc, n, st, l, l - 1, x);
    assert Level(sc, n, st.a[x], l);
    if Pos(new_) <= Pos(st.a[x]) {
      AgreeBetween(sc.rows, sc.nCol, Pos(new_), Pos(st.a[x]), n - 1, l - 1);
      assert false;
    }
  }

  lemma BlankedLevel(sc: Scan, n: nat, new_: Sample, i: nat)
    requires 0 < n <= |sc.rows| && Sorted(sc.rows, sc.nCol) && Candidate(sc, n, new_, i)
    ensures Level(sc, n, Blanked(new_, i), i)
    ensures Score(Blanked(new_, i)) == Score(new_) && Pos(Blanked(new_, i)) == Pos(new_)
    ensures forall j {:trigger Blanked(new_, i).anEq[j]} :: i <= j < sc.nCol ==> Blanked(new_, i).anEq[j] != 0
  {
    hide NEq, NLt, NDLt, Better;
    var s := Blanked(new_, i);
    assert forall j :: 0 <= j < i ==> s.anEq[j] == 0;
    assert forall j :: i <= j < sc.nCol ==> s.anEq[j] == new_.anEq[j];
    assert s.anEq[i + 1..] == new_.anEq[i + 1..];
    assert Pos(s) == Pos(new_);
    assert Counts(sc, n, s);
  }

  // Where the survivor now at x was before.
  function Was(mx: nat, st: Store, x: nat): nat {
    if |st.a| >= mx && x >= st.iMin then x + 1 else x
  }

  lemma KeptAt(mx: nat, st: Store, t: Sample, x: nat)
    requires |st.a| >= mx ==> st.iMin < |st.a|
    requires x < |Kept(mx, st)|
    ensures Was(mx, st, x) < |st.a| && (Kept(mx, st) + [t])[x] == st.a[Was(mx, st, x)]
  {}

  // A reservoir that appends t after making room.
  ghost predicate Appended(sc: Scan, n: nat, st: Store, t: Sample, l: nat, post: Store) {
    && Core(sc, n, st, l) && Level(sc, n, t, l) && AllShaped(post.a, sc.nCol)
    && post.a == Kept(sc.mxSample, st) + [t]
    && post.nMaxEqZero >= st.nMaxEqZero
    && (forall j {:trigger t.anEq[j]} :: post.nMaxEqZero <= j < sc.nCol ==> t.anEq[j] != 0)
    && AllBefore(st.a, Pos(t))
    && (|st.a| >= sc.mxSample ==> t.isPSample || Better(t, st.a[st.iMin]))
    && VictimFound(sc.mxSample, sc.nCol, st, post)
  }

  lemma {:induction false} AppendCore(sc: Scan, n: nat, st: Store, t: Sample, l: nat, post: Store)
    requires Appended(sc, n, st, t, l, post)
    ensures Core(sc, n, post, l)
  {
    hide NEq, NLt, NDLt, Better;
    var mx, last := sc.mxSample, |post.a| - 1;
    forall x | 0 <= x < last
      ensures Was(mx, st, x) < |st.a| && post.a[x] == st.a[Was(mx, st, x)]
    {
      KeptAt(mx, st, t, x);
    }
    assert post.a[last] == t;
    forall x | 0 <= x < |post.a|
      ensures Level(sc, n, post.a[x], l)
    {
      if x < last { assert Level(sc, n, st.a[Was(mx, st, x)], l); }
    }
    AppendOrder(sc, st, t, post);
  }

  lemma AppendOrder(sc: Scan, st: Store, t: Sample, post: Store)
    requires AllShaped(st.a, sc.nCol) && AllShaped(post.a, sc.nCol) && Shaped(t, sc.nCol)
    requires |st.a| >= sc.mxSample ==> st.iMin < |st.a|
    requires post.a == Kept(sc.mxSample, st) + [t] && post.nMaxEqZero >= st.nMaxEqZero
    requires forall j {:trigger t.anEq[j]} :: post.nMaxEqZero <= j < sc.nCol ==> t.anEq[j] != 0
    requires AllBefore(st.a, Pos(t))
    requires Ascending(st.a, sc.nCol) && NoBlankFrom(st.a, sc.nCol, st.nMaxEqZero)
    ensures Ascending(post.a, sc.nCol) && NoBlankFrom(post.a, sc.nCol, post.nMaxEqZero)
  {
    hide NEq, NLt, NDLt, Better;
    var mx, last := sc.mxSample, |post.a| - 1;
    forall x | 0 <= x < last
      ensures Was(mx, st, x) < |st.a| && post.a[x] == st.a[Was(mx, st, x)]
    {
      KeptAt(mx, st, t, x);
    }
    forall x, j | 0 <= x < |post.a| && post.nMaxEqZero <= j < sc.nCol
      ensures post.a[x].anEq[j] != 0
    {
      if x < last { assert st.a[Was(mx, st, x)].anEq[j] != 0; }
    }
    forall x, y | 0 <= x < y < |post.a|
      ensures Pos(post.a[x]) < Pos(post.a[y])
    {
      var w := Was(mx, st, x);
      if y < last { var v := Was(mx, st, y); assert Pos(st.a[w]) < Pos(st.a[v]); }
    }
  }

  // The victim's score does not drop: what replaces it beats it, and so did
  // everything that stays.
  lemma AppendVictim(sc: Scan, n: nat, st: Store, t: Sample, l: nat, post: Store)
    requires Appended(sc, n, st, t, l, post)
    ensures VictimNoWorse(sc, st, post)
  {
    hide NEq, NLt, NDLt, Better;
    if |st.a| >= sc.mxSample {
      var o, w := st.a[st.iMin], post.a[post.iMin];
      if post.iMin < |post.a| - 1 {
        KeptAt(sc.mxSample, st, t, post.iMin);
      } else {
        BetterOrder(w, o, w, sc.nCol);
      }
    }
  }

  lemma AppendPeriodics(sc: Scan, n: nat, st: Store, t: Sample, l: nat, post: Store, m: nat)
    requires Appended(sc, n, st, t, l, post) && Periodics(sc, m, st)
    ensures Periodics(sc, m, post)
  {
    hide NEq, NLt, NDLt, Better, Agree, Level, Ascending, NoBlankFrom;
    forall k: nat | HoldsPeriodic(sc, st, k)
      ensures HoldsPeriodic(sc, post, k)
    {
      var x :| 0 <= x < |st.a| && st.a[x].isPSample && Pos(st.a[x]) == k;
      var y := if |st.a| >= sc.mxSample && x > st.iMin then x - 1 else x;
      KeptAt(sc.mxSample, st, t, y);
      assert post.a[y] == st.a[x];
    }
  }

  // What the evicted sample stood for is no larger than its own group.
  lemma EvictedIsFair(sc: Scan, n: nat, st: Store, l: nat, k: nat, c: nat)
    requires Core(sc, n, st, l) && |st.a| >= sc.mxSample && Stands(sc, st.a, st.iMin, k, c)
    ensures NEq(sc.rows, n, k, c) <= st.a[st.iMin].anEq[st.a[st.iMin].iCol]
  {
    hide NEq, NLt, NDLt, Better;
    var s := st.a[st.iMin];
    ScoreKnown(sc, n, s, l);
    NEqSame(sc.rows, n, Pos(s), k, c);
    NEqShrinks(sc.rows, n, Pos(s), s.iCol, c);
  }

  lemma AppendStands(sc: Scan, n: nat, st: Store, t: Sample, post: Store, x: nat, k: nat, c: nat)
    requires 0 < sc.mxSample
    requires AllShaped(st.a, sc.nCol) && AllShaped(post.a, sc.nCol) && VictimNoWorse(sc, st, post)
    requires |st.a| >= sc.mxSample ==> st.iMin < |st.a|
    requires post.a == Kept(sc.mxSample, st) + [t] && Stands(sc, st.a, x, k, c)
    requires |st.a| >= sc.mxSample && x == st.iMin ==> NEq(sc.rows, n, k, c) <= st.a[st.iMin].anEq[st.a[st.iMin].iCol]
    ensures CoveredGroup(sc, n, post, k, c)
  {
    hide NEq, NLt, NDLt, Better;
    if |st.a| >= sc.mxSample && x == st.iMin {
      BetterCases(st.a[st.iMin], post.a[post.iMin]);
    } else {
      var y := if |st.a| >= sc.mxSample && x > st.iMin then x - 1 else x;
      KeptAt(sc.mxSample, st, t, y);
      assert Stands(sc, post.a, y, k, c);
    }
  }

  lemma {:induction false} AppendCover(sc: Scan, n: nat, st: Store, t: Sample, l: nat, post: Store, c0: nat)
    requires Appended(sc, n, st, t, l, post) && Covered(sc, n, st, c0) && VictimNoWorse(sc, st, post)
    ensures Covered(sc, n, post, c0)
  {
    hide NEq, NLt, NDLt, Better;
    forall x: nat, k: nat, c: nat | Stands(sc, st.a, x, k, c)
      ensures CoveredGroup(sc, n, post, k, c)
    {
      if |st.a| >= sc.mxSample && x == st.iMin { EvictedIsFair(sc, n, st, l, k, c); }
      AppendStands(sc, n, st, t, post, x, k, c);
    }
    CoverKept(sc, n, st, post, c0);
  }

  // A new sample for the closing group.
  lemma NewIsLast(sc: Scan, n: nat, st: Store, new_: Sample, l: nat)
    requires 0 < l && Core(sc, n, st, l) && Candidate(sc, n, new_, l - 1) && !SomeOpen(st.a, l - 1)
    ensures AllBefore(st.a, Pos(new_))
  {
    hide NEq, NLt, NDLt, Better;
    forall x | 0 <= x < |st.a|
      ensures Pos(st.a[x]) < Pos(new_)
    {
      NoneOpenMeansLater(sc, n, st, new_, l, x);
    }
  }

  lemma CoreDown(sc: Scan, n: nat, st: Store, l: nat)
    requires 0 < l && Core(sc, n, st, l)
    ensures Core(sc, n, st, l - 1)
  {
    hide NEq, NLt, NDLt, Better;
    LevelDown(sc, n, st.a, l);
  }

  lemma NewAppended(sc: Scan, n: nat, st: Store, new_: Sample, l: nat, post: Store)
    requires 0 < l && Core(sc, n, st, l) && Candidate(sc, n, new_, l - 1) && !SomeOpen(st.a, l - 1)
    requires |st.a| >= sc.mxSample ==> Better(new_, st.a[st.iMin])
    requires AllShaped(post.a, sc.nCol) && VictimFound(sc.mxSample, sc.nCol, st, post)
    requires post.a == Kept(sc.mxSample, st) + [Blanked(new_, l - 1)]
    requires post.nMaxEqZero == if l - 1 > st.nMaxEqZero then l - 1 else st.nMaxEqZero
    ensures Appended(sc, n, st, Blanked(new_, l - 1), l - 1, post)
  {
    hide NEq, NLt, NDLt, Agree, Score;
    BlankedLevel(sc, n, new_, l - 1);
    CoreDown(sc, n, st, l);
    NewIsLast(sc, n, st, new_, l);
  }

  lemma AppendedParts(sc: Scan, n: nat, st: Store, t: Sample, l: nat, post: Store)
    requires Appended(sc, n, st, t, l, post)
    ensures 0 < n && 0 < sc.nCol && AllShaped(st.a, sc.nCol) && AllShaped(post.a, sc.nCol)
    ensures post.a != [] && post.a[|post.a| - 1] == t && (|st.a| >= sc.mxSample ==> st.iMin < |st.a|)
  {
    hide NEq, NLt, NDLt, Better;
  }

  lemma {:induction false} AppendStep(sc: Scan, n: nat, st: Store, t: Sample, l: nat, m: nat, post: Store)
    requires 0 < l && Appended(sc, n, st, t, l - 1, post) && Periodics(sc, m, st) && Covered(sc, n, st, l)
    requires t.iCol == l - 1 && Agree(sc.rows, Pos(t), n - 1, l - 1)
    ensures StoreOk(sc, n, post, l - 1, m) && VictimNoWorse(sc, st, post)
  {
    hide NEq, NLt, NDLt, Better, Agree, Core, Covered, Periodics, StoreOk, VictimNoWorse, Level, Appended;
    var last := |post.a| - 1;
    AppendedParts(sc, n, st, t, l - 1, post);
    assert VictimNoWorse(sc, st, post) by { AppendVictim(sc, n, st, t, l - 1, post); }
    assert StoreOk(sc, n, post, l - 1, m) by {
      assert Core(sc, n, post, l - 1) by { AppendCore(sc, n, st, t, l - 1, post); }
      assert Periodics(sc, m, post) by { AppendPeriodics(sc, n, st, t, l - 1, post, m); }
      assert Covered(sc, n, post, l) by { AppendCover(sc, n, st, t, l - 1, post, l); }
      Closes(sc, n, l, m, last, post);
    }
  }

  // ----- One turn of the loop that pushes closing groups --------------------------------

  // The loop body's decision and its effect.
  ghost predicate Pushed(sc: Scan, st: Store, new_: Sample, i: nat, post: Store)
    requires Shaped(new_, sc.nCol) && AllShaped(st.a, sc.nCol)
    requires |st.a| >= sc.mxSample ==> st.iMin < |st.a|
  {
    if |st.a| < sc.mxSample || Better(new_, st.a[st.iMin]) then Inserted(sc.mxSample, sc.nCol, st, new_, i, post)
    else post == st
  }

  lemma VictimSame(sc: Scan, st: Store, post: Store)
    requires AllShaped(st.a, sc.nCol) && AllShaped(post.a, sc.nCol) && post.a == st.a && post.iMin == st.iMin
    requires |st.a| >= sc.mxSample > 0 ==> st.iMin < |st.a|
    ensures VictimNoWorse(sc, st, post)
  {
    hide NEq, NLt, NDLt, Better;
    if |st.a| >= sc.mxSample > 0 { BetterOrder(st.a[st.iMin], st.a[st.iMin], st.a[st.iMin], sc.nCol); }
  }

  lemma {:induction false} InsertStep(sc: Scan, n: nat, st: Store, new_: Sample, l: nat, m: nat, post: Store)
    requires 0 < l && StoreOk(sc, n, st, l, m) && Candidate(sc, n, new_, l - 1)
    requires |st.a| >= sc.mxSample ==> Better(new_, st.a[st.iMin])
    requires Inserted(sc.mxSample, sc.nCol, st, new_, l - 1, post)
    ensures StoreOk(sc, n, post, l - 1, m) && VictimNoWorse(sc, st, post)
  {
    hide NEq, NLt, NDLt, Better, Agree, Covered, Leader, Periodics, Level, Figures;
    if OpenPeriodic(st.a, l - 1) {
      PeriodicStep(sc, n, st, new_, l, m, post);
      VictimSame(sc, st, post);
    } else if SomeOpen(st.a, l - 1) {
      var u: nat :| BestOpen(st.a, sc.nCol, l - 1, u) && post.a == st.a[u := Upgrade(st.a[u], new_)];
      UpgradeStep(sc, n, st, new_, l, m, u, post);
    } else {
      NewAppended(sc, n, st, new_, l, post);
      AppendStep(sc, n, st, Blanked(new_, l - 1), l, m, post);
    }
  }

  // Pushing the best row of a closing group keeps every invariant, closes one
  // more column, and never lowers the score of the worst kept sample.
  lemma {:induction false} PushStep(sc: Scan, n: nat, st: Store, new_: Sample, l: nat, m: nat, post: Store)
    requires 0 < l && StoreOk(sc, n, st, l, m) && Candidate(sc, n, new_, l - 1)
    requires Pushed(sc, st, new_, l - 1, post)
    ensures StoreOk(sc, n, post, l - 1, m) && VictimNoWorse(sc, st, post)
  {
    hide NEq, NLt, NDLt, Better;
    if |st.a| >= sc.mxSample && !Better(new_, st.a[st.iMin]) {
      SkipStep(sc, n, st, new_, l, m);
      VictimSame(sc, st, post);
    } else {
      InsertStep(sc, n, st, new_, l, m, post);
    }
  }
}
