/** The bounded reservoir of samples: its ordering, what one insertion does, and
    what every insertion preserves. */
module Reservoir {
  import opened IndexRows

  // A sample row. Counts of groups that are still open are stored as 0.
  datatype Sample = Sample(
    anEq: seq<nat>,
    anLt: seq<nat>,
    anDLt: seq<nat>,
    rowid: int,
    isPSample: bool,
    iCol: nat,
    iHash: nat)

  // The reservoir a[0..nSample) together with the fields that describe it.
  datatype Store = Store(a: seq<Sample>, iMin: nat, nMaxEqZero: nat)

  // What is scanned: the index with the rowid of each row, the sample budget
  // and the periodic interval.
  datatype Scan = Scan(rows: seq<Row>, rowids: seq<int>, nCol: nat, mxSample: nat, nPSample: nat)

  predicate Shaped(s: Sample, nCol: nat) {
    0 < nCol == |s.anEq| == |s.anLt| == |s.anDLt| && s.iCol < nCol
  }

  // ----- Ordering ------------------------------------------------------------

  // What makes a sample worth keeping: the size of the group it stands for,
  // then a shorter prefix, then the sizes of the finer groups, then the hash.
  function Score(s: Sample): seq<int>
    requires s.iCol < |s.anEq|
  {
    var group: int, col: int := s.anEq[s.iCol], s.iCol;
    [group, -col] + Tail(s)
  }

  function Tail(s: Sample): seq<int>
    requires s.iCol < |s.anEq|
  {
    s.anEq[s.iCol + 1..] + [s.iHash]
  }

  predicate LexGreater(x: seq<int>, y: seq<int>) {
    var d := FirstDiff(x, y);
    d < |x| && d < |y| && x[d] > y[d]
  }

  predicate Better(s: Sample, t: Sample)
    requires s.iCol < |s.anEq| && t.iCol < |t.anEq|
  {
    LexGreater(Score(s), Score(t))
  }

  // Same selected column, group sizes ignored.
  predicate BetterPost(s: Sample, t: Sample)
    requires s.iCol < |s.anEq| && t.iCol < |t.anEq|
  {
    LexGreater(Tail(s), Tail(t))
  }

  // Lexicographic comparison, one leading pair at a time.
  lemma LexStep(x: int, y: int, xs: seq<int>, ys: seq<int>)
    ensures LexGreater([x] + xs, [y] + ys) <==> x > y || (x == y && LexGreater(xs, ys))
  {
    assert ([x] + xs)[1..] == xs && ([y] + ys)[1..] == ys;
    var d := FirstDiff([x] + xs, [y] + ys);
    if x == y { DiffIs([x] + xs, [y] + ys, FirstDiff(xs, ys) + 1); }
  }

  lemma BetterCases(s: Sample, t: Sample)
    requires s.iCol < |s.anEq| && t.iCol < |t.anEq|
    ensures Better(s, t) <==>
            || s.anEq[s.iCol] > t.anEq[t.iCol]
            || (s.anEq[s.iCol] == t.anEq[t.iCol] && (s.iCol < t.iCol || (s.iCol == t.iCol && BetterPost(s, t))))
  {
    hide LexGreater, FirstDiff;
    var gs: int, gt: int, cs: int, ct: int := s.anEq[s.iCol], t.anEq[t.iCol], s.iCol, t.iCol;
    assert Score(s) == [gs] + ([-cs] + Tail(s));
    assert Score(t) == [gt] + ([-ct] + Tail(t));
    LexStep(gs, gt, [-cs] + Tail(s), [-ct] + Tail(t));
    LexStep(-cs, -ct, Tail(s), Tail(t));
  }

  // Scores of one index compare like numbers: exactly one of greater, less or
  // equal, and the order is transitive.
  lemma LexTotal(x: seq<int>, y: seq<int>)
    ensures !(LexGreater(x, y) && LexGreater(y, x))
    ensures |x| == |y| ==> LexGreater(x, y) || LexGreater(y, x) || x == y
  {
    DiffSymmetric(x, y);
  }

  lemma {:induction false} LexTransitive(x: seq<int>, y: seq<int>, z: seq<int>)
    requires LexGreater(x, y) && LexGreater(y, z)
    ensures LexGreater(x, z)
  {
    var d, e := FirstDiff(x, y), FirstDiff(y, z);
    DiffIs(x, z, if d < e then d else e);
  }

  // Better is a strict total order on scores: irreflexive, transitive, and
  // whatever it does not separate has the same score.
  lemma {:induction false} BetterOrder(s: Sample, t: Sample, u: Sample, nCol: nat)
    requires Shaped(s, nCol) && Shaped(t, nCol) && Shaped(u, nCol)
    ensures !Better(s, s)
    ensures Better(s, t) && Better(t, u) ==> Better(s, u)
    ensures !Better(s, t) && !Better(t, s) ==> Score(s) == Score(t)
  {
    LexTotal(Score(s), Score(s));
    BetterCases(s, t);
    BetterCases(t, s);
    LexTotal(Score(s), Score(t));
    if Better(s, t) && Better(t, u) { LexTransitive(Score(s), Score(t), Score(u)); }
  }

  // A strictly better sample beats everything the other one is not beaten by.
  lemma BetterChain(s: Sample, t: Sample, u: Sample, nCol: nat)
    requires Shaped(s, nCol) && Shaped(t, nCol) && Shaped(u, nCol)
    requires (Better(s, t) && !Better(u, t)) || (!Better(t, s) && Better(t, u))
    ensures Better(s, u)
  {
    BetterOrder(t, u, s, nCol);
    BetterOrder(s, t, u, nCol);
    BetterOrder(u, t, s, nCol);
    if Better(s, t) && !Better(u, t) && !Better(t, u) { assert Score(t) == Score(u); }
    if Better(t, u) && !Better(t, s) && !Better(s, t) { assert Score(s) == Score(t); }
  }

  // ----- One insertion ---------------------------------------------------------

  // Sample x stands in the group, still open at column i, of the row just read.
  predicate Open(a: seq<Sample>, i: nat, x: nat) {
    x < |a| && i < |a[x].anEq| && a[x].anEq[i] == 0
  }

  predicate AllShaped(a: seq<Sample>, nCol: nat) {
    forall x {:trigger a[x]} :: 0 <= x < |a| ==> Shaped(a[x], nCol)
  }

  // The best open sample; the last one of equally good ones.
  ghost predicate BestOpen(a: seq<Sample>, nCol: nat, i: nat, u: nat)
    requires AllShaped(a, nCol)
  {
    Open(a, i, u) &&
    forall x: nat {:trigger Open(a, i, x)} :: Open(a, i, x) && x != u ==>
      !Better(a[x], a[u]) && (u < x ==> Better(a[u], a[x]))
  }

  // The worst non-periodic sample; the last one of equally bad ones.
  ghost predicate Least(a: seq<Sample>, nCol: nat, m: nat)
    requires AllShaped(a, nCol)
  {
    m < |a| && !a[m].isPSample &&
    forall x {:trigger a[x]} :: 0 <= x < |a| && x != m && !a[x].isPSample ==>
      !Better(a[m], a[x]) && (x < m ==> Better(a[x], a[m]))
  }

  function Upgrade(s: Sample, new_: Sample): Sample
    requires new_.iCol < |s.anEq| && new_.iCol < |new_.anEq|
  {
    s.(iCol := new_.iCol, anEq := s.anEq[new_.iCol := new_.anEq[new_.iCol]])
  }

  function Zeros(k: nat): (z: seq<nat>)
    ensures |z| == k && forall j :: 0 <= j < k ==> z[j] == 0
  {
    seq(k, _ => 0)
  }

  function Blanked(s: Sample, nEqZero: nat): Sample
    requires nEqZero <= |s.anEq|
  {
    s.(anEq := Zeros(nEqZero) + s.anEq[nEqZero..])
  }

  function Without<T>(a: seq<T>, m: nat): seq<T>
    requires m < |a|
  {
    a[..m] + a[m + 1..]
  }

  // The samples that survive when room is made for one more.
  function Kept(mx: nat, st: Store): seq<Sample>
    requires |st.a| >= mx ==> st.iMin < |st.a|
  {
    if |st.a| >= mx then Without(st.a, st.iMin) else st.a
  }

  // The victim field after an insertion that changed the samples.
  ghost predicate VictimFound(mx: nat, nCol: nat, old_: Store, post: Store)
    requires AllShaped(post.a, nCol)
  {
    if |post.a| >= mx then Least(post.a, nCol, post.iMin) else post.iMin == old_.iMin
  }

  ghost predicate OpenPeriodic(a: seq<Sample>, i: nat) {
    exists x: nat :: Open(a, i, x) && a[x].isPSample
  }

  ghost predicate SomeOpen(a: seq<Sample>, i: nat) {
    exists x: nat :: Open(a, i, x)
  }

  // Everything an insertion may do to the reservoir.
  ghost predicate Inserted(mx: nat, nCol: nat, old_: Store, new_: Sample, nEqZero: nat, post: Store) {
    && AllShaped(old_.a, nCol) && AllShaped(post.a, nCol) && Shaped(new_, nCol) && nEqZero < nCol
    && post.nMaxEqZero == (if nEqZero > old_.nMaxEqZero then nEqZero else old_.nMaxEqZero)
    && if !new_.isPSample && OpenPeriodic(old_.a, new_.iCol) then
         post.a == old_.a && post.iMin == old_.iMin
       else if !new_.isPSample && SomeOpen(old_.a, new_.iCol) then
         && VictimFound(mx, nCol, old_, post)
         && exists u: nat :: BestOpen(old_.a, nCol, new_.iCol, u) && post.a == old_.a[u := Upgrade(old_.a[u], new_)]
       else
         && VictimFound(mx, nCol, old_, post)
         && (|old_.a| >= mx ==> old_.iMin < |old_.a|)
         && post.a == Kept(mx, old_) + [Blanked(new_, nEqZero)]
  }
}
