/** The keyword lookup: hash, chain and letter-by-letter comparison, against a linear
    search of all keywords. */
module KeywordLookup {
  import opened KeywordTables
  import opened KeywordFacts
  import opened KeywordChains

  // ~0x20: a letter becomes upper case.
  function Fold(c: bv8): bv8 { c & 0xDF }

  predicate Match(z: seq<bv8>, k: int) {
    KwLen(k) == |z| && forall d | 0 <= d < |z| :: Fold(z[d]) == Letter(k, d)
  }

  // The first keyword from k on that z spells, or 0.
  function Search(z: seq<bv8>, k: int): int
    requires 0 < k <= SQLITE_N_KEYWORD + 1
    decreases SQLITE_N_KEYWORD - k
  {
    if k > SQLITE_N_KEYWORD then 0 else if Match(z, k) then k else Search(z, k + 1)
  }

  lemma {:induction false} SearchIs(z: seq<bv8>, k: int, i: int)
    requires 0 < k <= SQLITE_N_KEYWORD + 1
    ensures Search(z, k) == 0 ==> (k <= i <= SQLITE_N_KEYWORD ==> !Match(z, i))
    ensures Search(z, k) != 0 ==> k <= Search(z, k) <= SQLITE_N_KEYWORD && Match(z, Search(z, k))
    decreases SQLITE_N_KEYWORD - k
  {
    hide Match;
    if k <= SQLITE_N_KEYWORD && !Match(z, k) { SearchIs(z, k + 1, i); }
  }

  lemma FoldLower(c: bv8, k: bv8)
    requires Fold(c) == k && Upper(k)
    ensures Lower(c) == k + 32
  {}

  // The slot the lookup computes.
  function SlotOf(z: seq<bv8>): int
    requires 2 <= |z| < 0x8000_0000_0000_0000
  {
    Hash(Lower(z[0]), Lower(z[|z| - 1]), Bits(|z|))
  }

  lemma SlotRange(a: bv8, b: bv8, n: bv64)
    ensures 0 <= Hash(a, b, n) < 127
  {}

  // A keyword that z spells is in the chain of z's slot.
  lemma MatchOnPath(z: seq<bv8>, k: int)
    requires 2 <= |z| < 0x8000_0000_0000_0000 && 0 < k <= SQLITE_N_KEYWORD && Match(z, k)
    ensures OnPath(SlotOf(z), k)
  {
    hide Hash, Bits, Upper, Lower, Fold, KwText, KwLen, KwOffset, OnPath;
    AllPlaced(k);
    assert Letter(k, 0) == First(k) && Letter(k, |z| - 1) == Final(k);
    FoldLower(z[0], First(k));
    FoldLower(z[|z| - 1], Final(k));
  }

  // At most one keyword is spelled by z.
  lemma OneMatch(z: seq<bv8>, i: int, j: int)
    requires 2 <= |z| < 0x8000_0000_0000_0000
    requires 0 < i <= SQLITE_N_KEYWORD && 0 < j <= SQLITE_N_KEYWORD && Match(z, i) && Match(z, j)
    ensures i == j
  {
    hide Hash, Fold, KwLen, Letter, OnPath;
    if i != j {
      MatchOnPath(z, i);
      MatchOnPath(z, j);
      SlotRange(Lower(z[0]), Lower(z[|z| - 1]), Bits(|z|));
      Distinct(SlotOf(z), if i < j then i else j, if i < j then j else i);
    }
  }

  function Walk(i: int, n: nat): int { if n == 0 then i else KwNext(Walk(i, n - 1)) }

  lemma PathIsWalk(p: int, h: int, k: int)
    requires p == KwHash(h) && OnPath(h, k)
    ensures exists n: nat :: n < 4 && k == Walk(p, n)
  {
    hide KwHash, KwNext;
    assert Walk(p, 0) == p;
    assert Walk(p, 1) == KwNext(p);
    assert Walk(p, 2) == KwNext(KwNext(p));
    assert Walk(p, 3) == KwNext(KwNext(KwNext(p)));
  }

  lemma FourSteps(p: int)
    ensures Walk(p, 4) == KwNext(KwNext(KwNext(KwNext(p))))
  {
    hide KwNext;
    assert Walk(p, 0) == p;
    assert Walk(p, 1) == KwNext(p);
    assert Walk(p, 2) == KwNext(KwNext(p));
    assert Walk(p, 3) == KwNext(KwNext(KwNext(p)));
  }

  lemma {:induction false} WalkEnds(p: int, n: nat, m: nat)
    requires n <= m && Walk(p, n) == 0
    ensures Walk(p, m) == 0
  {
    if n < m {
      WalkEnds(p, n, m - 1);
      NoNext();
    }
  }

  lemma {:induction false} WalkStays(p: int, n: nat)
    requires 0 <= p <= SQLITE_N_KEYWORD
    ensures 0 <= Walk(p, n) <= SQLITE_N_KEYWORD
    ensures n >= 4 ==> Walk(p, n) == 0
  {
    hide KwNext;
    if n > 0 {
      WalkStays(p, n - 1);
      ChainEnds(Walk(p, n - 1));
    }
    if n >= 4 {
      ChainEnds(p);
      FourSteps(p);
      WalkEnds(p, 4, n);
    }
  }

  // Does keyword i spell z: the length, the first two letters, then the others.
  method Compare(z: seq<bv8>, i: int) returns (same: bool)
    requires 2 <= |z| && 0 < i <= SQLITE_N_KEYWORD
    ensures same == Match(z, i)
  {
    hide KwText, KwOffset, KwLen;
    if KwLen(i) != |z| { return false; }
    var o := KwOffset(i);
    if Fold(z[0]) != KwText(o) {
      assert Letter(i, 0) == KwText(o);
      return false;
    }
    if Fold(z[1]) != KwText(o + 1) {
      assert Letter(i, 1) == KwText(o + 1);
      return false;
    }
    var j := 2;
    while j < |z| && Fold(z[j]) == KwText(o + j)
      invariant 2 <= j <= |z|
      invariant forall d | 0 <= d < j :: Fold(z[d]) == Letter(i, d)
    {
      j := j + 1;
    }
    if j < |z| {
      assert Fold(z[j]) != Letter(i, j);
      return false;
    }
    return true;
  }

  // keywordCode: the keyword that z spells, or 0.  The chain walk gives the same
  // answer as the linear search, though chains do not run in keyword order.
  method KeywordCode(z: seq<bv8>) returns (k: int)
    requires 2 <= |z| < 0x8000_0000_0000_0000
    ensures k == Search(z, 1)
  {
    hide Hash, KwHash, KwNext, Match, OnPath, Bits, Lower, Search;
    var h := SlotOf(z);
    SlotRange(Lower(z[0]), Lower(z[|z| - 1]), Bits(|z|));
    HeadRange(h);
    var i := KwHash(h);
    ghost var p, n: nat := i, 0;
    while i > 0
      invariant i == Walk(p, n) && n <= 4
      invariant forall m: nat | m < n :: !Match(z, Walk(p, m))
      decreases 4 - n
    {
      WalkStays(p, n);
      var same := Compare(z, i);
      if same {
        SearchIs(z, 1, i);
        if Search(z, 1) != 0 { OneMatch(z, i, Search(z, 1)); }
        return i;
      }
      i := KwNext(i);
      n := n + 1;
    }
    WalkStays(p, n);
    SearchIs(z, 1, 1);
    if Search(z, 1) != 0 {
      var s := Search(z, 1);
      MatchOnPath(z, s);
      PathIsWalk(p, h, s);
      ghost var m: nat :| m < 4 && s == Walk(p, m);
      if m >= n { WalkEnds(p, n, m); }
    }
    return 0;
  }

  // sqlite3KeywordCode: shorter tokens are identifiers.
  method Sqlite3KeywordCode(z: seq<bv8>) returns (k: int)
    requires |z| < 0x8000_0000_0000_0000
    ensures k == if |z| >= 2 then Search(z, 1) else 0
  {
    hide Search;
    k := 0;
    if |z| >= 2 { k := KeywordCode(z); }
  }
}
