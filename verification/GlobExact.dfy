/** When the matcher answers what the pattern means. */
module GlobExact {
  import opened GlobPattern

  // ----- The patterns it gets right ---------------------------------------------------

  // After any further stars, the pattern can go on with a digit.
  predicate DigitNext(p: seq<Item>) {
    p != [] && if p[0] == Star then DigitNext(p[1..]) else exists c | 48 <= c <= 57 :: Takes(p[0], c)
  }

  // No run with a star stands directly before [ or #, and no # before something that
  // can take a digit.
  predicate Clean(p: seq<Item>)
    decreases |p|
  {
    if p == [] then true
    else if p[0] == Star then
      var n := WildRun(p);
      (n == |p| || p[n].Lit?) && Clean(p[n..])
    else if p[0] == Digits then !DigitNext(p[1..]) && Clean(p[1..])
    else Clean(p[1..])
  }

  // ----- Runs of * and ? --------------------------------------------------------------

  predicate MatchesAt(p: seq<Item>, z: seq<int>, j: int) { 0 <= j <= |z| && Matches(p, z[j..]) }

  // From k characters on, or after exactly k.
  ghost predicate Reaches(p: seq<Item>, z: seq<int>, k: nat, more: bool) {
    if more then exists j :: k <= j && MatchesAt(p, z, j) else MatchesAt(p, z, k)
  }

  lemma ReachesTail(p: seq<Item>, z: seq<int>, i: nat, k: nat, more: bool)
    requires i <= |z|
    ensures Reaches(p, z[i..], k, more) <==> Reaches(p, z, i + k, more)
  {
    hide Matches;
    forall j: int ensures MatchesAt(p, z[i..], j) <==> 0 <= j && MatchesAt(p, z, i + j) {
      if 0 <= j <= |z| - i { assert z[i..][j..] == z[i + j..]; }
    }
    if more && Reaches(p, z, i + k, more) {
      var j :| i + k <= j && MatchesAt(p, z, j);
      assert MatchesAt(p, z[i..], j - i);
    }
  }

  // A run of * and ? with k question marks takes k characters, or more with a star.
  lemma {:induction false} WildMatches(p: seq<Item>, z: seq<int>, n: nat)
    requires n <= |p| && forall i | 0 <= i < n :: Wild(p[i])
    ensures Matches(p, z) <==> Reaches(p[n..], z, Anys(p[..n]), Star in p[..n])
    decreases n
  {
    if n == 0 {
      assert p[0..] == p && z[0..] == z && Anys(p[..0]) == 0;
    } else {
      var rest := p[1..];
      var k, more := Anys(rest[..n - 1]), Star in rest[..n - 1];
      assert p[..n][1..] == rest[..n - 1] && rest[n - 1..] == p[n..] && p[..n] == [p[0]] + rest[..n - 1];
      if p[0] == Any {
        if z != [] {
          WildMatches(rest, z[1..], n - 1);
          ReachesTail(p[n..], z, 1, k, more);
        } else {
          WildEmpty(p);
        }
      } else {
        forall i: nat | i <= |z| ensures Matches(rest, z[i..]) <==> Reaches(p[n..], z, i + k, more) {
          WildMatches(rest, z[i..], n - 1);
          ReachesTail(p[n..], z, i, k, more);
        }
        StarReaches(p, z, n, k, more);
      }
    }
  }

  lemma WildEmpty(p: seq<Item>)
    requires p != [] && p[0] == Any
    ensures !Matches(p, [])
  {}

  lemma StarReaches(p: seq<Item>, z: seq<int>, n: nat, k: nat, more: bool)
    requires 0 < n <= |p| && p[0] == Star
    requires forall i: nat | i <= |z| :: Matches(p[1..], z[i..]) <==> Reaches(p[n..], z, i + k, more)
    ensures Matches(p, z) <==> Reaches(p[n..], z, k, true)
  {
    var q := p[n..];
    if Matches(p, z) {
      var i :| 0 <= i <= |z| && Matches(p[1..], z[i..]);
      assert Reaches(q, z, i + k, more);
      if !more { assert MatchesAt(q, z, i + k); }
    }
    if Reaches(q, z, k, true) {
      var j :| k <= j && MatchesAt(q, z, j);
      assert Reaches(q, z, j, more);
      assert Matches(p[1..], z[j - k..]);
    }
  }

  // ----- Clean patterns ---------------------------------------------------------------

  // After a run with a star, a literal may stand anywhere further on.
  lemma {:induction false} SearchLiteral(q: seq<Item>, z: seq<int>)
    requires q != [] && q[0].Lit?
    ensures RunAfterStar(q, z) <==> exists j | 0 <= j < |z| :: z[j] == q[0].c && Run(q[1..], z[j + 1..])
    decreases |z|
  {
    hide Run;
    if z != [] {
      SearchLiteral(q, z[1..]);
      forall j | 1 <= j < |z| ensures z[1..][j - 1..] == z[j..] && z[1..][j - 1] == z[j] {}
      if RunAfterStar(q, z) && !(z[0] == q[0].c && Run(q[1..], z[1..])) {
        var j :| 0 <= j < |z[1..]| && z[1..][j] == q[0].c && Run(q[1..], z[1..][j + 1..]);
        assert z[1..][j + 1..] == z[j + 2..];
      }
    }
  }

  // A digit at hand is taken by the next solid item or skipped by a star.
  lemma {:induction false} SkipDigit(p: seq<Item>, z: seq<int>)
    requires p != [] && Matches(p, z) && z != [] && IsDigit(z[0])
    ensures DigitNext(p) || (p[0] == Star && Matches(p, z[1..]))
    decreases |p|
  {
    if p[0] == Star {
      var k :| 0 <= k <= |z| && Matches(p[1..], z[k..]);
      if k > 0 {
        assert z[1..][k - 1..] == z[k..];
      } else if |p| > 1 {
        assert z[0..] == z;
        SkipDigit(p[1..], z);
        assert z[1..][0..] == z[1..];
      }
    } else if p[0] == Digits {
      assert Takes(p[0], 48);
    } else {
      assert Takes(p[0], z[0]);
    }
  }

  lemma {:induction false} SkipDigits(p: seq<Item>, z: seq<int>, n: nat)
    requires !DigitNext(p) && Matches(p, z) && n <= |z| && forall k | 0 <= k < n :: IsDigit(z[k])
    ensures Matches(p, z[n..])
    decreases n
  {
    if n == 0 {
      assert z[0..] == z;
    } else {
      SkipDigit(p, z);
      SkipDigits(p, z[1..], n - 1);
      assert z[1..][n - 1..] == z[n..];
    }
  }

  // The characters # takes are the longest number at hand.
  lemma LongestNumber(z: seq<int>, k: nat)
    requires k <= |z| && Number(z[..k])
    ensures k <= NumberRun(z) && forall i | k <= i < NumberRun(z) :: IsDigit(z[i])
  {
    var y := z[..k];
    var s := if y[0] == PLUS || y[0] == DASH then 1 else 0;
    var d := y[s..];
    assert forall i | s <= i < k :: IsDigit(z[i]) by {
      forall i | s <= i < k ensures IsDigit(z[i]) { assert d[i - s] == z[i]; }
    }
    DigitsTo(z[s..], k - s);
    forall i | k <= i < NumberRun(z) ensures IsDigit(z[i]) { assert z[s..][i - s] == z[i]; }
  }

  lemma DigitsTo(z: seq<int>, n: nat)
    requires n <= |z| && forall i | 0 <= i < n :: IsDigit(z[i])
    ensures n <= DigitRun(z)
  {}

  lemma NumberRunIs(z: seq<int>)
    requires NumberRun(z) > 0
    ensures Number(z[..NumberRun(z)])
  {
    var s := if |z| > 1 && (z[0] == DASH || z[0] == PLUS) && IsDigit(z[1]) then 1 else 0;
    var n := NumberRun(z);
    var y := z[..n];
    assert forall i | s <= i < n :: y[i] == z[s..][i - s];
  }

  lemma HashIs(p: seq<Item>, z: seq<int>)
    requires p != [] && p[0] == Digits && !DigitNext(p[1..])
    ensures Matches(p, z) <==> NumberRun(z) > 0 && Matches(p[1..], z[NumberRun(z)..])
  {
    hide DigitNext, Number, NumberRun;
    var n := NumberRun(z);
    if n > 0 && Matches(p[1..], z[n..]) { NumberRunIs(z); }
    if Matches(p, z) {
      var k :| 0 <= k <= |z| && Number(z[..k]) && Matches(p[1..], z[k..]);
      LongestNumber(z, k);
      NumberNonempty(z[..k]);
      SkipDigits(p[1..], z[k..], n - k);
      assert z[k..][n - k..] == z[n..];
    }
  }

  lemma NumberNonempty(s: seq<int>)
    requires Number(s)
    ensures s != []
  {}

  lemma LiteralAt(q: seq<Item>, z: seq<int>, j: nat)
    requires q != [] && q[0].Lit? && j <= |z|
    ensures MatchesAt(q, z, j) <==> j < |z| && z[j] == q[0].c && Matches(q[1..], z[j + 1..])
  {
    if j < |z| { assert z[j..][1..] == z[j + 1..]; }
  }

  lemma StarLiteral(q: seq<Item>, z: seq<int>, k: nat)
    requires q != [] && q[0].Lit? && k <= |z|
    requires forall y :: Run(q[1..], y) == Matches(q[1..], y)
    ensures RunAfterStar(q, z[k..]) <==> Reaches(q, z, k, true)
  {
    hide Run, Matches, RunAfterStar;
    SearchLiteral(q, z[k..]);
    forall j | 0 <= j <= |z| ensures MatchesAt(q, z, j) <==> j < |z| && z[j] == q[0].c && Run(q[1..], z[j + 1..]) {
      LiteralAt(q, z, j);
    }
    forall j | k <= j < |z| ensures z[k..][j - k] == z[j] && z[k..][j - k + 1..] == z[j + 1..] {}
    if Reaches(q, z, k, true) {
      var j :| k <= j && MatchesAt(q, z, j);
      assert j < |z|;
      assert z[k..][j - k] == q[0].c && Run(q[1..], z[k..][j - k + 1..]);
    }
    if RunAfterStar(q, z[k..]) {
      var i :| 0 <= i < |z[k..]| && z[k..][i] == q[0].c && Run(q[1..], z[k..][i + 1..]);
      assert z[k..][i + 1..] == z[k + i + 1..];
      assert MatchesAt(q, z, k + i);
    }
  }

  lemma StarEnd(z: seq<int>, k: nat)
    ensures Reaches([], z, k, true) <==> k <= |z|
  {
    if k <= |z| { assert MatchesAt([], z, |z|); }
  }

  lemma LitTail(p: seq<Item>)
    requires Clean(p) && p != [] && p[0].Lit?
    ensures Clean(p[1..])
  {}

  // On clean patterns the matcher answers what the pattern means, on every text.
  lemma {:induction false} CleanExact(p: seq<Item>, z: seq<int>)
    requires Clean(p)
    ensures Run(p, z) <==> Matches(p, z)
    decreases |p|
  {
    if p == [] {
    } else if p[0] == Star {
      var n := WildRun(p);
      var q, k := p[n..], Anys(p[..n]);
      assert p[..n][0] == Star;
      WildMatches(p, z, n);
      if q == [] {
        StarEnd(z, k);
      } else {
        LitTail(q);
        forall y ensures Run(q[1..], y) == Matches(q[1..], y) { CleanExact(q[1..], y); }
        if k <= |z| { StarLiteral(q, z, k); }
      }
    } else if p[0] == Digits {
      HashIs(p, z);
      CleanExact(p[1..], z[NumberRun(z)..]);
    } else if z != [] {
      CleanExact(p[1..], z[1..]);
    }
  }
}
