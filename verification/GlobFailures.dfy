/** Patterns that are not clean because of a # are answered wrongly on some text: the
    shortest texts a pattern can match leave the matcher no room to recover. */
module GlobFailures {
  import opened GlobPattern
  import opened GlobExact

  predicate Char(c: int) { c != 0 && -128 <= c < 128 }

  // Some character can be matched: no class is empty or unclosed.
  ghost predicate Possible(p: seq<Item>) {
    forall k | 0 <= k < |p| :: p[k] == Star || exists c :: Char(c) && Takes(p[k], c)
  }

  // A run with a star stands directly before a class.
  predicate StarClass(p: seq<Item>)
    decreases |p|
  {
    p != [] &&
    if p[0] == Star then
      var n := WildRun(p);
      n < |p| && (p[n].Class? || p[n].Bad? || StarClass(p[n..]))
    else StarClass(p[1..])
  }

  function MinLen(p: seq<Item>): nat {
    if p == [] then 0 else (if p[0] == Star then 0 else 1) + MinLen(p[1..])
  }

  // ----- The shortest texts -------------------------------------------------------------

  lemma {:induction false} MatchesNeeds(p: seq<Item>, z: seq<int>)
    requires Matches(p, z)
    ensures MinLen(p) <= |z|
    decreases |p|
  {
    if p != [] {
      match p[0]
      case Star =>
        var k :| 0 <= k <= |z| && Matches(p[1..], z[k..]);
        MatchesNeeds(p[1..], z[k..]);
      case Digits =>
        var k :| 0 <= k <= |z| && Number(z[..k]) && Matches(p[1..], z[k..]);
        MatchesNeeds(p[1..], z[k..]);
      case Bad =>
      case _ => MatchesNeeds(p[1..], z[1..]);
    }
  }

  lemma {:induction false} WildLen(p: seq<Item>, n: nat)
    requires n <= |p| && forall i | 0 <= i < n :: Wild(p[i])
    ensures MinLen(p) == Anys(p[..n]) + MinLen(p[n..])
  {
    if n == 0 {
      assert p[0..] == p;
    } else {
      WildLen(p[1..], n - 1);
      assert p[..n][1..] == p[1..][..n - 1] && p[1..][n - 1..] == p[n..];
    }
  }

  lemma {:induction false} RunNeeds(p: seq<Item>, z: seq<int>)
    requires !StarClass(p) && Run(p, z)
    ensures MinLen(p) <= |z|
    decreases |p|, 0, |z|
  {
    if p != [] {
      match p[0]
      case Star =>
        var n := WildRun(p);
        WildLen(p, n);
        AfterStarNeeds(p[n..], z[Anys(p[..n])..]);
      case Digits => RunNeeds(p[1..], z[NumberRun(z)..]);
      case Bad =>
      case _ => RunNeeds(p[1..], z[1..]);
    }
  }

  lemma {:induction false} AfterStarNeeds(q: seq<Item>, z: seq<int>)
    requires q != [] ==> (q[0].Lit? || q[0].Digits?) && !StarClass(q[1..])
    requires RunAfterStar(q, z)
    ensures MinLen(q) <= |z|
    decreases |q|, 1, |z|
  {
    if q != [] {
      if RunAfterStar(q, z[1..]) {
        AfterStarNeeds(q, z[1..]);
      } else {
        RunNeeds(q[1..], z[1..]);
      }
    }
  }

  lemma PossibleParts(p: seq<Item>)
    requires Possible(p) && p != []
    ensures Possible(p[1..])
    ensures p[0] != Star ==> exists c :: Char(c) && Takes(p[0], c)
    ensures forall n: nat | n <= |p| :: Possible(p[n..])
  {
    forall n: nat, k: nat | n <= |p| && k < |p[n..]| ensures p[n..][k] == p[n + k] {}
  }

  predicate Shortest(p: seq<Item>, z: seq<int>) { Text(z) && |z| == MinLen(p) && Matches(p, z) }

  lemma DigitIs(c: int, z: seq<int>, p: seq<Item>)
    requires IsDigit(c) && p != [] && p[0] == Digits && Matches(p[1..], z)
    ensures Matches(p, [c] + z)
  {
    var y := [c] + z;
    assert y[..1] == [c] && y[1..] == z;
    assert Number(y[..1]);
  }

  lemma SolidIs(c: int, z: seq<int>, p: seq<Item>)
    requires p != [] && p[0] != Star && Takes(p[0], c) && Matches(p[1..], z)
    ensures Matches(p, [c] + z)
  {
    assert ([c] + z)[1..] == z;
    if p[0] == Digits { DigitIs(c, z, p); }
  }

  // A shortest text of a pattern; it can begin with a digit if the pattern can.
  lemma {:induction false} ShortestText(p: seq<Item>) returns (z: seq<int>)
    requires Possible(p)
    ensures Shortest(p, z)
    ensures DigitNext(p) ==> z != [] && IsDigit(z[0])
    decreases |p|
  {
    z := [];
    if p != [] {
      PossibleParts(p);
      var y := ShortestText(p[1..]);
      if p[0] == Star {
        z := y;
        assert z[0..] == z;
      } else {
        var c: int;
        if DigitNext(p) {
          c :| 48 <= c <= 57 && Takes(p[0], c);
        } else {
          c :| Char(c) && Takes(p[0], c);
        }
        z := [c] + y;
        SolidIs(c, y, p);
      }
    }
  }

  // ----- Before a run ends ---------------------------------------------------------------

  function Filler(k: nat): seq<int> { seq(k, _ => 120) }

  // A run that takes its least number of characters passes the rest on.
  lemma RunOn(p: seq<Item>, z: seq<int>)
    requires p != [] && p[0] == Star
    ensures var n := WildRun(p); var k, q := Anys(p[..n]), p[n..];
      && (Run(p, Filler(k) + z) <==> RunAfterStar(q, z))
      && (Matches(p, Filler(k) + z) <==> Reaches(q, z, 0, true))
      && MinLen(p) == k + MinLen(q)
  {
    hide Reaches;
    var n := WildRun(p);
    var k, q := Anys(p[..n]), p[n..];
    var y := Filler(k) + z;
    assert y[k..] == z;
    assert p[..n][0] == Star;
    WildMatches(p, y, n);
    WildLen(p, n);
    ReachesTail(q, y, k, 0, true);
  }

  lemma FillerText(k: nat, z: seq<int>)
    requires Text(z)
    ensures Text(Filler(k) + z)
  {}

  // ----- A # the matcher gets wrong --------------------------------------------------

  lemma HashAfterStar(q: seq<Item>, y: seq<int>)
    requires q != [] && q[0] == Digits && !StarClass(q[1..]) && |y| == MinLen(q[1..])
    ensures !RunAfterStar(q, [49] + y)
  {
    assert ([49] + y)[1..] == y;
    if RunAfterStar(q, y) { AfterStarNeeds(q, y); }
  }

  lemma LiteralAfterStar(q: seq<Item>, y: seq<int>)
    requires q != [] && q[0].Lit? && !StarClass(q[1..]) && |y| == MinLen(q[1..]) && !Run(q[1..], y)
    ensures !RunAfterStar(q, [q[0].c] + y)
  {
    assert ([q[0].c] + y)[1..] == y;
    if RunAfterStar(q, y) { AfterStarNeeds(q, y); }
  }

  // Digits after the first are taken too, and too little is left.
  lemma GreedyFails(p: seq<Item>, y: seq<int>)
    requires p != [] && p[0] == Digits && !StarClass(p[1..]) && |y| == MinLen(p[1..])
    requires (y != [] && IsDigit(y[0])) || !Run(p[1..], y)
    ensures !Run(p, [49] + y)
  {
    var z := [49] + y;
    var n := NumberRun(z);
    assert z[0..] == z && z[1..] == y;
    if Run(p[1..], z[n..]) { RunNeeds(p[1..], z[n..]); }
  }

  // A pattern with no run before a class that is not clean misses one of its own
  // shortest texts.
  lemma {:induction false} HashMismatch(p: seq<Item>) returns (z: seq<int>)
    requires Possible(p) && !StarClass(p) && !Clean(p)
    ensures Shortest(p, z) && !Run(p, z)
    decreases |p|
  {
    hide Run, RunAfterStar, Matches, Takes;
    PossibleParts(p);
    if p[0] == Star {
      var n := WildRun(p);
      var k, q := Anys(p[..n]), p[n..];
      PossibleParts(q);
      var y: seq<int>;
      if q[0] == Digits {
        y := ShortestText(q[1..]);
        DigitIs(49, y, q);
        HashAfterStar(q, y);
        y := [49] + y;
      } else {
        y := HashMismatch(q[1..]);
        LiteralAfterStar(q, y);
        LiteralIs(q, y);
        y := [q[0].c] + y;
      }
      z := Filler(k) + y;
      RunOn(p, y);
      FillerText(k, y);
      assert y[0..] == y;
      assert MatchesAt(q, y, 0);
    } else if p[0] == Digits {
      var y: seq<int>;
      if DigitNext(p[1..]) {
        y := ShortestText(p[1..]);
      } else {
        y := HashMismatch(p[1..]);
      }
      z := [49] + y;
      DigitIs(49, y, p);
      GreedyFails(p, y);
    } else {
      var y := HashMismatch(p[1..]);
      var c :| Char(c) && Takes(p[0], c);
      z := [c] + y;
      SolidIs(c, y, p);
      SolidFails(c, y, p);
    }
  }

  lemma LiteralIs(q: seq<Item>, y: seq<int>)
    requires Possible(q) && q != [] && q[0].Lit? && Matches(q[1..], y)
    ensures Char(q[0].c) && Matches(q, [q[0].c] + y)
  {
    var c :| Char(c) && Takes(q[0], c);
    SolidIs(c, y, q);
  }

  lemma SolidFails(c: int, y: seq<int>, p: seq<Item>)
    requires p != [] && p[0] != Star && p[0] != Digits && !Run(p[1..], y)
    ensures !Run(p, [c] + y)
  {
    assert ([c] + y)[1..] == y;
  }
}
