/** The matcher itself: two pointers, nested loops and a recursive call, proved to
    answer Run, and what that means for a caller. */
module GlobMatcher {
  import opened GlobPattern
  import opened GlobExact
  import opened GlobFailures

  // *p, with the terminator after the last character.
  function At(s: seq<int>, i: nat): int { if i < |s| then s[i] else 0 }

  lemma RangesCons(first: (int, int), ranges: seq<(int, int)>, c: int)
    ensures InRanges([first] + ranges, c) <==> first.0 <= c <= first.1 || InRanges(ranges, c)
  {
    var all := [first] + ranges;
    if InRanges(ranges, c) {
      var k :| 0 <= k < |ranges| && ranges[k].0 <= c <= ranges[k].1;
      assert all[k + 1] == ranges[k];
    }
    if InRanges(all, c) {
      var k :| 0 <= k < |all| && all[k].0 <= c <= all[k].1;
      if k > 0 { assert all[k] == ranges[k - 1]; }
    }
    assert all[0] == first;
  }

  lemma NoRanges(c: int)
    ensures !InRanges([], c)
  {}

  // The loop over the members of a class: is c among them, and where do they end.
  method ScanMembers(g: seq<int>, start: nat, c: int, seen0: bool) returns (closed: bool, seen: bool, next: nat)
    requires Text(g) && start <= |g|
    ensures start <= next <= |g|
    ensures match Members(g[start..], 0)
      case Open => !closed
      case Closed(ranges, rest) =>
        closed && rest == g[next..] && start < next && (seen <==> seen0 || InRanges(ranges, c))
  {
    hide InRanges;
    var i, prior := start, 0;
    seen := seen0;
    ghost var all := Members(g[start..], 0);
    while At(g, i) != 0 && At(g, i) != CLOSE
      invariant start <= i <= |g|
      invariant match Members(g[i..], prior)
        case Open => all.Open?
        case Closed(ranges, rest) =>
          all.Closed? && all.rest == rest && (seen || InRanges(ranges, c) <==> seen0 || InRanges(all.ranges, c))
      decreases |g| - i
    {
      var c2 := g[i];
      assert g[i..][1..] == g[i + 1..];
      if c2 == DASH && At(g, i + 1) != CLOSE && At(g, i + 1) != 0 && prior > 0 {
        c2 := g[i + 1];
        assert g[i..][2..] == g[i + 2..];
        if Members(g[i + 2..], 0).Closed? { RangesCons((prior, c2), Members(g[i + 2..], 0).ranges, c); }
        if prior <= c <= c2 { seen := true; }
        prior := 0;
        i := i + 2;
      } else {
        if Members(g[i + 1..], c2).Closed? { RangesCons((c2, c2), Members(g[i + 1..], c2).ranges, c); }
        if c == c2 { seen := true; }
        prior := c2;
        i := i + 1;
      }
    }
    closed := At(g, i) == CLOSE;
    next := if closed then i + 1 else i;
    NoRanges(c);
    assert closed ==> g[i..][1..] == g[i + 1..];
  }

  // [ at g[i]: does character c belong to the class, and where does the pattern go on.
  method MatchClass(g: seq<int>, i: nat, c: int) returns (ok: bool, next: nat)
    requires Text(g) && i < |g| && g[i] == OPEN
    ensures i < next <= |g|
    ensures var p := Items(g[i..]);
      p != [] && ok == Takes(p[0], c) && (ok ==> p[1..] == Items(g[next..]))
  {
    hide Members, InRanges;
    var j := i + 1;
    var seen, invert := false, false;
    assert g[i..][1..] == g[i + 1..];
    if At(g, j) == CARET {
      invert := true;
      assert g[j..][1..] == g[j + 1..];
      j := j + 1;
    }
    ghost var first := j;
    if At(g, j) == CLOSE {
      assert g[j..][1..] == g[j + 1..];
      if c == CLOSE { seen := true; }
      j := j + 1;
    }
    var closed: bool;
    closed, seen, next := ScanMembers(g, j, c, seen);
    ok := closed && seen != invert;
    if first < j && Members(g[j..], 0).Closed? { RangesCons((CLOSE, CLOSE), Members(g[j..], 0).ranges, c); }
  }

  // The items of a pattern begin with the item of its first character.
  lemma FirstItem(g: seq<int>, i: nat)
    requires i <= |g|
    ensures i == |g| <==> Items(g[i..]) == []
    ensures i < |g| ==>
      var p := Items(g[i..]);
      && p != []
      && (g[i] != OPEN ==> p[1..] == Items(g[i + 1..]))
      && (g[i] == STAR <==> p[0] == Star) && (g[i] == QUERY <==> p[0] == Any)
      && (g[i] == HASH <==> p[0] == Digits) && (g[i] == OPEN <==> p[0].Class? || p[0].Bad?)
      && (g[i] !in {STAR, QUERY, HASH, OPEN} ==> p[0] == Lit(g[i]))
  {
    hide ClassBody;
    if i < |g| { assert g[i..][1..] == g[i + 1..]; }
  }

  lemma {:induction false} WildPrefix(w: seq<Item>, q: seq<Item>)
    requires (forall k | 0 <= k < |w| :: Wild(w[k])) && (q != [] ==> !Wild(q[0]))
    ensures WildRun(w + q) == |w|
  {
    if w == [] {
      assert w + q == q;
    } else {
      WildPrefix(w[1..], q);
      assert (w + q)[1..] == w[1..] + q;
    }
  }

  lemma {:induction false} AnysConcat(a: seq<Item>, b: seq<Item>)
    ensures Anys(a + b) == Anys(a) + Anys(b)
  {
    if a == [] {
      assert a + b == b;
    } else {
      AnysConcat(a[1..], b);
      assert (a + b)[1..] == a[1..] + b;
    }
  }

  // The run of * and ? from the star at g[s]: its question marks are taken off the
  // text as they come.
  method PassRun(g: seq<int>, s: nat, z: seq<int>, k0: nat) returns (ok: bool, i: nat, k: nat)
    requires Text(g) && s < |g| && g[s] == STAR && k0 <= |z|
    ensures s < i <= |g| && k0 <= k <= |z|
    ensures ok ==> At(g, i) != STAR && At(g, i) != QUERY
    ensures Run(Items(g[s..]), z[k0..]) <==> ok && RunAfterStar(Items(g[i..]), z[k..])
  {
    hide RunAfterStar, Items;
    ghost var p, w := Items(g[s..]), [Star];
    FirstItem(g, s);
    i, k := s + 1, k0;
    assert p == w + Items(g[i..]);
    while At(g, i) == STAR || At(g, i) == QUERY
      invariant s < i <= |g| && k0 <= k <= |z|
      invariant p == w + Items(g[i..]) && w != [] && w[0] == Star && forall j | 0 <= j < |w| :: Wild(w[j])
      invariant Anys(w) == k - k0
      decreases |g| - i
    {
      FirstItem(g, i);
      ghost var x := Items(g[i..])[0];
      AnysConcat(w, [x]);
      if g[i] == QUERY {
        if k == |z| {
          RunTooShort(p, w + [x], Items(g[i + 1..]), z[k0..]);
          return false, i, k;
        }
        k := k + 1;
      }
      i := i + 1;
      w := w + [x];
    }
    ok := true;
    FirstItem(g, i);
    RunIs(p, w, Items(g[i..]), z[k0..]);
    assert z[k0..][k - k0..] == z[k..];
  }

  lemma RunIs(p: seq<Item>, w: seq<Item>, q: seq<Item>, z: seq<int>)
    requires p == w + q && w != [] && w[0] == Star && (forall j | 0 <= j < |w| :: Wild(w[j])) && (q != [] ==>
        !Wild(q[0]))
    requires Anys(w) <= |z|
    ensures Run(p, z) <==> RunAfterStar(q, z[Anys(w)..])
  {
    WildPrefix(w, q);
    assert p[..|w|] == w && p[|w|..] == q;
  }

  lemma RunTooShort(p: seq<Item>, w: seq<Item>, rest: seq<Item>, z: seq<int>)
    requires p == w + rest && w != [] && w[0] == Star && (forall j | 0 <= j < |w| :: Wild(w[j])) && Anys(w) > |z|
    ensures !Run(p, z)
  {
    var n := WildRun(p);
    WildAtLeast(w, rest);
    assert p[..n] == w + p[|w|..n];
    AnysConcat(w, p[|w|..n]);
  }

  lemma {:induction false} WildAtLeast(w: seq<Item>, rest: seq<Item>)
    requires forall j | 0 <= j < |w| :: Wild(w[j])
    ensures WildRun(w + rest) >= |w|
  {
    if w != [] {
      WildAtLeast(w[1..], rest);
      assert (w + rest)[1..] == w[1..] + rest;
    }
  }

  lemma {:induction false} DigitRunFrom(z: seq<int>, i: nat, k: nat)
    requires i <= k <= |z| && (forall j | i <= j < k :: IsDigit(z[j])) && (k < |z| ==> !IsDigit(z[k]))
    ensures DigitRun(z[i..]) == k - i
    decreases k - i
  {
    if i < k {
      DigitRunFrom(z, i + 1, k);
      assert z[i..][1..] == z[i + 1..];
    }
  }

  // # in the pattern: an optional sign, then every digit there is.
  method PassNumber(z: seq<int>, k0: nat) returns (k: nat)
    requires Text(z) && k0 <= |z|
    ensures k0 <= k <= |z| && k - k0 == NumberRun(z[k0..])
  {
    k := k0;
    if (At(z, k) == DASH || At(z, k) == PLUS) && IsDigit(At(z, k + 1)) { k := k + 1; }
    ghost var s := k - k0;
    assert z[k0..][s..] == z[k..];
    if !IsDigit(At(z, k)) {
      DigitRunFrom(z, k, k);
      return k0;
    }
    ghost var first := k;
    k := k + 1;
    while IsDigit(At(z, k))
      invariant first < k <= |z| && forall j | first <= j < k :: IsDigit(z[j])
      decreases |z| - k
    {
      k := k + 1;
    }
    DigitRunFrom(z, first, k);
  }

  // After a run with a star, at the first pattern character that is neither * nor ?.
  method AfterStar(g: seq<int>, i: nat, z: seq<int>, k0: nat) returns (r: bool)
    requires Text(g) && Text(z) && i <= |g| && k0 <= |z| && At(g, i) != STAR && At(g, i) != QUERY
    ensures r <==> RunAfterStar(Items(g[i..]), z[k0..])
    decreases |g| - i, 1
  {
    hide Run, Items;
    var k := k0;
    FirstItem(g, i);
    ghost var q := Items(g[i..]);
    if At(g, i) == 0 { return true; }
    if g[i] == OPEN {
      var more := k < |z|;
      if more { more := Strglob(g, i, z, k); }
      while more
        invariant k0 <= k <= |z| && (more <==> k < |z| && Run(q, z[k..]))
        invariant RunAfterStar(q, z[k0..]) <==> RunAfterStar(q, z[k..])
        decreases |z| - k
      {
        assert z[k..][1..] == z[k + 1..];
        k := k + 1;
        more := k < |z|;
        if more { more := Strglob(g, i, z, k); }
      }
      return k < |z|;
    }
    var c := g[i];
    while k < |z|
      invariant k0 <= k <= |z|
      invariant RunAfterStar(q, z[k0..]) <==> RunAfterStar(q, z[k..])
    {
      var c2 := z[k];
      k := k + 1;
      while c2 != c
        invariant k0 < k <= |z| && c2 == z[k - 1]
        invariant RunAfterStar(q, z[k0..]) <==> RunAfterStar(q, z[k - 1..])
        decreases |z| - k
      {
        assert z[k - 1..][1..] == z[k..];
        c2 := At(z, k);
        if c2 == 0 { return false; }
        k := k + 1;
      }
      assert z[k - 1..][1..] == z[k..];
      var found := Strglob(g, i + 1, z, k);
      if found { return true; }
    }
    return false;
  }

  // strglob: does the pattern from g[gi] on match the text from z[zi] on.
  method Strglob(g: seq<int>, gi: nat, z: seq<int>, zi: nat) returns (r: bool)
    requires Text(g) && Text(z) && gi <= |g| && zi <= |z|
    ensures r <==> Run(Items(g[gi..]), z[zi..])
    decreases |g| - gi, 0
  {
    hide Items, RunAfterStar, NumberRun;
    var i, k := gi, zi;
    while At(g, i) != 0
      invariant gi <= i <= |g| && zi <= k <= |z|
      invariant Run(Items(g[gi..]), z[zi..]) <==> Run(Items(g[i..]), z[k..])
      decreases |g| - i
    {
      FirstItem(g, i);
      ghost var p := Items(g[i..]);
      assert k < |z| ==> z[k..][1..] == z[k + 1..];
      if g[i] == STAR {
        var ok, next, from := PassRun(g, i, z, k);
        if !ok { return false; }
        r := AfterStar(g, next, z, from);
        return;
      } else if g[i] == QUERY {
        if At(z, k) == 0 { return false; }
        k := k + 1;
        i := i + 1;
      } else if g[i] == OPEN {
        if At(z, k) == 0 { return false; }
        var ok, next := MatchClass(g, i, z[k]);
        if !ok { return false; }
        k := k + 1;
        i := next;
      } else if g[i] == HASH {
        var end := PassNumber(z, k);
        if end == k { return false; }
        assert z[k..][end - k..] == z[end..];
        k := end;
        i := i + 1;
      } else {
        if g[i] != At(z, k) { return false; }
        k := k + 1;
        i := i + 1;
      }
    }
    FirstItem(g, i);
    return k == |z|;
  }

  // ----- For callers ------------------------------------------------------------------

  // strglob on whole strings is exact on clean patterns.
  method Glob(pattern: seq<int>, text: seq<int>) returns (r: bool)
    requires Text(pattern) && Text(text)
    ensures r <==> Run(Items(pattern), text)
    ensures Clean(Items(pattern)) ==> (r <==> Matches(Items(pattern), text))
  {
    assert pattern[0..] == pattern && text[0..] == text;
    r := Strglob(pattern, 0, text, 0);
    if Clean(Items(pattern)) { CleanExact(Items(pattern), text); }
  }

  lemma OneStar(x: Item, z: seq<int>)
    requires !Wild(x)
    ensures Run([Star, x], z) <==> RunAfterStar([x], z)
  {
    hide Run, RunAfterStar;
    var w := [Star];
    assert w[1..] == [] && Anys(w[1..]) == 0 && Anys(w) == 0;
    assert [Star, x] == w + [x] && z[0..] == z;
    RunIs([Star, x], w, [x], z);
  }

  // A class directly after a star is decided the wrong way round, on every text of
  // one character.
  lemma StarThenClass(x: Item, c: int)
    requires x.Class?
    ensures Run([Star, x], [c]) <==> !Takes(x, c)
    ensures Matches([Star, x], [c]) <==> Takes(x, c)
  {
    var p, q, z := [Star, x], [x], [c];
    assert p[1..] == q && q[1..] == [] && z[1..] == [] && z[0..] == z;
    OneStar(x, z);
    assert Run(q[1..], z[1..]) && Matches(q[1..], z[1..]);
    assert RunAfterStar(q, z) <==> !Run(q, z) || RunAfterStar(q, z[1..]);
    assert !Matches(q, z[1..]);
    if Takes(x, c) { assert Matches(p[1..], z[0..]); }
  }

  // "*[a]" rejects "a", which it means, and accepts "b".
  lemma StarThenA()
    ensures var p := Items([STAR, OPEN, 97, CLOSE]);
      Matches(p, [97]) && !Run(p, [97]) && !Matches(p, [98]) && Run(p, [98])
  {
    var g := [STAR, OPEN, 97, CLOSE];
    var h := [OPEN, 97, CLOSE];
    var b := [97, CLOSE];
    assert g[1..] == h && h[1..] == b && b[1..] == [CLOSE];
    assert Members([CLOSE], 97) == Closed([], []);
    assert Members(b, 0) == Closed([(97, 97)], []);
    var x := Class(false, [(97, 97)]);
    assert Items(h) == [x] + Items([]);
    assert Items(g) == [Star, x];
    assert [(97, 97)][0].0 == 97;
    StarThenClass(x, 97);
    StarThenClass(x, 98);
  }

  lemma OneDigit(c: int)
    requires IsDigit(c)
    ensures Number([c])
  {
    assert [c][0] == c;
  }

  // # takes every digit, so "#1" rejects "11".
  lemma HashTakesAll()
    ensures !Run([Digits, Lit(49)], [49, 49]) && Matches([Digits, Lit(49)], [49, 49])
  {
    var p, z, y := [Digits, Lit(49)], [49, 49], [49];
    assert z[1..] == y && z[..1] == y && y[1..] == [] && p[1..] == [Lit(49)] && p[1..][1..] == [];
    DigitRunFrom(z, 0, 2);
    assert z[2..] == [];
    OneDigit(49);
    assert Matches(p[1..][1..], y[1..]);
    assert Matches(p[1..], z[1..]);
  }

  // After a star # stands for itself, so "*#" rejects "7".
  lemma HashAfterStarIsLiteral()
    ensures !Run([Star, Digits], [55]) && Matches([Star, Digits], [55])
  {
    var p, q, z := [Star, Digits], [Digits], [55];
    assert p[1..] == q && q[1..] == [] && z[1..] == [] && z[0..] == z && z[..1] == z;
    OneStar(Digits, z);
    OneDigit(55);
    assert Matches(q[1..], z[1..]);
    assert Matches(q, z);
    assert Matches(p[1..], z[0..]);
  }
}
