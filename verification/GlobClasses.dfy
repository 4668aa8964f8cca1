/** Patterns with a run directly before a class, and patterns nothing can match: for
    every pattern there is, whether the matcher is right on all texts. */
module GlobClasses {
  import opened GlobPattern
  import opened GlobExact
  import opened GlobFailures

  // Neither answer is yes on what is left of z from m characters on.
  ghost predicate Silent(p: seq<Item>, z: seq<int>, m: nat) {
    forall j | m <= j <= |z| :: !Run(p, z[j..]) && !Matches(p, z[j..])
  }

  ghost predicate Wrong(p: seq<Item>, z: seq<int>, m: nat) {
    Text(z) && Run(p, z) != Matches(p, z) && Silent(p, z, m)
  }

  lemma {:induction false} EmptyExact(p: seq<Item>)
    ensures Run(p, []) <==> Matches(p, [])
    decreases |p|
  {
    if p != [] && p[0] == Star {
      var n := WildRun(p);
      assert p[..n][0] == Star;
      WildMatches(p, [], n);
      var q, k := p[n..], Anys(p[..n]);
      if Run(p, []) {
        var e: seq<int> := [];
        assert e[k..] == e && e[0..] == e;
        assert RunAfterStar(q, e);
        assert MatchesAt(q, e, 0);
      }
    } else if p != [] && p[0] == Digits {
      HashNeeds(p);
    }
  }

  lemma HashNeeds(p: seq<Item>)
    requires p != [] && p[0] == Digits
    ensures !Matches(p, []) && !Run(p, [])
  {
    var z: seq<int> := [];
    assert forall k | 0 <= k <= |z| :: z[..k] == z;
    assert !Number(z);
  }

  // ----- A run with a star ----------------------------------------------------------

  predicate RunBeforeClass(p: seq<Item>) {
    p != [] && p[0] == Star && WildRun(p) < |p| && (p[WildRun(p)].Class? || p[WildRun(p)].Bad?)
  }

  predicate RunBeforeSign(p: seq<Item>) {
    p != [] && p[0] == Star && WildRun(p) < |p| && (p[WildRun(p)].Lit? || p[WildRun(p)].Digits?)
  }

  // The answers after the run, at any place of a text.
  ghost predicate Found(q: seq<Item>, w: seq<int>) { Reaches(q, w, 0, true) }

  lemma RunAt(p: seq<Item>, z: seq<int>)
    requires p != [] && p[0] == Star
    ensures var n := WildRun(p); var k, q := Anys(p[..n]), p[n..];
      && (Run(p, z) <==> k <= |z| && RunAfterStar(q, z[k..]))
      && (Matches(p, z) <==> k <= |z| && Found(q, z[k..]))
  {
    hide Matches;
    var n := WildRun(p);
    var k, q := Anys(p[..n]), p[n..];
    assert p[..n][0] == Star;
    WildMatches(p, z, n);
    if k <= |z| { ReachesTail(q, z, k, 0, true); } else { NoRoom(q, z, k); }
  }

  lemma NoRoom(q: seq<Item>, w: seq<int>, k: nat)
    requires |w| < k
    ensures !Reaches(q, w, k, true)
  {}

  // One character of the text, then the rest of it.
  lemma FoundStep(q: seq<Item>, w: seq<int>)
    requires q != [] && (q[0].Lit? || q[0].Digits?)
    ensures Found(q, w) <==> w != [] && (Matches(q, w) || Found(q, w[1..]))
  {
    assert w[0..] == w;
    if w == [] {
      NotOnEmpty(q);
      forall j ensures !MatchesAt(q, w, j) {
        if j == 0 { assert MatchesAt(q, w, j) <==> Matches(q, w); }
      }
    } else {
      ReachesTail(q, w, 1, 0, true);
      assert MatchesAt(q, w, 0) <==> Matches(q, w);
      assert Found(q, w) <==> MatchesAt(q, w, 0) || Reaches(q, w, 1, true);
    }
  }

  lemma NotOnEmpty(q: seq<Item>)
    requires q != [] && (q[0].Lit? || q[0].Digits?)
    ensures !Matches(q, [])
  {
    if q[0].Digits? { HashNeeds(q); }
  }

  lemma SearchStep(q: seq<Item>, w: seq<int>)
    requires q != [] && (q[0].Lit? || q[0].Digits?)
    ensures RunAfterStar(q, w) <==>
            w != [] && ((w[0] == (if q[0].Lit? then q[0].c else HASH) && Run(q[1..], w[1..]))
                || RunAfterStar(q, w[1..]))
  {}

  lemma NumberTwo(s: seq<int>)
    requires Number(s)
    ensures s != [] && (IsDigit(s[0]) || s[0] == PLUS || s[0] == DASH)
    ensures IsDigit(s[0]) || (|s| > 1 && IsDigit(s[1]))
    ensures IsDigit(s[0]) ==> forall k | 0 <= k < |s| :: IsDigit(s[k])
  {
    var d := if s[0] == PLUS || s[0] == DASH then s[1..] else s;
    assert IsDigit(d[0]);
  }

  lemma NotNumber(w: seq<int>, k: nat)
    requires w != [] && (w[0] == HASH || w[0] == 120) && k <= |w|
    ensures !Number(w[..k])
  {
    if Number(w[..k]) { NumberTwo(w[..k]); }
  }

  // What can match q must take at least one character before q[1..].
  lemma {:induction false} NothingBehind(q: seq<Item>, y: seq<int>, j: nat)
    requires q != [] && (q[0].Lit? || q[0].Digits?) && Silent(q[1..], y, 1) && j <= |y|
    ensures !RunAfterStar(q, y[j..]) && !Found(q, y[j..])
    decreases |y| - j
  {
    hide Run, Matches, RunAfterStar, Found;
    var w := y[j..];
    SearchStep(q, w);
    FoundStep(q, w);
    if j < |y| {
      assert w[1..] == y[j + 1..];
      NothingBehind(q, y, j + 1);
      MatchesMoves(q, y, j);
    }
  }

  lemma MatchesMoves(q: seq<Item>, y: seq<int>, j: nat)
    requires q != [] && (q[0].Lit? || q[0].Digits?) && Silent(q[1..], y, 1) && j < |y|
    ensures !Matches(q, y[j..])
  {
    hide Run;
    var w := y[j..];
    assert w[1..] == y[j + 1..];
    forall k | 0 <= k <= |w| && Number(w[..k]) ensures !Matches(q[1..], w[k..]) {
      NumberTwo(w[..k]);
      assert w[k..] == y[j + k..];
    }
  }

  // What the matcher does at the two unusual places: after a run with a star a class asks
  // for a place where the pattern from there on does not match, and a # is searched for
  // like any character.
  lemma {:induction false} ClassAfterStar(q: seq<Item>, z: seq<int>)
    requires q != [] && (q[0].Class? || q[0].Bad?)
    ensures RunAfterStar(q, z) <==> exists j | 0 <= j < |z| :: !Run(q, z[j..])
    decreases |z|
  {
    hide Run;
    if z != [] {
      ClassAfterStar(q, z[1..]);
      assert z[0..] == z;
      forall j | 1 <= j < |z| ensures z[1..][j - 1..] == z[j..] {}
      if Run(q, z) && RunAfterStar(q, z[1..]) {
        var j :| 0 <= j < |z[1..]| && !Run(q, z[1..][j..]);
        assert z[1..][j..] == z[j + 1..];
      }
    }
  }

  lemma {:induction false} HashSearched(q: seq<Item>, z: seq<int>)
    requires q != [] && q[0].Digits?
    ensures RunAfterStar(q, z) <==> exists j | 0 <= j < |z| :: z[j] == HASH && Run(q[1..], z[j + 1..])
    decreases |z|
  {
    hide Run;
    if z != [] {
      HashSearched(q, z[1..]);
      forall j | 1 <= j < |z| ensures z[1..][j - 1] == z[j] && z[1..][j..] == z[j + 1..] {}
      if RunAfterStar(q, z) && !(z[0] == HASH && Run(q[1..], z[1..])) {
        var j :| 0 <= j < |z[1..]| && z[1..][j] == HASH && Run(q[1..], z[1..][j + 1..]);
        assert z[1..][j + 1..] == z[j + 2..];
      }
    }
  }

  // ----- The texts that tell -----------------------------------------------------------

  // On one character after the run the matcher says the opposite.
  lemma ClassAfterRun(p: seq<Item>) returns (z: seq<int>)
    requires RunBeforeClass(p)
    ensures Wrong(p, z, 1) && z != [] && z[0] == 120
  {
    hide Reaches;
    var n := WildRun(p);
    var q, k := p[n..], Anys(p[..n]);
    var x := [120];
    z := Filler(k) + x;
    RunOn(p, x);
    FillerText(k, x);
    OneCharacter(q, x);
    forall j | 1 <= j <= |z| ensures !Run(p, z[j..]) && !Matches(p, z[j..]) {
      if Matches(p, z[j..]) { MatchesNeeds(p, z[j..]); }
    }
  }

  lemma OneCharacter(q: seq<Item>, x: seq<int>)
    requires q != [] && (q[0].Class? || q[0].Bad?) && |x| == 1
    ensures RunAfterStar(q, x) <==> !Reaches(q, x, 0, true)
    ensures RunAfterStar(q, x) <==> !(Takes(q[0], x[0]) && Matches(q[1..], []))
  {
    assert x[1..] == [] && x[0..] == x;
    EmptyExact(q[1..]);
    assert MatchesAt(q, x, 0) <==> Matches(q, x);
    assert !MatchesAt(q, x, 1);
  }

  // The character that starts the part after the run: for # a digit, which the matcher
  // does not look for, or the # that it does.
  function Turn(q: seq<Item>, y: seq<int>): int
    requires q != []
  {
    if q[0].Lit? then q[0].c else if Matches(q[1..], y) then 49 else HASH
  }

  lemma TurnWrong(q: seq<Item>, y: seq<int>)
    requires q != [] && (q[0].Lit? || q[0].Digits?) && Wrong(q[1..], y, 1)
    ensures RunAfterStar(q, [Turn(q, y)] + y) != Found(q, [Turn(q, y)] + y)
  {
    hide Run, Matches, RunAfterStar, Found;
    var x := [Turn(q, y)] + y;
    assert x[1..] == y && y[0..] == y;
    NothingBehind(q, y, 0);
    SearchStep(q, x);
    FoundStep(q, x);
    if q[0].Lit? { LiteralMatches(q, x); } else { DigitMatches(q, x); }
  }

  lemma LiteralMatches(q: seq<Item>, x: seq<int>)
    requires q != [] && q[0].Lit? && x != []
    ensures Matches(q, x) <==> x[0] == q[0].c && Matches(q[1..], x[1..])
  {}

  lemma DigitMatches(q: seq<Item>, x: seq<int>)
    requires q != [] && q[0].Digits? && x != [] && (x[0] == 49 || x[0] == HASH)
    ensures x[0] == HASH ==> !Matches(q, x)
    ensures x[0] == 49 && Matches(q[1..], x[1..]) ==> Matches(q, x)
  {
    if x[0] == 49 {
      assert x == [49] + x[1..];
      if Matches(q[1..], x[1..]) { DigitIs(49, x[1..], q); }
    } else {
      forall k | 0 <= k <= |x| ensures !Number(x[..k]) { NotNumber(x, k); }
    }
  }

  // The text for the whole run; padded, it does not begin with a digit.
  lemma AfterRun(p: seq<Item>, y: seq<int>) returns (z: seq<int>)
    requires Possible(p) && RunBeforeSign(p) && Wrong(p[WildRun(p) + 1..], y, 1)
    ensures Wrong(p, z, 1)
    ensures z == Filler(Anys(p[..WildRun(p)])) + [Turn(p[WildRun(p)..], y)] + y
  {
    hide Run, Matches, RunAfterStar, Found;
    var n := WildRun(p);
    var q, k := p[n..], Anys(p[..n]);
    assert q[1..] == p[n + 1..];
    assert Char(Turn(q, y)) by { TurnChar(p, y); }
    var x := [Turn(q, y)] + y;
    z := Filler(k) + x;
    TurnWrong(q, y);
    RunAt(p, z);
    assert z[k..] == x;
    FillerText(k, x);
    forall j | 1 <= j <= |z| ensures !Run(p, z[j..]) && !Matches(p, z[j..]) {
      RunAt(p, z[j..]);
      if j + k <= |z| {
        assert z[j..][k..] == y[j - 1..];
        NothingBehind(q, y, j - 1);
      }
    }
  }

  lemma TurnChar(p: seq<Item>, y: seq<int>)
    requires Possible(p) && RunBeforeSign(p)
    ensures Char(Turn(p[WildRun(p)..], y))
  {
    hide Matches;
    assert p[WildRun(p)..][0] == p[WildRun(p)];
  }

  // A filler before a text that begins with a digit changes no answer.
  lemma Padded(p: seq<Item>, x: seq<int>)
    requires RunBeforeSign(p) && Anys(p[..WildRun(p)]) == 0 && Wrong(p, x, 1)
    requires p[WildRun(p)] != Lit(120)
    ensures Wrong(p, [120] + x, 2)
  {
    hide Run, Matches, RunAfterStar, Found;
    var q := p[WildRun(p)..];
    var z := [120] + x;
    assert z[1..] == x && z[0..] == z && x[0..] == x;
    RunAt(p, z);
    RunAt(p, x);
    SearchStep(q, z);
    FoundStep(q, z);
    FillerMatches(q, z);
    forall j | 2 <= j <= |z| ensures z[j..] == x[j - 1..] {}
  }

  lemma FillerMatches(q: seq<Item>, z: seq<int>)
    requires q != [] && (q[0].Lit? || q[0].Digits?) && q[0] != Lit(120) && z != [] && z[0] == 120
    ensures !Matches(q, z)
  {
    if q[0].Digits? {
      forall k | 0 <= k <= |z| ensures !Number(z[..k]) { NotNumber(z, k); }
    }
  }

  lemma SolidWrong(p: seq<Item>, y: seq<int>, c: int)
    requires p != [] && p[0] != Star && p[0] != Digits && Wrong(p[1..], y, 1) && Char(c) && Takes(p[0], c)
    ensures Wrong(p, [c] + y, 1)
  {
    var z := [c] + y;
    assert z[1..] == y;
    forall j | 1 <= j <= |z| ensures !Run(p, z[j..]) && !Matches(p, z[j..]) {
      if j < |z| { assert z[j..][1..] == y[j..]; }
    }
  }

  // ----- A # before the class -----------------------------------------------------------

  // Whatever the item takes is a digit.
  ghost predicate DigitOnly(x: Item) {
    x != Star && x != Digits && forall c | Char(c) && Takes(x, c) :: IsDigit(c)
  }

  // A # leaves no digit for the next item.
  lemma NeverAfterHash(p: seq<Item>, z: seq<int>)
    requires |p| > 1 && p[0] == Digits && DigitOnly(p[1]) && Text(z)
    ensures !Run(p, z)
  {
    var n := NumberRun(z);
    if n > 0 && n < |z| {
      AllDigitsTaken(z);
      assert Char(z[n]) && z[n..][0] == z[n] && p[1..][0] == p[1];
      assert !Takes(p[1], z[n]);
    }
  }

  lemma AllDigitsTaken(z: seq<int>)
    requires 0 < NumberRun(z) < |z|
    ensures !IsDigit(z[NumberRun(z)])
  {}

  lemma HashBeforeDigit(p: seq<Item>) returns (z: seq<int>)
    requires Possible(p) && |p| > 1 && p[0] == Digits && DigitOnly(p[1])
    ensures Wrong(p, z, 1) && z != [] && IsDigit(z[0])
  {
    hide Run, Matches;
    assert DigitNext(p) by { assert Takes(p[0], 48); }
    z := ShortestText(p);
    NeverAfterHash(p, z);
    forall j | 1 <= j <= |z| ensures !Run(p, z[j..]) && !Matches(p, z[j..]) {
      NeverAfterHash(p, z[j..]);
      if Matches(p, z[j..]) { MatchesNeeds(p, z[j..]); }
    }
  }

  // One digit, then a text that begins with none.
  lemma HashWrong(p: seq<Item>, y: seq<int>)
    requires p != [] && p[0] == Digits && Wrong(p[1..], y, 2) && y != [] && !IsDigit(y[0])
    ensures Wrong(p, [49] + y, 1)
  {
    hide Wrong, Run, Matches;
    var z := [49] + y;
    assert Text(z) && Run(p, z) != Matches(p, z) by { OneDigit(p, y); WrongParts(p[1..], y, 2); }
    WrongParts(p[1..], y, 2);
    forall j | 1 <= j <= |z| ensures !Run(p, z[j..]) && !Matches(p, z[j..]) {
      assert z[j..] == y[j - 1..];
      HashSilent(p, y, j - 1);
    }
    WrongIs(p, z, 1);
  }

  lemma WrongParts(p: seq<Item>, z: seq<int>, m: nat)
    requires Wrong(p, z, m)
    ensures Text(z) && Run(p, z) != Matches(p, z) && Silent(p, z, m)
  {}

  lemma WrongIs(p: seq<Item>, z: seq<int>, m: nat)
    requires Text(z) && Run(p, z) != Matches(p, z) && Silent(p, z, m)
    ensures Wrong(p, z, m)
  {}

  lemma NumberPrefix(z: seq<int>, k: nat)
    requires k <= |z| && Number(z[..k]) && (z != [] ==> IsDigit(z[0]))
    ensures 0 < k && forall i | 0 <= i < k :: IsDigit(z[i])
  {
    NumberTwo(z[..k]);
    assert forall i | 0 <= i < k :: z[..k][i] == z[i];
  }

  lemma OneDigit(p: seq<Item>, y: seq<int>)
    requires p != [] && p[0] == Digits && y != [] && !IsDigit(y[0])
    ensures Run(p, [49] + y) <==> Run(p[1..], y)
    ensures Matches(p, [49] + y) <==> Matches(p[1..], y)
  {
    var z := [49] + y;
    assert z[1..] == y && z[0..] == z;
    assert DigitRun(z) == 1;
    assert NumberRun(z) == 1;
    if Matches(p[1..], y) { DigitIs(49, y, p); }
    if Matches(p, z) {
      var k :| 0 <= k <= |z| && Number(z[..k]) && Matches(p[1..], z[k..]);
      NumberPrefix(z, k);
      assert z[1] == y[0];
    }
  }

  lemma HashSilent(p: seq<Item>, y: seq<int>, i: nat)
    requires p != [] && p[0] == Digits && Silent(p[1..], y, 2) && y != [] && !IsDigit(y[0]) && i <= |y|
    ensures !Run(p, y[i..]) && !Matches(p, y[i..])
  {
    var w := y[i..];
    var n := NumberRun(w);
    hide Number, NumberRun;
    forall k | 0 <= k <= |w| ensures w[k..] == y[i + k..] {}
    if n > 0 {
      NumberRunIs(w);
      NumberLength(w, n, i == 0);
    }
    if Matches(p, w) {
      var k :| 0 <= k <= |w| && Number(w[..k]) && Matches(p[1..], w[k..]);
      NumberLength(w, k, i == 0);
    }
  }

  // A number has a character, and two if the first is no digit.
  lemma NumberLength(w: seq<int>, k: nat, sign: bool)
    requires k <= |w| && Number(w[..k]) && (sign ==> w != [] && !IsDigit(w[0]))
    ensures k >= 1 && (sign ==> k >= 2)
  {
    NumberTwo(w[..k]);
  }

  lemma SignThenDigits(s: seq<int>)
    requires Number(s) && s[0] == PLUS
    ensures forall j | 0 <= j < |s| - 1 :: IsDigit(s[1..][j])
  {}

  // A sign before the digits changes no answer.
  lemma Signed(p: seq<Item>, w: seq<int>)
    requires p != [] && p[0] == Digits && Wrong(p, w, 1) && w != [] && IsDigit(w[0])
    ensures Wrong(p, [PLUS] + w, 2)
  {
    hide Silent, Run, Matches;
    var z := [PLUS] + w;
    SignedAnswers(p, w);
    assert Silent(p, z, 2) by { SilentShift(p, w); }
  }

  lemma SilentShift(p: seq<Item>, w: seq<int>)
    requires Silent(p, w, 1)
    ensures Silent(p, [PLUS] + w, 2)
  {
    hide Run, Matches;
    var z := [PLUS] + w;
    forall j | 2 <= j <= |z| ensures z[j..] == w[j - 1..] {}
  }

  lemma SignedAnswers(p: seq<Item>, w: seq<int>)
    requires p != [] && p[0] == Digits && w != [] && IsDigit(w[0])
    ensures Run(p, [PLUS] + w) <==> Run(p, w)
    ensures Matches(p, [PLUS] + w) <==> Matches(p, w)
  {
    hide Run, Matches;
    SignedRun(w);
    HashRuns(p, w);
    HashRuns(p, [PLUS] + w);
    SignedMatches(p, w);
  }

  lemma SignedRun(w: seq<int>)
    requires w != [] && IsDigit(w[0])
    ensures var z := [PLUS] + w; NumberRun(z) == 1 + NumberRun(w) > 1 && z[NumberRun(z)..] == w[NumberRun(w)..]
  {
    assert ([PLUS] + w)[1..] == w && w[0..] == w;
  }

  lemma SignedMatches(p: seq<Item>, w: seq<int>)
    requires p != [] && p[0] == Digits && w != [] && IsDigit(w[0])
    ensures Matches(p, [PLUS] + w) <==> Matches(p, w)
  {
    hide Number, Matches;
    var z := [PLUS] + w;
    HashMatches(p, w);
    HashMatches(p, z);
    forall k: nat | k <= |w|
      ensures z[k + 1..] == w[k..] && (Number(z[..k + 1]) <==> Number(w[..k]))
    {
      SignedNumber(w, k);
    }
    if Matches(p, z) {
      var k :| 0 <= k <= |z| && Number(z[..k]) && Matches(p[1..], z[k..]);
      NumberNonempty(z[..k]);
      assert Number(w[..k - 1]) && z[k..] == w[k - 1..];
    }
    if Matches(p, w) {
      var k :| 0 <= k <= |w| && Number(w[..k]) && Matches(p[1..], w[k..]);
      assert Number(z[..k + 1]) && z[k + 1..] == w[k..];
    }
  }

  lemma HashRuns(p: seq<Item>, z: seq<int>)
    requires p != [] && p[0] == Digits
    ensures Run(p, z) <==> NumberRun(z) > 0 && Run(p[1..], z[NumberRun(z)..])
  {}

  lemma HashMatches(p: seq<Item>, z: seq<int>)
    requires p != [] && p[0] == Digits
    ensures Matches(p, z) <==> exists k | 0 <= k <= |z| :: Number(z[..k]) && Matches(p[1..], z[k..])
  {}

  lemma SignedNumber(w: seq<int>, k: nat)
    requires w != [] && IsDigit(w[0]) && k <= |w|
    ensures Number(([PLUS] + w)[..k + 1]) <==> Number(w[..k])
  {
    assert ([PLUS] + w)[..k + 1] == [PLUS] + w[..k];
    var v := w[..k];
    var s := [PLUS] + v;
    assert s[0] == PLUS && s[1..] == v;
    assert k > 0 ==> v[0] == w[0];
    forall j | 0 <= j < |v| ensures s[1..][j] == v[j] {}
    if Number(v) { NumberTwo(v); }
    if Number(s) { SignThenDigits(s); }
  }

  // A pattern with a run directly before a class is answered wrongly on some text, and
  // neither answer is yes on what is left of the text after its first characters.
  lemma {:induction false} ClassMismatch(p: seq<Item>) returns (z: seq<int>)
    requires Possible(p) && StarClass(p)
    ensures Wrong(p, z, 1)
    ensures p[0] == Digits ==> z != [] && IsDigit(z[0])
    decreases |p|, 0
  {
    hide Run, Matches, Wrong, Takes, DigitOnly;
    PossibleParts(p);
    if RunBeforeClass(p) {
      z := ClassAfterRun(p);
    } else if p[0] == Star {
      var n := WildRun(p);
      StarClassAfter(p);
      var y := ClassMismatch(p[n + 1..]);
      z := AfterRun(p, y);
    } else if p[0] == Digits {
      StarClassNonempty(p[1..]);
      if DigitOnly(p[1]) {
        z := HashBeforeDigit(p);
      } else {
        var y := NoDigitFirst(p[1..]);
        HashWrong(p, y);
        z := [49] + y;
      }
    } else {
      var y := ClassMismatch(p[1..]);
      var c :| Char(c) && Takes(p[0], c);
      z := [c] + y;
      SolidWrong(p, y, c);
    }
  }

  lemma StarClassAfter(p: seq<Item>)
    requires StarClass(p) && p[0] == Star && !RunBeforeClass(p)
    ensures RunBeforeSign(p) && StarClass(p[WildRun(p) + 1..])
  {
    assert p[WildRun(p)..][1..] == p[WildRun(p) + 1..];
  }

  lemma StarClassNonempty(p: seq<Item>)
    requires StarClass(p)
    ensures p != []
  {}

  lemma {:induction false} NoDigitFirst(p: seq<Item>) returns (z: seq<int>)
    requires Possible(p) && StarClass(p) && !DigitOnly(p[0])
    ensures Wrong(p, z, 2) && z != [] && !IsDigit(z[0])
    decreases |p|, 1
  {
    hide Run, Matches, Silent, Takes;
    PossibleParts(p);
    if RunBeforeClass(p) {
      z := ClassAfterRun(p);
      SilentLater(p, z);
    } else if p[0] == Star {
      var n := WildRun(p);
      StarClassAfter(p);
      var y := ClassMismatch(p[n + 1..]);
      z := NoDigitAfterRun(p, y);
    } else if p[0] == Digits {
      var y := ClassMismatch(p);
      Signed(p, y);
      z := [PLUS] + y;
    } else {
      var y := ClassMismatch(p[1..]);
      var c :| Char(c) && Takes(p[0], c) && !IsDigit(c);
      z := [c] + y;
      SolidWrong(p, y, c);
      SilentLater(p, z);
    }
  }

  lemma NoDigitAfterRun(p: seq<Item>, y: seq<int>) returns (z: seq<int>)
    requires Possible(p) && RunBeforeSign(p) && Wrong(p[WildRun(p) + 1..], y, 1)
    ensures Wrong(p, z, 2) && z != [] && !IsDigit(z[0])
  {
    hide Run, Matches, Silent, Possible;
    var n := WildRun(p);
    var c := Turn(p[n..], y);
    z := AfterRun(p, y);
    if Anys(p[..n]) == 0 && IsDigit(c) {
      Padded(p, z);
      z := [120] + z;
    } else {
      FillerFirst(Anys(p[..n]), c, y);
      SilentLater(p, z);
    }
  }

  lemma SilentLater(p: seq<Item>, z: seq<int>)
    requires Silent(p, z, 1)
    ensures Silent(p, z, 2)
  {
    hide Run, Matches;
  }

  lemma FillerFirst(k: nat, c: int, y: seq<int>)
    requires k > 0 || !IsDigit(c)
    ensures var z := Filler(k) + [c] + y; z != [] && !IsDigit(z[0])
  {}

  // If each item can match something, the matcher is right on all texts exactly for
  // the clean patterns.
  lemma ExactlyClean(p: seq<Item>)
    requires Possible(p)
    ensures Clean(p) <==> forall z | Text(z) :: Run(p, z) == Matches(p, z)
  {
    if Clean(p) {
      forall z | Text(z) ensures Run(p, z) == Matches(p, z) { CleanExact(p, z); }
    } else if StarClass(p) {
      var z := ClassMismatch(p);
      assert Run(p, z) != Matches(p, z);
    } else {
      var z := HashMismatch(p);
      assert Run(p, z) != Matches(p, z);
    }
  }

  // ----- Patterns nothing can match ----------------------------------------------------

  ghost predicate Hopeless(x: Item) { x != Star && forall c | Char(c) :: !Takes(x, c) }

  // The matcher meets a hopeless item, or a digit directly after a #, before it comes
  // to a run directly before a class.
  ghost predicate Stuck(p: seq<Item>)
    decreases |p|
  {
    p != [] &&
    if p[0] == Star then RunBeforeSign(p) && (Hopeless(p[WildRun(p)]) || Stuck(p[WildRun(p) + 1..]))
    else Hopeless(p[0]) || (p[0] == Digits && |p| > 1 && DigitOnly(p[1])) || Stuck(p[1..])
  }

  lemma {:induction false} StuckNever(p: seq<Item>, z: seq<int>)
    requires Stuck(p) && Text(z)
    ensures !Run(p, z)
    decreases |p|, 0, |z|
  {
    if p[0] == Star {
      var n := WildRun(p);
      var k := Anys(p[..n]);
      if k <= |z| { SearchNever(p[n..], z[k..]); }
    } else if p[0] == Digits {
      if |p| > 1 && DigitOnly(p[1]) { NeverAfterHash(p, z); } else {
        assert Takes(p[0], 48);
        StuckNever(p[1..], z[NumberRun(z)..]);
      }
    } else if z != [] && !Hopeless(p[0]) {
      StuckNever(p[1..], z[1..]);
    }
  }

  lemma {:induction false} SearchNever(q: seq<Item>, z: seq<int>)
    requires q != [] && (q[0].Lit? || q[0].Digits?) && (Hopeless(q[0]) || Stuck(q[1..])) && Text(z)
    ensures !RunAfterStar(q, z)
    decreases |q|, 1, |z|
  {
    hide Run, Stuck;
    if z != [] {
      SearchNever(q, z[1..]);
      assert Char(z[0]);
      assert q[0].Lit? ==> (Takes(q[0], z[0]) <==> z[0] == q[0].c);
      if !Hopeless(q[0]) || q[0].Digits? {
        if q[0].Digits? { assert Takes(q[0], 48); }
        StuckNever(q[1..], z[1..]);
      }
    }
  }

  lemma {:induction false} ImpossibleNever(p: seq<Item>, z: seq<int>)
    requires Matches(p, z) && Text(z)
    ensures Possible(p)
    decreases |p|
  {
    if p != [] {
      if p[0] == Star {
        var k :| 0 <= k <= |z| && Matches(p[1..], z[k..]);
        ImpossibleNever(p[1..], z[k..]);
      } else if p[0] == Digits {
        var k :| 0 <= k <= |z| && Number(z[..k]) && Matches(p[1..], z[k..]);
        ImpossibleNever(p[1..], z[k..]);
        assert Takes(p[0], 48);
      } else {
        ImpossibleNever(p[1..], z[1..]);
        assert Char(z[0]) && Takes(p[0], z[0]);
      }
      assert forall k | 1 <= k < |p| :: p[k] == p[1..][k - 1];
    }
  }

  // Otherwise the matcher accepts some text.
  lemma {:induction false} Accepted(p: seq<Item>) returns (z: seq<int>)
    requires !Possible(p) && !Stuck(p)
    ensures Text(z) && Run(p, z)
    ensures p[0] == Digits ==> z != [] && IsDigit(z[0])
    decreases |p|, 1
  {
    hide Run, Matches, Takes, DigitOnly, RunAfterStar;
    if p[0] == Star {
      z := AcceptedAfterRun(p);
    } else if p[0] == Digits {
      ImpossibleTail(p);
      var y := AcceptedNoDigit(p[1..]);
      OneDigit(p, y);
      z := [49] + y;
    } else {
      ImpossibleTail(p);
      var y := Accepted(p[1..]);
      var c :| Char(c) && Takes(p[0], c);
      z := [c] + y;
      SolidRuns(p, c, y);
    }
  }

  lemma ImpossibleTail(p: seq<Item>)
    requires !Possible(p) && !Stuck(p) && p[0] != Star
    ensures !Possible(p[1..]) && !Stuck(p[1..]) && !Hopeless(p[0])
    ensures p[0] == Digits ==> !DigitOnly(p[1])
  {
    hide Takes, DigitOnly;
    assert forall k | 1 <= k < |p| :: p[k] == p[1..][k - 1];
  }

  lemma SolidRuns(p: seq<Item>, c: int, y: seq<int>)
    requires p != [] && p[0] != Star && p[0] != Digits && Takes(p[0], c) && Run(p[1..], y)
    ensures Run(p, [c] + y)
  {
    assert ([c] + y)[1..] == y;
  }

  // The text found begins with a digit only if it must.
  lemma {:induction false} AcceptedAfterRun(p: seq<Item>) returns (z: seq<int>)
    requires !Possible(p) && !Stuck(p) && p[0] == Star
    ensures Text(z) && Run(p, z) && z != [] && !IsDigit(z[0])
    decreases |p|, 0
  {
    hide Run, Matches, Takes, DigitOnly, RunAfterStar;
    var n := WildRun(p);
    ImpossibleRun(p);
    var q, k := p[n..], Anys(p[..n]);
    if RunBeforeClass(p) {
      z := Filler(k) + [120];
      RunOn(p, [120]);
      OneCharacter(q, [120]);
      ImpossibleClass(q);
      FillerText(k, [120]);
    } else {
      var y := Accepted(p[n + 1..]);
      assert q[1..] == p[n + 1..];
      var c := if q[0].Lit? then q[0].c else HASH;
      z := AcceptedText(p, c, y);
    }
  }

  lemma AcceptedText(p: seq<Item>, c: int, y: seq<int>) returns (z: seq<int>)
    requires RunBeforeSign(p) && Char(c) && c == (if p[WildRun(p)].Lit? then p[WildRun(p)].c else HASH)
    requires Text(y) && Run(p[WildRun(p) + 1..], y)
    ensures Text(z) && Run(p, z) && z != [] && !IsDigit(z[0])
  {
    hide Run, Matches, RunAfterStar, Found, Reaches;
    var n := WildRun(p);
    var q, k := p[n..], Anys(p[..n]);
    var x := [c] + y;
    assert q[1..] == p[n + 1..] && x[1..] == y;
    SearchStep(q, x);
    var w := if k == 0 && IsDigit(c) then [120] + x else x;
    if k == 0 && IsDigit(c) {
      assert w[1..] == x;
      SearchStep(q, w);
    }
    RunOn(p, w);
    FillerText(k, w);
    z := Filler(k) + w;
  }

  // The impossible item comes after the run.
  lemma ImpossibleRun(p: seq<Item>)
    requires !Possible(p) && !Stuck(p) && p[0] == Star
    ensures var n := WildRun(p);
      && n < |p| && !Possible(p[n..])
      && (RunBeforeClass(p) || (RunBeforeSign(p) && !Hopeless(p[n]) && !Possible(p[n + 1..]) && !Stuck(p[n + 1..])
          && (p[n].Lit? ==> Char(p[n].c))))
  {
    hide Takes, DigitOnly, Hopeless, Possible, Stuck;
    var n := WildRun(p);
    var k := HopelessAt(p);
    if k < n { WildNotHopeless(p[k]); }
    HopelessBehind(p, k, n);
    assert !Wild(p[n]);
    if RunBeforeSign(p) {
      NotStuckRun(p);
      HopelessBehind(p, k, n + 1);
    }
  }

  lemma NotStuckRun(p: seq<Item>)
    requires !Stuck(p) && RunBeforeSign(p)
    ensures var n := WildRun(p); !Hopeless(p[n]) && !Stuck(p[n + 1..]) && (p[n].Lit? ==> Char(p[n].c))
  {
    hide DigitOnly;
  }

  lemma HopelessAt(p: seq<Item>) returns (k: nat)
    requires !Possible(p)
    ensures k < |p| && Hopeless(p[k])
  {
    hide Takes;
    k :| 0 <= k < |p| && !(p[k] == Star || exists c :: Char(c) && Takes(p[k], c));
    forall c | Char(c) ensures !Takes(p[k], c) {}
  }

  lemma HopelessBehind(p: seq<Item>, k: nat, m: nat)
    requires m <= k < |p| && Hopeless(p[k])
    ensures !Possible(p[m..])
  {
    hide Takes;
    assert p[m..][k - m] == p[k];
  }

  lemma WildNotHopeless(x: Item)
    requires Wild(x)
    ensures !Hopeless(x)
  {
    if x == Any { assert Char(1) && Takes(x, 1); }
  }

  // One character cannot match an impossible class and what follows.
  lemma ImpossibleClass(q: seq<Item>)
    requires q != [] && !Possible(q) && (q[0].Class? || q[0].Bad?)
    ensures !(Takes(q[0], 120) && Matches(q[1..], []))
  {
    hide Possible, Takes, Matches;
    if Takes(q[0], 120) && Matches(q[1..], []) { ClassPossible(q); }
  }

  lemma ClassPossible(q: seq<Item>)
    requires q != [] && Takes(q[0], 120) && Matches(q[1..], [])
    ensures Possible(q)
  {
    var e: seq<int> := [];
    ImpossibleNever(q[1..], e);
    assert Char(120);
    assert forall k | 1 <= k < |q| :: q[k] == q[1..][k - 1];
  }

  lemma {:induction false} AcceptedNoDigit(p: seq<Item>) returns (z: seq<int>)
    requires !Possible(p) && !Stuck(p) && !DigitOnly(p[0])
    ensures Text(z) && Run(p, z) && z != [] && !IsDigit(z[0])
    decreases |p|, 2
  {
    hide Run, Matches, Takes, RunAfterStar;
    if p[0] == Star {
      z := AcceptedAfterRun(p);
    } else if p[0] == Digits {
      var y := Accepted(p);
      SignedAnswers(p, y);
      z := [PLUS] + y;
    } else {
      ImpossibleTail(p);
      var y := Accepted(p[1..]);
      var c :| Char(c) && Takes(p[0], c) && !IsDigit(c);
      z := [c] + y;
      SolidRuns(p, c, y);
    }
  }

  // If some item can match nothing, no text is to be matched, and the matcher is right
  // exactly when it gets stuck.
  lemma ExactlyStuck(p: seq<Item>)
    requires !Possible(p)
    ensures forall z | Text(z) :: !Matches(p, z)
    ensures Stuck(p) <==> forall z | Text(z) :: Run(p, z) == Matches(p, z)
  {
    hide Run, Matches, Stuck, Possible;
    forall z | Text(z) ensures !Matches(p, z) {
      if Matches(p, z) { ImpossibleNever(p, z); }
    }
    if Stuck(p) {
      forall z | Text(z) ensures !Run(p, z) { StuckNever(p, z); }
    } else {
      var z := Accepted(p);
      assert Run(p, z) != Matches(p, z);
    }
  }

  // For every pattern: whether the matcher is right on all texts.
  lemma ExactlyRight(p: seq<Item>)
    ensures (if Possible(p) then Clean(p) else Stuck(p)) <==> forall z | Text(z) :: Run(p, z) == Matches(p, z)
  {
    hide Run, Matches, Stuck, Possible, Clean;
    if Possible(p) { ExactlyClean(p); } else { ExactlyStuck(p); }
  }
}
