/** What a pattern means, in terms of the characters it is written with. */
module GlobText {
  import opened GlobPattern
  import opened GlobExact
  import opened GlobFailures

  // The texts that a written pattern is to match.
  predicate Means(g: seq<int>, z: seq<int>) { Matches(Items(g), z) }

  // ----- Outside brackets ---------------------------------------------------------------

  lemma EmptyMeans(z: seq<int>)
    ensures Means([], z) <==> z == []
  {}

  // An ordinary character stands for itself.
  lemma OrdinaryMeans(c: int, h: seq<int>, z: seq<int>)
    requires c != STAR && c != QUERY && c != HASH && c != OPEN
    ensures Means([c] + h, z) <==> z != [] && z[0] == c && Means(h, z[1..])
  {
    Rest(c, h);
  }

  // ? is any one character.
  lemma QueryMeans(h: seq<int>, z: seq<int>)
    ensures Means([QUERY] + h, z) <==> z != [] && Means(h, z[1..])
  {
    Rest(QUERY, h);
  }

  // * is any sequence of characters.
  lemma StarMeans(h: seq<int>, z: seq<int>)
    ensures Means([STAR] + h, z) <==> exists k | 0 <= k <= |z| :: Means(h, z[k..])
  {
    Rest(STAR, h);
    assert Items([STAR] + h) == [Star] + Items(h);
  }

  // # is a number: one or more digits with an optional sign in front.
  lemma HashMeans(h: seq<int>, z: seq<int>)
    ensures Means([HASH] + h, z) <==> exists k | 0 <= k <= |z| :: Number(z[..k]) && Means(h, z[k..])
  {
    Rest(HASH, h);
    var p := Items([HASH] + h);
    assert p == [Digits] + Items(h) && p[1..] == Items(h);
    hide Number, Items;
    HashFirst(p, z);
  }

  lemma HashFirst(p: seq<Item>, z: seq<int>)
    requires p != [] && p[0] == Digits
    ensures Matches(p, z) <==> exists k | 0 <= k <= |z| :: Number(z[..k]) && Matches(p[1..], z[k..])
  {}

  lemma Rest(c: int, h: seq<int>)
    ensures ([c] + h)[0] == c && ([c] + h)[1..] == h
  {}

  // ----- Brackets -------------------------------------------------------------------------

  // A member of a class: a character, or a range.
  datatype Part = One(c: int) | Range(lo: int, hi: int)

  // Characters without a meaning of their own between brackets.
  predicate Member(c: int) { Char(c) && c != CLOSE && c != DASH }

  predicate PartOk(part: Part) {
    match part
    case One(c) => Member(c)
    case Range(lo, hi) => Member(lo) && Member(hi) && lo > 0
  }

  function Written(part: Part): seq<int> {
    match part
    case One(c) => [c]
    case Range(lo, hi) => [lo, DASH, hi]
  }

  function WrittenAll(parts: seq<Part>): seq<int> {
    if parts == [] then [] else Written(parts[0]) + WrittenAll(parts[1..])
  }

  // Both ends belong to a range; one that runs downwards is its first end alone.
  predicate Covers(part: Part, c: int) {
    match part
    case One(d) => c == d
    case Range(lo, hi) => c == lo || lo <= c <= hi
  }

  // [...] or [^...], with a closing bracket as first member or not.
  function ClassText(invert: bool, close: bool, parts: seq<Part>): seq<int> {
    [OPEN] + (if invert then [CARET] else []) + (if close then [CLOSE] else []) + WrittenAll(parts) + [CLOSE]
  }

  // There is a member, and a ^ in first place is one only after another ^ or bracket.
  predicate ClassOk(invert: bool, close: bool, parts: seq<Part>) {
    && (forall k | 0 <= k < |parts| :: PartOk(parts[k]))
    && (close || (parts != [] && (!invert ==> WrittenAll(parts)[0] != CARET)))
  }

  predicate Listed(close: bool, parts: seq<Part>, c: int) {
    (close && c == CLOSE) || exists k | 0 <= k < |parts| :: Covers(parts[k], c)
  }

  // A class is one character that is listed, or with ^ one that is not.
  lemma ClassMeans(invert: bool, close: bool, parts: seq<Part>, h: seq<int>, z: seq<int>)
    requires ClassOk(invert, close, parts)
    ensures Means(ClassText(invert, close, parts) + h, z) <==>
            z != [] && Listed(close, parts, z[0]) != invert && Means(h, z[1..])
  {
    hide ClassRanges, Listed, ClassText, ClassOk, Items;
    ClassRead(invert, close, parts, h);
    if z != [] { ClassLists(close, parts, z[0]); }
  }

  // The ranges a member is read as.
  function RangesOf(part: Part): seq<(int, int)> {
    match part
    case One(c) => [(c, c)]
    case Range(lo, hi) => [(lo, lo), (lo, hi)]
  }

  function AllRanges(parts: seq<Part>): seq<(int, int)> {
    if parts == [] then [] else RangesOf(parts[0]) + AllRanges(parts[1..])
  }

  lemma InRangesConcat(a: seq<(int, int)>, b: seq<(int, int)>, c: int)
    ensures InRanges(a + b, c) <==> InRanges(a, c) || InRanges(b, c)
  {
    if InRanges(a, c) {
      var k :| 0 <= k < |a| && a[k].0 <= c <= a[k].1;
      assert (a + b)[k] == a[k];
    }
    if InRanges(b, c) {
      var k :| 0 <= k < |b| && b[k].0 <= c <= b[k].1;
      assert (a + b)[|a| + k] == b[k];
    }
  }

  lemma RangesCover(part: Part, c: int)
    ensures InRanges(RangesOf(part), c) <==> Covers(part, c)
  {
    var r := RangesOf(part);
    assert part.Range? ==> r[0] == (part.lo, part.lo) && r[1] == (part.lo, part.hi);
    assert part.One? ==> r[0] == (part.c, part.c);
  }

  lemma {:induction false} AllRangesCover(parts: seq<Part>, c: int)
    ensures InRanges(AllRanges(parts), c) <==> exists k | 0 <= k < |parts| :: Covers(parts[k], c)
  {
    hide InRanges, Covers, RangesOf;
    if parts == [] {
      NoneInRange(c);
    } else {
      AllRangesCover(parts[1..], c);
      RangesCover(parts[0], c);
      InRangesConcat(RangesOf(parts[0]), AllRanges(parts[1..]), c);
      if k :| 0 <= k < |parts| && Covers(parts[k], c) {
        if k > 0 { assert parts[1..][k - 1] == parts[k]; }
      }
    }
  }

  lemma NoneInRange(c: int)
    ensures !InRanges([], c)
  {}

  // Reading the members as they are written.
  lemma {:induction false} MembersRead(parts: seq<Part>, h: seq<int>, prior: int)
    requires forall k | 0 <= k < |parts| :: PartOk(parts[k])
    ensures Members(WrittenAll(parts) + [CLOSE] + h, prior) == Closed(AllRanges(parts), h)
    decreases |parts|
  {
    var g := WrittenAll(parts) + [CLOSE] + h;
    if parts == [] {
      assert g == [CLOSE] + h && g[1..] == h;
    } else {
      var rest := WrittenAll(parts[1..]) + [CLOSE] + h;
      assert g == Written(parts[0]) + rest;
      match parts[0] {
        case One(c) =>
          MembersRead(parts[1..], h, c);
          OneRead(c, rest, prior);
        case Range(lo, hi) =>
          MembersRead(parts[1..], h, 0);
          RangeRead(lo, hi, rest, prior);
          assert [(lo, lo)] + ([(lo, hi)] + AllRanges(parts[1..])) == [(lo, lo), (lo, hi)] + AllRanges(parts[1..]);
      }
    }
  }

  lemma OneRead(c: int, rest: seq<int>, prior: int)
    requires Member(c) && Members(rest, c).Closed?
    ensures Members([c] + rest, prior) == Closed([(c, c)] + Members(rest, c).ranges, Members(rest, c).rest)
  {
    Rest(c, rest);
  }

  lemma RangeRead(lo: int, hi: int, rest: seq<int>, prior: int)
    requires Member(lo) && Member(hi) && lo > 0 && Members(rest, 0).Closed?
    ensures var r := Members(rest, 0);
      Members([lo, DASH, hi] + rest, prior) == Closed([(lo, lo)] + ([(lo, hi)] + r.ranges), r.rest)
  {
    var g := [lo, DASH, hi] + rest;
    assert g[1..] == [DASH, hi] + rest && g[1..][2..] == rest;
    assert Members(g[1..], lo) == Closed([(lo, hi)] + Members(rest, 0).ranges, Members(rest, 0).rest);
  }

  lemma FirstWritten(parts: seq<Part>)
    requires parts != [] && PartOk(parts[0])
    ensures WrittenAll(parts) != [] && WrittenAll(parts)[0] != CLOSE
  {}

  // The item a written class is read as.
  function ClassRanges(close: bool, parts: seq<Part>): seq<(int, int)> {
    (if close then [(CLOSE, CLOSE)] else []) + AllRanges(parts)
  }

  lemma ClassRead(invert: bool, close: bool, parts: seq<Part>, h: seq<int>)
    requires ClassOk(invert, close, parts)
    ensures Items(ClassText(invert, close, parts) + h) == [Class(invert, ClassRanges(close, parts))] + Items(h)
  {
    hide Members, WrittenAll, AllRanges;
    var m := WrittenAll(parts) + [CLOSE] + h;
    var body := (if close then [CLOSE] else []) + m;
    var inner := (if invert then [CARET] else []) + body;
    var g := ClassText(invert, close, parts) + h;
    assert g == [OPEN] + inner && g[1..] == inner;
    if parts != [] { FirstWritten(parts); }
    BodyRead(close, parts, h);
    assert ClassBody(inner) == FirstMember(body) by {
      if invert { assert inner[1..] == body; } else { assert inner == body && body[0] != CARET; }
    }
    assert (|g| > 1 && g[1] == CARET) == invert;
  }

  lemma BodyRead(close: bool, parts: seq<Part>, h: seq<int>)
    requires (forall k | 0 <= k < |parts| :: PartOk(parts[k])) && (close || parts != [])
    ensures FirstMember((if close then [CLOSE] else []) + (WrittenAll(parts) + [CLOSE] + h)) ==
            Closed(ClassRanges(close, parts), h)
  {
    hide Members, WrittenAll, AllRanges;
    var m := WrittenAll(parts) + [CLOSE] + h;
    MembersRead(parts, h, 0);
    if close {
      Rest(CLOSE, m);
    } else {
      FirstWritten(parts);
      assert [] + m == m && [] + AllRanges(parts) == AllRanges(parts);
    }
  }

  lemma ClassLists(close: bool, parts: seq<Part>, c: int)
    ensures InRanges(ClassRanges(close, parts), c) <==> Listed(close, parts, c)
  {
    hide InRanges, Covers, AllRanges;
    AllRangesCover(parts, c);
    InRangesConcat(if close then [(CLOSE, CLOSE)] else [], AllRanges(parts), c);
    CloseInRange(close, c);
  }

  lemma CloseInRange(close: bool, c: int)
    ensures InRanges(if close then [(CLOSE, CLOSE)] else [], c) <==> close && c == CLOSE
  {
    if close { assert [(CLOSE, CLOSE)][0] == (CLOSE, CLOSE); }
  }

  // A bracket that is never closed matches nothing.
  lemma UnclosedMeans(m: seq<int>, z: seq<int>)
    requires CLOSE !in m
    ensures !Means([OPEN] + m, z)
  {
    Rest(OPEN, m);
    var h := if m != [] && m[0] == CARET then m[1..] else m;
    NeverCloses(h, 0);
    assert Items([OPEN] + m) == [Bad];
  }

  lemma {:induction false} NeverCloses(g: seq<int>, prior: int)
    requires CLOSE !in g
    ensures Members(g, prior).Open?
    decreases |g|
  {
    if g != [] {
      if g[0] == DASH && |g| > 1 && prior > 0 {
        NeverCloses(g[2..], 0);
      } else {
        NeverCloses(g[1..], g[0]);
      }
    }
  }

  // ----- What the matcher answers on a class -------------------------------------------------

  // The whole pattern being one class, the matcher accepts exactly the texts of one
  // character that is listed, or with ^ not listed.
  lemma ClassRuns(invert: bool, close: bool, parts: seq<Part>, z: seq<int>)
    requires ClassOk(invert, close, parts)
    ensures Run(Items(ClassText(invert, close, parts)), z) <==> |z| == 1 && Listed(close, parts, z[0]) != invert
  {
    hide Run, Matches, Listed;
    var g := ClassText(invert, close, parts);
    assert g + [] == g;
    ClassRead(invert, close, parts, []);
    SingleClean(invert, ClassRanges(close, parts));
    NoItems();
    CleanExact(Items(g), z);
    ClassMeans(invert, close, parts, [], z);
    if z != [] { EmptyMeans(z[1..]); }
  }

  lemma NoItems()
    ensures Items([]) == []
  {}

  lemma SingleClean(invert: bool, ranges: seq<(int, int)>)
    ensures Clean([Class(invert, ranges)])
  {}

  // [^a] rejects "a" and accepts "b".
  lemma NotA()
    ensures !Run(Items([OPEN, CARET, 97, CLOSE]), [97]) && Run(Items([OPEN, CARET, 97, CLOSE]), [98])
  {
    var parts := [One(97)];
    assert parts[1..] == [] && WrittenAll([]) == [];
    assert WrittenAll(parts) == [97];
    assert ClassText(true, false, parts) == [OPEN, CARET, 97, CLOSE];
    ClassRuns(true, false, parts, [97]);
    ClassRuns(true, false, parts, [98]);
    assert Covers(parts[0], 97);
  }
}
