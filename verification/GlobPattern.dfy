/** Glob patterns of the multi-process tester: what a pattern means, and what the
    backtracking matcher answers. */
module GlobPattern {

  // A C string without its terminator: nonzero signed characters.
  predicate Text(s: seq<int>) { forall k | 0 <= k < |s| :: s[k] != 0 && -128 <= s[k] < 128 }

  // Characters the pattern language uses.
  const HASH := 35
  const STAR := 42
  const PLUS := 43
  const DASH := 45
  const QUERY := 63
  const OPEN := 91
  const CLOSE := 93
  const CARET := 94

  predicate IsDigit(c: int) { 48 <= c <= 57 }

  // A class is a list of ranges; Bad is a class with no closing bracket.
  datatype Item =
    | Star
    | Any
    | Class(invert: bool, ranges: seq<(int, int)>)
    | Bad
    | Digits
    | Lit(c: int)

  predicate InRanges(ranges: seq<(int, int)>, c: int) {
    exists k | 0 <= k < |ranges| :: ranges[k].0 <= c <= ranges[k].1
  }

  // One character that an item can match; Digits takes more than one.
  predicate Takes(x: Item, c: int) {
    match x
    case Any => true
    case Class(invert, ranges) => InRanges(ranges, c) != invert
    case Lit(l) => c == l
    case Digits => IsDigit(c)
    case _ => false
  }

  // ----- Reading a pattern ------------------------------------------------------------

  datatype Scan = Open | Closed(ranges: seq<(int, int)>, rest: seq<int>)

  // The members of a class up to its bracket.  A dash between two characters makes a
  // range, if the first is an unused positive character.
  function Members(g: seq<int>, prior: int): Scan {
    if g == [] then Open
    else if g[0] == CLOSE then Closed([], g[1..])
    else if g[0] == DASH && |g| > 1 && g[1] != CLOSE && prior > 0 then
      match Members(g[2..], 0)
      case Open => Open
      case Closed(ranges, rest) => Closed([(prior, g[1])] + ranges, rest)
    else
      match Members(g[1..], g[0])
      case Open => Open
      case Closed(ranges, rest) => Closed([(g[0], g[0])] + ranges, rest)
  }

  // After [ and an optional ^, a bracket in first place is an ordinary member.
  function FirstMember(g: seq<int>): Scan {
    if g != [] && g[0] == CLOSE then
      match Members(g[1..], 0)
      case Open => Open
      case Closed(ranges, rest) => Closed([(CLOSE, CLOSE)] + ranges, rest)
    else Members(g, 0)
  }

  function ClassBody(g: seq<int>): Scan {
    if g != [] && g[0] == CARET then FirstMember(g[1..]) else FirstMember(g)
  }

  lemma {:induction false} MembersShrink(g: seq<int>, prior: int)
    ensures Members(g, prior).Closed? ==> |Members(g, prior).rest| < |g|
    decreases |g|
  {
    if g == [] || g[0] == CLOSE {
    } else if g[0] == DASH && |g| > 1 && g[1] != CLOSE && prior > 0 {
      MembersShrink(g[2..], 0);
    } else {
      MembersShrink(g[1..], g[0]);
    }
  }

  lemma BodyShrinks(g: seq<int>)
    ensures ClassBody(g).Closed? ==> |ClassBody(g).rest| < |g|
  {
    var h := if g != [] && g[0] == CARET then g[1..] else g;
    MembersShrink(h, 0);
    if h != [] { MembersShrink(h[1..], 0); }
  }

  function Items(g: seq<int>): seq<Item>
    decreases |g|
  {
    if g == [] then []
    else if g[0] == STAR then [Star] + Items(g[1..])
    else if g[0] == QUERY then [Any] + Items(g[1..])
    else if g[0] == HASH then [Digits] + Items(g[1..])
    else if g[0] == OPEN then
      BodyShrinks(g[1..]);
      match ClassBody(g[1..])
      case Open => [Bad]
      case Closed(ranges, rest) => [Class(|g| > 1 && g[1] == CARET, ranges)] + Items(rest)
    else [Lit(g[0])] + Items(g[1..])
  }

  // ----- What a pattern matches -------------------------------------------------------

  // An optional sign and one or more digits.
  predicate Number(s: seq<int>) {
    var d := if s != [] && (s[0] == PLUS || s[0] == DASH) then s[1..] else s;
    d != [] && forall k | 0 <= k < |d| :: IsDigit(d[k])
  }

  predicate Matches(p: seq<Item>, z: seq<int>)
    decreases |p|
  {
    if p == [] then z == []
    else match p[0]
      case Star => exists k | 0 <= k <= |z| :: Matches(p[1..], z[k..])
      case Digits => exists k | 0 <= k <= |z| :: Number(z[..k]) && Matches(p[1..], z[k..])
      case _ => z != [] && Takes(p[0], z[0]) && Matches(p[1..], z[1..])
  }

  // ----- What the matcher answers -----------------------------------------------------

  predicate Wild(x: Item) { x == Star || x == Any }

  // The leading run of * and ?.
  function WildRun(p: seq<Item>): (n: nat)
    ensures n <= |p| && (forall k | 0 <= k < n :: Wild(p[k])) && (n < |p| ==> !Wild(p[n]))
  {
    if p == [] || !Wild(p[0]) then 0 else 1 + WildRun(p[1..])
  }

  // How many characters a run of * and ? takes at least.
  function Anys(p: seq<Item>): nat {
    if p == [] then 0 else (if p[0] == Any then 1 else 0) + Anys(p[1..])
  }

  // All the digits at hand.
  function DigitRun(z: seq<int>): (n: nat)
    ensures n <= |z| && (forall k | 0 <= k < n :: IsDigit(z[k])) && (n < |z| ==> !IsDigit(z[n]))
  {
    if z == [] || !IsDigit(z[0]) then 0 else 1 + DigitRun(z[1..])
  }

  // What # takes: a sign only before a digit, then every digit there is; 0 if none.
  function NumberRun(z: seq<int>): (n: nat)
    ensures n <= |z|
  {
    var s := if |z| > 1 && (z[0] == DASH || z[0] == PLUS) && IsDigit(z[1]) then 1 else 0;
    if DigitRun(z[s..]) == 0 then 0 else s + DigitRun(z[s..])
  }

  predicate Run(p: seq<Item>, z: seq<int>)
    decreases |p|, 0, |z|
  {
    if p == [] then z == []
    else match p[0]
      case Star =>
        var n := WildRun(p);
        Anys(p[..n]) <= |z| && RunAfterStar(p[n..], z[Anys(p[..n])..])
      case Digits => NumberRun(z) > 0 && Run(p[1..], z[NumberRun(z)..])
      case _ => z != [] && Takes(p[0], z[0]) && Run(p[1..], z[1..])
  }

  // After a run with a star: a literal (or #, taken literally) is searched for and
  // the rest tried behind it; before a class the search stops where the class and
  // the rest do NOT match.
  predicate RunAfterStar(q: seq<Item>, z: seq<int>)
    decreases |q|, 1, |z|
  {
    if q == [] then true
    else if z == [] then false
    else match q[0]
      case Class(_, _) => if Run(q, z) then RunAfterStar(q, z[1..]) else true
      case Bad => if Run(q, z) then RunAfterStar(q, z[1..]) else true
      case Digits => (z[0] == HASH && Run(q[1..], z[1..])) || RunAfterStar(q, z[1..])
      case Lit(c) => (z[0] == c && Run(q[1..], z[1..])) || RunAfterStar(q, z[1..])
      case _ => false
  }
}
