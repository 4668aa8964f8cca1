/** Completeness: the parser rebuilds every tree that respects the precedences from
    the tokens it spells, exactly when the tree fits the stack. */
module Fts5Complete {
  import opened Fts5Tables
  import opened Fts5Grammar
  import opened Fts5Automaton
  import opened Fts5Machine
  import opened Fts5Driver

  // Stack entries a tree takes while it is being read.
  function Need(t: Tree): nat {
    match t
    case Leaf(_) => 1
    case Node(_, kids) => NeedFrom(kids, 0)
  }

  // Entries taken from child j on, with the earlier children already reduced.
  function NeedFrom(kids: seq<Tree>, j: nat): nat
    decreases kids, |kids| - j
  {
    if kids == [] then 1
    else if j >= |kids| then 0
    else Max(j + Need(kids[j]), NeedFrom(kids, j + 1))
  }

  function Max(a: nat, b: nat): nat { if a < b then b else a }

  // The stack with tree t reduced on top.
  function Grown(base: seq<Entry>, t: Tree): seq<Entry> {
    base + [Entry(Step(Top(base), Root(t)), t)]
  }

  // Tree t can be read on top of base when token la comes after it.
  predicate Hosts(base: seq<Entry>, t: Tree, la: int) {
    && Valid(t) && Resolved(t)
    && Step(Top(base), Root(t)) != -1
    && match t
       case Leaf(tok) => TokenLevel(tok.kind) <= TopLevel(base)
       case Node(r, _) => Starts(Top(base), r) && Follow(Lhs(r), la) && TokenLevel(la) <= RuleLevel(r)
  }

  // ----- Lookahead ------------------------------------------------------------------

  lemma NoNullableStart(r: int)
    requires 0 <= r < YYNRULE
    ensures Rhs(r) == [] ==> Nullable(Lhs(r))
    ensures Rhs(r) != [] ==> !Nullable(Rhs(r)[0])
    ensures Rhs(r) != [] ==> forall la :: First(Rhs(r)[0], la) ==> First(Lhs(r), la)
  {}

  lemma TerminalFirst(x: int, la: int)
    requires 0 <= x < YYNTOKEN
    ensures First(x, la) <==> la == x
    ensures !Nullable(x)
  {}

  // A tree spells nothing only if its symbol is optional, and else begins with a
  // token that can begin its symbol.
  lemma {:induction false} YieldFirst(t: Tree)
    requires Valid(t)
    ensures Yield(t) == [] ==> Nullable(Root(t))
    ensures Yield(t) != [] ==> First(Root(t), Yield(t)[0].kind)
  {
    hide First, Nullable, Rhs, Lhs;
    match t
    case Leaf(tok) => TerminalFirst(tok.kind, tok.kind);
    case Node(r, kids) =>
      NoNullableStart(r);
      if kids == [] {
        assert Rhs(r) == [];
      } else {
        YieldFirst(kids[0]);
        assert Root(kids[0]) == Rhs(r)[0];
        assert Yield(kids[0]) != [];
        assert Yield(t) == Yield(kids[0]) + Yields(kids[1..]);
      }
  }

  lemma {:induction false} YieldTokens(t: Tree)
    requires Valid(t)
    ensures Tokens(Yield(t)) && forall k | 0 <= k < |Yield(t)| :: Yield(t)[k].kind != EOF
    decreases t, 1, 0
  {
    hide Rhs, Lhs;
    if t.Node? {
      YieldsTokens(t, 0);
      assert t.kids[0..] == t.kids;
    }
  }

  lemma {:induction false} YieldsTokens(t: Tree, j: nat)
    requires Valid(t) && t.Node? && j <= |t.kids|
    ensures Tokens(Yields(t.kids[j..]))
        && forall k | 0 <= k < |Yields(t.kids[j..])| :: Yields(t.kids[j..])[k].kind != EOF
    decreases t, 0, |t.kids| - j
  {
    hide Rhs, Lhs;
    if j < |t.kids| {
      YieldTokens(t.kids[j]);
      YieldsTokens(t, j + 1);
      assert t.kids[j..][1..] == t.kids[j + 1..];
    }
  }

  // The next token once j children have been read.
  lemma {:induction false} RestAhead(t: Tree, j: nat, rest: seq<Token>)
    requires Valid(t) && t.Node? && j <= |t.kids| && rest != [] && Follow(Lhs(t.rule), rest[0].kind)
    ensures Ahead(t.rule, j, (Yields(t.kids[j..]) + rest)[0].kind)
    decreases |t.kids| - j
  {
    hide First, Nullable, Rhs, Lhs, Follow;
    if j < |t.kids| {
      YieldFirst(t.kids[j]);
      RestAhead(t, j + 1, rest);
      assert t.kids[j..][1..] == t.kids[j + 1..];
    }
  }

  // ----- Reading a tree ---------------------------------------------------------------

  // Feeding one more call: the stack can be replaced by its reduction.
  lemma FeedReduce(end: nat, st: seq<Entry>, toks: seq<Token>)
    requires Viable(st) && |st| <= end && Tokens(toks) && toks != [] && Ready(st, toks[0].kind)
    requires Act(Top(st), toks[0].kind) >= YY_MIN_REDUCE
    ensures var r := Act(Top(st), toks[0].kind) - YY_MIN_REDUCE;
      if Rhs(r) == [] && |st| >= end then Feed(end, st, toks) == Overflow
      else
        && |Rhs(r)| <= |st| && |Reduced(st, r)| <= end && Ready(Reduced(st, r), toks[0].kind)
        && Feed(end, st, toks) == Feed(end, Reduced(st, r), toks)
  {
    hide Act, Goto, Rhs, Ready, Reduced;
    ReducedReady(st, toks[0].kind);
    ReducedSize(st, Act(Top(st), toks[0].kind) - YY_MIN_REDUCE);
  }

  // A token the state wants is shifted if the stack has room.
  lemma FeedShift(end: nat, st: seq<Entry>, toks: seq<Token>)
    requires Viable(st) && |st| <= end && Tokens(toks) && toks != [] && Ready(st, toks[0].kind)
    requires Step(Top(st), toks[0].kind) != -1
    requires |toks| > 1 ==> |st| < end ==> Ready(Grown(st, Leaf(toks[0])), toks[1].kind)
    ensures |st| >= end ==> Feed(end, st, toks) == Overflow
    ensures |st| < end ==>
      && Viable(Grown(st, Leaf(toks[0])))
      && Feed(end, st, toks) == Feed(end, Grown(st, Leaf(toks[0])), toks[1..])
  {
    hide Act, Goto, Step, Ready, Viable, Built, Feed, Waiting, Keeps, Yields, Trees;
    ShiftStep(Top(st), toks[0].kind);
    ProcessShift(end, st, toks[0]);
    FeedTurn(end, st, toks);
    if |st| < end {
      ShiftWaiting(end, st, toks[0]);
      WaitingViable(end, Grown(st, Leaf(toks[0])));
    }
  }

  // What a call does with a token that the state wants.
  lemma ProcessShift(end: nat, st: seq<Entry>, tok: Token)
    requires Ready(st, tok.kind) && |st| <= end && Act(Top(st), tok.kind) <= YY_MAX_SHIFTREDUCE
    requires var a := Act(Top(st), tok.kind);
      Step(Top(st), tok.kind) == if a > YY_MAX_SHIFT then a + YY_MIN_REDUCE - YY_MIN_SHIFTREDUCE else a
    ensures Process(end, st, tok) == if |st| >= end then Overflow else Shifted(Grown(st, Leaf(tok)))
  {
    hide Act, Goto, Step, Built, Viable;
  }

  lemma ShiftStep(s: int, la: int)
    requires 0 <= la < YYNTOKEN && Step(s, la) != -1
    ensures Act(s, la) <= YY_MAX_SHIFTREDUCE
    ensures Step(s, la) == if Act(s, la) > YY_MAX_SHIFT then Act(s, la) + YY_MIN_REDUCE - YY_MIN_SHIFTREDUCE
        else Act(s, la)
  {}

  // The child at position j meets what Hosts asks, given that the node does.
  lemma ChildHosted(st: seq<Entry>, t: Tree, j: nat, la: int)
    requires Valid(t) && Resolved(t) && t.Node? && j < |t.kids|
    requires InRule(Top(st), t.rule, j) && Ahead(t.rule, j + 1, la)
    requires TokenLevel(la) <= RuleLevel(t.rule) || j + 1 < |t.kids|
    requires t.kids[j].Leaf? ==> TokenLevel(t.kids[j].tok.kind) <= TopLevel(st)
    ensures Hosts(st, t.kids[j], la)
    ensures InRule(Step(Top(st), Root(t.kids[j])), t.rule, j + 1)
    ensures TokenLevel(la) <= Level(t.kids[j])
  {
    hide Step, Goto, Act, Rhs, Item, TokenLevel, Starts, Ahead, Follow, Lhs;
    var kid := t.kids[j];
    StepForward(Top(st), t.rule, j);
    SymbolOf(kid);
    match kid
    case Leaf(tok) => AnyLevel(la);
    case Node(q, _) =>
      FitsOperand(t, j);
      ChildStarts(Top(st), t.rule, j, q);
      AheadFollows(t.rule, j, la);
      ChildLevel(t.rule, j, q, la);
  }

  lemma AnyLevel(la: int)
    ensures TokenLevel(la) <= 4
  {}

  lemma FitsOperand(t: Tree, j: nat)
    requires Valid(t) && Resolved(t) && t.Node? && j < |t.kids| && t.kids[j].Node?
    ensures Fits(t.rule, j, t.kids[j].rule)
  {
    hide Rhs, RuleLevel, Lhs;
    if RuleLevel(t.rule) < 4 {
      OperatorRules(t.rule);
      SymbolOf(t.kids[j]);
    }
  }

  lemma AcceptFollow(s: int, x: int, la: int)
    requires Step(s, x) == YY_ACCEPT_ACTION && Follow(x, la)
    ensures la == EOF
  {}

  lemma LeafStep(s: int, x: int)
    requires x < YYNTOKEN
    ensures Step(s, x) != YY_ACCEPT_ACTION
  {}

  lemma GrownReady(base: seq<Entry>, t: Tree, la: int)
    requires Viable(base) && 0 <= la < YYNTOKEN && Hosts(base, t, la)
    ensures Ready(Grown(base, t), la)
  {
    hide Step, TokenLevel, RuleLevel, Follow, Starts, Valid, Resolved, Lhs, Built;
    var next := Grown(base, t);
    assert next[..|next| - 1] == base;
    ViableBuilt(next);
    match t
    case Leaf(tok) => AnyLevel(la); LeafParts(t); LeafStep(Top(base), tok.kind);
    case Node(r, _) =>
      if Top(next) == YY_ACCEPT_ACTION { AcceptFollow(Top(base), Lhs(r), la); }
  }

  lemma LeafParts(t: Tree)
    requires Valid(t) && t.Leaf?
    ensures 0 < Root(t) < YYNTOKEN
  {}

  lemma HostsReady(base: seq<Entry>, t: Tree, la: int)
    requires Viable(base) && Step(Top(base), Root(t)) != -1 && 0 <= la < YYNTOKEN && TokenLevel(la) <= TopLevel(base)
    ensures Ready(base, la)
  {
    hide Step, TokenLevel, Viable, Built;
    ViableBuilt(base);
    NoStepFromAccept(Root(t));
  }

  lemma NoStepFromAccept(x: int)
    ensures Step(YY_ACCEPT_ACTION, x) == -1
  {}

  // Reading the tokens of t leaves t on the stack, or overflows it.
  ghost predicate Reads(end: nat, base: seq<Entry>, t: Tree, rest: seq<Token>) {
    && Viable(base) && |base| <= end && Tokens(Yield(t) + rest) && Yield(t) + rest != [] && rest != []
    && Ready(base, (Yield(t) + rest)[0].kind)
    && (if |base| + Need(t) > end then Feed(end, base, Yield(t) + rest) == Overflow
        else
          && Ready(Grown(base, t), rest[0].kind) && |base| < end && Tokens(rest)
          && Feed(end, base, Yield(t) + rest) == Feed(end, Grown(base, t), rest))
  }

  lemma ReadLeaf(end: nat, base: seq<Entry>, t: Tree, rest: seq<Token>)
    requires Viable(base) && |base| <= end && Tokens(rest) && rest != [] && t.Leaf?
    requires Hosts(base, t, rest[0].kind)
    ensures Reads(end, base, t, rest)
  {
    hide Step, Act, TokenLevel, Follow, Starts, Feed, Viable;
    var toks := Yield(t) + rest;
    LeafParts(t);
    HostsReady(base, t, t.tok.kind);
    GrownReady(base, t, rest[0].kind);
    FeedShift(end, base, toks);
    assert toks[1..] == rest;
  }

  // The stack with the given children on top of base.
  function Partial(base: seq<Entry>, kids: seq<Tree>): seq<Entry> {
    if kids == [] then base else Grown(Partial(base, kids[..|kids| - 1]), kids[|kids| - 1])
  }

  lemma {:induction false} PartialShape(base: seq<Entry>, kids: seq<Tree>)
    ensures var st := Partial(base, kids);
      |st| == |base| + |kids| && st[..|base|] == base && Trees(st[|base|..]) == kids
  {
    if kids == [] {
      assert base[|base|..] == [];
    } else {
      var init := kids[..|kids| - 1];
      PartialShape(base, init);
      var st := Partial(base, kids);
      assert st[|base|..] == Partial(base, init)[|base|..] + st[|st| - 1..];
      assert kids == init + [kids[|kids| - 1]];
    }
  }

  lemma ReduceToGrown(base: seq<Entry>, t: Tree, la: int)
    requires Hosts(base, t, la) && t.Node?
    ensures |Rhs(t.rule)| <= |Partial(base, t.kids)| && Reduced(Partial(base, t.kids), t.rule) == Grown(base, t)
  {
    hide Step, Goto, Rhs, Lhs, Starts, Follow, TokenLevel, RuleLevel;
    PartialShape(base, t.kids);
    StartsSymbol(Top(base), t.rule);
  }

  // The state after j children of t on top of base, with la next.
  ghost predicate Midway(end: nat, base: seq<Entry>, t: Tree, j: nat, rest: seq<Token>) {
    && t.Node? && j <= |t.kids| && rest != [] && Tokens(rest)
    && Hosts(base, t, rest[0].kind)
    && |base| + j <= end
    && Tokens(Yields(t.kids[j..]) + rest)
    && InRule(Top(Partial(base, t.kids[..j])), t.rule, j)
    && Ready(Partial(base, t.kids[..j]), (Yields(t.kids[j..]) + rest)[0].kind)
  }

  ghost predicate Finishes(end: nat, base: seq<Entry>, t: Tree, st: seq<Entry>, toks: seq<Token>, room: nat,
      rest: seq<Token>) {
    && Viable(st) && |st| <= end && Tokens(toks) && toks != [] && Ready(st, toks[0].kind)
    && (if room > end then Feed(end, st, toks) == Overflow
        else
          && rest != [] && Tokens(rest) && |base| < end && Ready(Grown(base, t), rest[0].kind)
          && Feed(end, st, toks) == Feed(end, Grown(base, t), rest))
  }

  lemma MidwayAtEnd(end: nat, base: seq<Entry>, t: Tree, rest: seq<Token>)
    requires t.Node? && Midway(end, base, t, |t.kids|, rest)
    ensures rest != [] && Tokens(rest) && Hosts(base, t, rest[0].kind) && |base| + |t.kids| <= end
    ensures Ready(Partial(base, t.kids), rest[0].kind) && InRule(Top(Partial(base, t.kids)), t.rule, |t.kids|)
  {
    hide Ready, InRule, Hosts, Partial;
    assert t.kids[..|t.kids|] == t.kids && t.kids[|t.kids|..] == [];
    assert [] + rest == rest;
  }

  lemma ReadLast(end: nat, base: seq<Entry>, t: Tree, rest: seq<Token>)
    requires Viable(base) && t.Node? && Midway(end, base, t, |t.kids|, rest)
    ensures Finishes(end, base, t, Partial(base, t.kids), rest, |base| + NeedFrom(t.kids, |t.kids|), rest)
  {
    hide Midway, Hosts, Step, Goto, Act, Rhs, Lhs, Starts, Follow, TokenLevel, RuleLevel, InRule, Feed, Ready, Reduced,
      Partial, Trees, Valid, Resolved, Viable, Grown;
    var st := Partial(base, t.kids);
    MidwayAtEnd(end, base, t, rest);
    PartialShape(base, t.kids);
    HostsParts(base, t, rest[0].kind);
    ReduceForward(Top(st), t.rule, rest[0].kind);
    ReadyViable(st, rest[0].kind);
    FeedReduce(end, st, rest);
    ReduceToGrown(base, t, rest[0].kind);
    GrownReady(base, t, rest[0].kind);
  }

  lemma ReadyViable(st: seq<Entry>, la: int)
    requires Ready(st, la)
    ensures Viable(st) && 0 <= la < YYNTOKEN
  {}

  lemma HostsParts(base: seq<Entry>, t: Tree, la: int)
    requires Hosts(base, t, la) && t.Node?
    ensures Valid(t) && Resolved(t) && Follow(Lhs(t.rule), la) && TokenLevel(la) <= RuleLevel(t.rule)
    ensures 0 <= t.rule < YYNRULE && |t.kids| == |Rhs(t.rule)| && Starts(Top(base), t.rule)
  {}

  // Tokens and stacks around child j.
  lemma MidwayStep(end: nat, base: seq<Entry>, t: Tree, j: nat, rest: seq<Token>)
    requires Viable(base) && Midway(end, base, t, j, rest) && j < |t.kids|
    ensures var st, kid, rest' := Partial(base, t.kids[..j]), t.kids[j], Yields(t.kids[j + 1..]) + rest;
      && Viable(st) && |st| == |base| + j <= end
      && Yields(t.kids[j..]) + rest == Yield(kid) + rest'
      && rest' != [] && Tokens(rest')
      && Partial(base, t.kids[..j + 1]) == Grown(st, kid)
      && Hosts(st, kid, rest'[0].kind)
      && TokenLevel((Yield(kid) + rest')[0].kind) <= TopLevel(st)
      && InRule(Step(Top(st), Root(kid)), t.rule, j + 1)
  {
    hide Step, Goto, Act, Rhs, Lhs, Starts, Follow, TokenLevel, RuleLevel, Item, Hosts, Viable, Valid, Resolved, Ahead,
      InRule;
    var st, kid, rest' := Partial(base, t.kids[..j]), t.kids[j], Yields(t.kids[j + 1..]) + rest;
    HostsParts(base, t, rest[0].kind);
    assert t.kids[j..][1..] == t.kids[j + 1..];
    assert t.kids[..j + 1][..|t.kids[..j + 1]| - 1] == t.kids[..j];
    PartialShape(base, t.kids[..j]);
    assert Yields(t.kids[j..]) + rest == Yield(kid) + rest';
    TokensSuffix(Yield(kid), rest');
    RestAhead(t, j + 1, rest);
    ChildHosted(st, t, j, rest'[0].kind);
  }

  lemma TokensSuffix(a: seq<Token>, b: seq<Token>)
    requires Tokens(a + b)
    ensures Tokens(a) && Tokens(b)
  {
    forall k | 0 <= k < |b| ensures 0 <= b[k].kind < YYNTOKEN { assert (a + b)[|a| + k] == b[k]; }
    forall k | 0 <= k < |a| ensures 0 <= a[k].kind < YYNTOKEN { assert (a + b)[k] == a[k]; }
  }

  lemma MidwayNext(end: nat, base: seq<Entry>, t: Tree, j: nat, rest: seq<Token>)
    requires Viable(base) && Midway(end, base, t, j, rest) && j < |t.kids|
    requires var st, kid, rest' := Partial(base, t.kids[..j]), t.kids[j], Yields(t.kids[j + 1..]) + rest;
      && |st| < end && Ready(Grown(st, kid), rest'[0].kind)
    ensures Midway(end, base, t, j + 1, rest)
  {
    hide Step, Rhs, Lhs, Ready, Viable, Hosts, InRule, Partial;
    MidwayStep(end, base, t, j, rest);
  }

  lemma {:induction false} ReadKids(end: nat, base: seq<Entry>, t: Tree, j: nat, rest: seq<Token>)
    requires Viable(base) && Midway(end, base, t, j, rest)
    ensures Finishes(end, base, t, Partial(base, t.kids[..j]), Yields(t.kids[j..]) + rest,
      |base| + NeedFrom(t.kids, j), rest)
    decreases t, 0, |t.kids| - j
  {
    hide Midway, Step, Goto, Act, Rhs, Lhs, Starts, Follow, TokenLevel, RuleLevel, Item, Hosts, Viable, Valid,
        Resolved, Feed, Ready,
      InRule, Partial, Yields, Tokens;
    MidwayBound(end, base, t, j, rest);
    if j == |t.kids| {
      ReadLast(end, base, t, rest);
      assert t.kids[..j] == t.kids && Yields(t.kids[j..]) + rest == rest by { NoYields(t.kids[j..], rest); }
    } else {
      MidwayStep(end, base, t, j, rest);
      var st, kid, rest' := Partial(base, t.kids[..j]), t.kids[j], Yields(t.kids[j + 1..]) + rest;
      Read(end, st, kid, rest');
      if |st| + Need(kid) <= end {
        MidwayNext(end, base, t, j, rest);
        ReadKids(end, base, t, j + 1, rest);
      }
    }
  }

  lemma MidwayBound(end: nat, base: seq<Entry>, t: Tree, j: nat, rest: seq<Token>)
    requires Midway(end, base, t, j, rest)
    ensures t.Node? && j <= |t.kids|
  {}

  lemma NoYields(ts: seq<Tree>, rest: seq<Token>)
    requires ts == []
    ensures Yields(ts) + rest == rest
  {}

  lemma {:induction false} Read(end: nat, base: seq<Entry>, t: Tree, rest: seq<Token>)
    requires Viable(base) && |base| <= end && Tokens(rest) && rest != []
    requires Hosts(base, t, rest[0].kind)
    requires TokenLevel((Yield(t) + rest)[0].kind) <= TopLevel(base)
    ensures Reads(end, base, t, rest)
    decreases t, 1, 0
  {
    hide Step, Goto, Act, Rhs, Lhs, Starts, Follow, TokenLevel, RuleLevel, Item, Hosts, Viable, Valid, Resolved,
        Feed, Ready,
      InRule, Tokens;
    match t
    case Leaf(_) => ReadLeaf(end, base, t, rest);
    case Node(r, kids) =>
      MidwayStart(end, base, t, rest);
      ReadKids(end, base, t, 0, rest);
      assert kids[0..] == kids && kids[..0] == [];
  }

  lemma MidwayStart(end: nat, base: seq<Entry>, t: Tree, rest: seq<Token>)
    requires Viable(base) && |base| <= end && Tokens(rest) && rest != [] && t.Node?
    requires Hosts(base, t, rest[0].kind)
    requires TokenLevel((Yield(t) + rest)[0].kind) <= TopLevel(base)
    ensures Midway(end, base, t, 0, rest)
  {
    hide Step, Goto, Act, Rhs, Lhs, Starts, Follow, TokenLevel, RuleLevel, Item, Viable, Ready;
    assert t.kids[0..] == t.kids && t.kids[..0] == [];
    YieldTokens(t);
    TokensConcat(Yield(t), rest);
    HostsReady(base, t, (Yield(t) + rest)[0].kind);
  }

  lemma TokensConcat(a: seq<Token>, b: seq<Token>)
    requires Tokens(a) && Tokens(b)
    ensures Tokens(a + b)
  {}
}
