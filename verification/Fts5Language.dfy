/** The parser and the grammar: the expressions accepted are exactly the sentences
    of the 28 rules, and the tree built is the one the precedences single out. */
module Fts5Language {
  import opened Fts5Tables
  import opened Fts5Grammar
  import opened Fts5Automaton
  import opened Fts5Machine
  import opened Fts5Driver
  import opened Fts5Complete

  // Tokens a caller can hand over before the end of input.
  predicate Expression(toks: seq<Token>) { forall k | 0 <= k < |toks| :: 0 < toks[k].kind < YYNTOKEN }

  lemma InputHosted(t: Tree)
    requires Valid(t) && Resolved(t) && Root(t) == INPUT
    ensures t.Node? && Hosts([], t, EOF) && Grown([], t) == [Entry(YY_ACCEPT_ACTION, t)]
  {}

  lemma AcceptsInput(end: nat, t: Tree)
    requires end > 0 && Ready([Entry(YY_ACCEPT_ACTION, t)], EOF)
    ensures Feed(end, [Entry(YY_ACCEPT_ACTION, t)], [END]) == Accepted(t)
  {
    hide Act, Goto, Step;
    AcceptIsFinal(EOF);
  }

  lemma FirstLevel(toks: seq<Token>, t: Tree)
    requires Valid(t) && Root(t) == INPUT
    ensures TokenLevel((Yield(t) + [END])[0].kind) <= 4
  {}

  // Completeness: a tree that respects the precedences is rebuilt from its tokens if
  // it fits the stack, and overflows the stack otherwise.
  lemma ParseComplete(end: nat, t: Tree)
    requires Valid(t) && Resolved(t) && Root(t) == INPUT
    ensures Expression(Yield(t)) && Tokens(Yield(t))
    ensures Parse(end, Yield(t)) == if Need(t) <= end then Accepted(t) else Overflow
  {
    hide Valid, Resolved, Root, Hosts, Feed, Step, TokenLevel, Ready;
    YieldTokens(t);
    InputHosted(t);
    FirstLevel(Yield(t), t);
    assert Viable([]);
    Read(end, [], t, [END]);
    if Need(t) <= end { AcceptsInput(end, t); }
  }

  // The parser accepts with tree t exactly when t is a derivation of the tokens that
  // respects the precedences and fits the stack.
  lemma AcceptsExactly(end: nat, toks: seq<Token>, t: Tree)
    requires Expression(toks)
    ensures Parse(end, toks) == Accepted(t) <==>
      Valid(t) && Resolved(t) && Root(t) == INPUT && Yield(t) == toks && Need(t) <= end
  {
    hide Valid, Resolved, Root, Parse, Yield;
    if Valid(t) && Resolved(t) && Root(t) == INPUT && Yield(t) == toks {
      ParseComplete(end, t);
    }
    if Parse(end, toks).Accepted? {
      ParseSound(end, toks);
      ParseComplete(end, Parse(end, toks).tree);
    }
  }

  // The precedences leave no ambiguity.
  lemma Unambiguous(t: Tree, u: Tree)
    requires Valid(t) && Resolved(t) && Root(t) == INPUT
    requires Valid(u) && Resolved(u) && Root(u) == INPUT
    requires Yield(t) == Yield(u)
    ensures t == u
  {
    hide Valid, Resolved, Root, Parse, Yield;
    ParseComplete(Need(t) + Need(u), t);
    ParseComplete(Need(t) + Need(u), u);
  }

  // ----- Every derivation can be regrouped by precedence ------------------------------

  function Min(a: int, b: int): int { if a < b then a else b }

  predicate Operand(t: Tree) { Valid(t) && Resolved(t) && Root(t) == EXPR }

  predicate Operator(t: Tree) { t.Leaf? && TokenLevel(t.tok.kind) > 0 }

  // The rule that joins two expressions by an operator.
  function OpRule(kind: int): int { if kind == OR then 8 else if kind == AND then 7 else 9 }

  function Binary(l: Tree, op: Tree, r: Tree): Tree
    requires op.Leaf?
  {
    Node(OpRule(op.tok.kind), [l, op, r])
  }

  // l op r grouped by precedence, to the left among equals.
  function Join(l: Tree, op: Tree, r: Tree): Tree
    requires Operand(l) && Operator(op) && Operand(r)
    decreases l, r
  {
    hide *;
    LevelBounds(l, op, r);
    if Level(r) <= TokenLevel(op.tok.kind) && Level(r) <= Level(l) then
      BinaryParts(r);
      Binary(Join(l, op, r.kids[0]), r.kids[1], r.kids[2])
    else if TokenLevel(op.tok.kind) <= Level(l) then
      Binary(l, op, r)
    else
      BinaryParts(l);
      Binary(l.kids[0], l.kids[1], Join(l.kids[2], op, r))
  }

  lemma LevelBounds(l: Tree, op: Tree, r: Tree)
    requires Operator(op)
    ensures op.Leaf? && 0 < TokenLevel(op.tok.kind) < 4 && Level(l) <= 4 && Level(r) <= 4
  {}

  lemma BinaryIs(l: Tree, op: Tree, r: Tree)
    requires Operand(l) && Operator(op) && Operand(r)
    requires TokenLevel(op.tok.kind) <= Level(l) && TokenLevel(op.tok.kind) < Level(r)
    ensures Operand(Binary(l, op, r)) && Level(Binary(l, op, r)) == TokenLevel(op.tok.kind)
    ensures Yield(Binary(l, op, r)) == Yield(l) + Yield(op) + Yield(r)
  {
    YieldThree(Binary(l, op, r));
  }

  lemma {:induction false} JoinIs(l: Tree, op: Tree, r: Tree)
    requires Operand(l) && Operator(op) && Operand(r)
    ensures Operand(Join(l, op, r))
    ensures Level(Join(l, op, r)) == Min(Min(Level(l), TokenLevel(op.tok.kind)), Level(r))
    ensures Yield(Join(l, op, r)) == Yield(l) + Yield(op) + Yield(r)
    decreases l, r
  {
    hide Operand, Operator, TokenLevel, Level, Binary, OpRule, Yield;
    LevelBounds(l, op, r);
    if Level(r) <= TokenLevel(op.tok.kind) && Level(r) <= Level(l) {
      BinaryParts(r);
      JoinIs(l, op, r.kids[0]);
      BinaryIs(Join(l, op, r.kids[0]), r.kids[1], r.kids[2]);
      BinaryIs(r.kids[0], r.kids[1], r.kids[2]);
    } else if TokenLevel(op.tok.kind) <= Level(l) {
      BinaryIs(l, op, r);
    } else {
      BinaryParts(l);
      JoinIs(l.kids[2], op, r);
      BinaryIs(l.kids[0], l.kids[1], Join(l.kids[2], op, r));
      BinaryIs(l.kids[0], l.kids[1], l.kids[2]);
    }
  }

  // A binary expression and its operands.
  lemma BinaryParts(t: Tree)
    requires Operand(t) && Level(t) < 4
    ensures t.Node? && t.rule in {7, 8, 9} && |t.kids| == 3
    ensures Operand(t.kids[0]) && Operator(t.kids[1]) && Operand(t.kids[2])
    ensures t == Binary(t.kids[0], t.kids[1], t.kids[2]) && Level(t) == TokenLevel(t.kids[1].tok.kind)
    ensures Level(t) <= Level(t.kids[0]) && Level(t) < Level(t.kids[2])
    ensures t.kids[0] < t && t.kids[2] < t
  {
    OperatorRules(t.rule);
    assert Valid(t.kids[0]) && Valid(t.kids[1]) && Valid(t.kids[2]);
    SymbolOf(t.kids[1]);
    assert t.kids == [t.kids[0], t.kids[1], t.kids[2]];
  }

  lemma YieldThree(t: Tree)
    requires t.Node? && |t.kids| == 3
    ensures Yield(t) == Yield(t.kids[0]) + Yield(t.kids[1]) + Yield(t.kids[2])
  {
    var ks := t.kids;
    assert ks[1..][1..] == [ks[2]];
    YieldsOne(ks[2]);
    assert Yields(ks[1..]) == Yield(ks[1]) + Yields([ks[2]]);
  }

  // Trees that stand for the same symbols and spell the same tokens, regrouped.
  predicate Regrouped(ts: seq<Tree>, us: seq<Tree>) {
    && |us| == |ts| && Yields(us) == Yields(ts)
    && forall i | 0 <= i < |ts| :: Valid(us[i]) && Resolved(us[i]) && Root(us[i]) == Root(ts[i])
  }

  lemma {:induction false} RegroupAll(ts: seq<Tree>) returns (us: seq<Tree>)
    requires forall i | 0 <= i < |ts| :: Valid(ts[i])
    ensures Regrouped(ts, us)
    decreases ts, 0
  {
    hide Root, Resolved;
    us := [];
    if ts != [] {
      var u := Regroup(ts[0]);
      var rest := RegroupAll(ts[1..]);
      us := [u] + rest;
      assert us[1..] == rest;
    }
  }

  // Any derivation can be regrouped by precedence without changing its tokens.
  lemma {:induction false} Regroup(t: Tree) returns (u: Tree)
    requires Valid(t)
    ensures Valid(u) && Resolved(u) && Root(u) == Root(t) && Yield(u) == Yield(t)
    decreases t, 1
  {
    hide Rhs, Yields;
    u := t;
    if t.Node? {
      var kids := RegroupAll(t.kids);
      u := Node(t.rule, kids);
      if RuleLevel(t.rule) < 4 {
        OperatorRules(t.rule);
        SymbolOf(kids[1]);
        OperatorLevel(t.rule, kids[1]);
        u := Join(kids[0], kids[1], kids[2]);
        JoinIs(kids[0], kids[1], kids[2]);
        YieldThree(Node(t.rule, kids));
      }
    }
  }

  lemma OperatorLevel(r: int, op: Tree)
    requires RuleLevel(r) < 4 && Root(op) == Rhs(r)[1] && op.Leaf?
    ensures Operator(op)
  {}

  // ----- The language -----------------------------------------------------------------

  ghost predicate Sentence(toks: seq<Token>) {
    exists t :: Valid(t) && Root(t) == INPUT && Yield(t) == toks
  }

  // An expression is accepted by a deep enough stack exactly when the rules derive
  // it; a syntax error means that no derivation exists, at any depth.
  lemma AcceptsLanguage(toks: seq<Token>)
    requires Expression(toks)
    ensures Sentence(toks) <==> exists end: nat :: Parse(end, toks).Accepted?
    ensures forall end: nat :: Parse(end, toks).SyntaxError? ==> !Sentence(toks)
  {
    hide Valid, Resolved, Root, Parse, Yield;
    if Sentence(toks) {
      var t :| Valid(t) && Root(t) == INPUT && Yield(t) == toks;
      var u := Regroup(t);
      forall end: nat
        ensures Parse(end, toks) == if Need(u) <= end then Accepted(u) else Overflow
      {
        ParseComplete(end, u);
      }
      assert Parse(Need(u), toks).Accepted?;
    }
    forall end: nat | Parse(end, toks).Accepted? ensures Sentence(toks) {
      ParseSound(end, toks);
    }
  }

  // A deeper stack changes no accepted parse.
  lemma DeeperStack(end: nat, deeper: nat, toks: seq<Token>)
    requires Expression(toks) && end <= deeper && Parse(end, toks).Accepted?
    ensures Parse(deeper, toks) == Parse(end, toks)
  {
    hide Valid, Resolved, Root, Parse, Yield;
    AcceptsExactly(end, toks, Parse(end, toks).tree);
    AcceptsExactly(deeper, toks, Parse(end, toks).tree);
  }

  // ----- Operator chains ----------------------------------------------------------------

  // What stands at place i of a chain.
  predicate Placed(i: int, t: Tree) { if i % 2 == 0 then Operand(t) && Level(t) == 4 else Operator(t) }

  // Operands x0, x1, ... with an operator between each two, none of them grouped.
  predicate Chain(c: seq<Tree>) {
    && |c| % 2 == 1
    && forall i | 0 <= i < |c| :: Placed(i, c[i])
  }

  // The last operator of the weakest kind in the chain.
  predicate Weakest(c: seq<Tree>, k: nat) {
    && k < |c| && k % 2 == 1 && Operator(c[k])
    && (forall j | 0 <= j < k && j % 2 == 1 :: c[j].Leaf? && TokenLevel(c[k].tok.kind) <= TokenLevel(c[j].tok.kind))
    && (forall j | k < j < |c| && j % 2 == 1 :: c[j].Leaf? && TokenLevel(c[k].tok.kind) < TokenLevel(c[j].tok.kind))
  }

  lemma {:induction false} FindWeakest(c: seq<Tree>) returns (k: nat)
    requires Chain(c) && |c| >= 3
    ensures Weakest(c, k)
  {
    hide Operand, Level, TokenLevel;
    var n := |c| - 2;
    assert Placed(n, c[n]);
    if n == 1 {
      k := 1;
    } else {
      var d := c[..n];
      k := FindWeakest(d);
      forall j | 0 <= j < |c| && j % 2 == 1
        ensures Operator(c[j]) && (j < n ==> c[j] == d[j])
      {
        assert Placed(j, c[j]);
      }
      if TokenLevel(c[n].tok.kind) <= TokenLevel(c[k].tok.kind) { k := n; }
    }
  }

  // Tree t groups chain c: the last weakest operator is applied last, and each side
  // is grouped the same way.
  ghost predicate Groups(c: seq<Tree>, t: Tree)
    decreases |c|
  {
    if |c| <= 1 then c == [t]
    else t.Node? && |t.kids| == 3 && exists k: nat ::
      && Weakest(c, k) && t == Binary(t.kids[0], c[k], t.kids[2])
      && Groups(c[..k], t.kids[0]) && Groups(c[k + 1..], t.kids[2])
  }

  lemma PlacedShift(k: nat, i: nat, t: Tree)
    requires k % 2 == 1
    ensures Placed(k + 1 + i, t) <==> Placed(i, t)
    ensures (k + 1 + i) % 2 == i % 2
  {}

  lemma ChainParts(c: seq<Tree>, k: nat)
    requires Chain(c) && Weakest(c, k)
    ensures Chain(c[..k]) && Chain(c[k + 1..])
    ensures Yields(c) == Yields(c[..k]) + Yield(c[k]) + Yields(c[k + 1..])
  {
    hide Placed, Weakest, Yields;
    WeakestOdd(c, k);
    var after := c[k + 1..];
    forall i: nat | i < |after| ensures Placed(i, after[i]) {
      PlacedShift(k, i, after[i]);
      assert Placed(k + 1 + i, c[k + 1 + i]);
    }
    assert |after| == |c| - (k + 1);
    ChainYields(c, k);
  }

  lemma ChainYields(c: seq<Tree>, k: nat)
    requires k < |c|
    ensures Yields(c) == Yields(c[..k]) + Yield(c[k]) + Yields(c[k + 1..])
  {
    hide Yields, Yield;
    SplitAt(c, k);
    YieldsConcat(c[..k + 1], c[k + 1..]);
    YieldsConcat(c[..k], [c[k]]);
    YieldsOne(c[k]);
  }

  lemma SplitAt(c: seq<Tree>, k: nat)
    requires k < |c|
    ensures c == c[..k + 1] + c[k + 1..] && c[..k + 1] == c[..k] + [c[k]]
  {}

  lemma WeakestOdd(c: seq<Tree>, k: nat)
    requires Weakest(c, k)
    ensures k < |c| && k % 2 == 1 && Operator(c[k]) && c[k].Leaf?
  {}

  lemma {:induction false} GroupChain(c: seq<Tree>, m: int) returns (t: Tree)
    requires Chain(c) && m <= 4
    requires forall j | 0 <= j < |c| && j % 2 == 1 :: c[j].Leaf? && m <= TokenLevel(c[j].tok.kind)
    ensures Operand(t) && Yield(t) == Yields(c) && Groups(c, t) && m <= Level(t)
    decreases |c|
  {
    hide Operand, Level, TokenLevel, Yields, Chain, Weakest;
    if |c| == 1 {
      t := c[0];
      SingleChain(c);
    } else {
      assert |c| >= 3 by { ChainOdd(c); }
      var k := FindWeakest(c);
      WeakestOdd(c, k);
      ChainParts(c, k);
      WeakestBounds(c, k);
      LevelBounds(c[k], c[k], c[k]);
      var l := GroupChain(c[..k], TokenLevel(c[k].tok.kind));
      var r := GroupChain(c[k + 1..], TokenLevel(c[k].tok.kind) + 1);
      t := Binary(l, c[k], r);
      BinaryIs(l, c[k], r);
    }
  }

  lemma WeakestBounds(c: seq<Tree>, k: nat)
    requires Weakest(c, k)
    ensures forall j | 0 <= j < |c[..k]| && j % 2 == 1 ::
      c[..k][j].Leaf? && TokenLevel(c[k].tok.kind) <= TokenLevel(c[..k][j].tok.kind)
    ensures forall j | 0 <= j < |c[k + 1..]| && j % 2 == 1 ::
      c[k + 1..][j].Leaf? && TokenLevel(c[k].tok.kind) + 1 <= TokenLevel(c[k + 1..][j].tok.kind)
  {
    hide TokenLevel;
    var after := c[k + 1..];
    forall j: nat | j < |after| && j % 2 == 1
      ensures after[j].Leaf? && TokenLevel(c[k].tok.kind) + 1 <= TokenLevel(after[j].tok.kind)
    {
      PlacedShift(k, j, after[j]);
      assert after[j] == c[k + 1 + j];
    }
  }

  lemma ChainOdd(c: seq<Tree>)
    requires Chain(c)
    ensures |c| % 2 == 1
  {}

  lemma SingleChain(c: seq<Tree>)
    requires Chain(c) && |c| == 1
    ensures Operand(c[0]) && Level(c[0]) == 4 && Yields(c) == Yield(c[0])
  {
    assert c == [c[0]];
    YieldsOne(c[0]);
  }

  lemma InputOf(t: Tree)
    requires Operand(t)
    ensures Valid(Node(0, [t])) && Resolved(Node(0, [t])) && Root(Node(0, [t])) == INPUT
    ensures Yield(Node(0, [t])) == Yield(t)
  {
    YieldsOne(t);
  }

  // An unparenthesised chain of operators is never a syntax error, and is grouped by
  // precedence, left to right.
  lemma ParseChain(end: nat, c: seq<Tree>)
    requires Chain(c)
    ensures Expression(Yields(c)) && Tokens(Yields(c))
    ensures exists t :: (
      && Groups(c, t) && Operand(t)
      && Parse(end, Yields(c)) == if Need(Node(0, [t])) <= end then Accepted(Node(0, [t])) else Overflow)
  {
    hide Parse, Operand, Yields, Level, Groups, Chain;
    OperatorLevels(c);
    var t := GroupChain(c, 0);
    InputOf(t);
    ParseComplete(end, Node(0, [t]));
  }

  lemma OperatorLevels(c: seq<Tree>)
    requires Chain(c)
    ensures forall j | 0 <= j < |c| && j % 2 == 1 :: c[j].Leaf? && 0 <= TokenLevel(c[j].tok.kind)
  {
    forall j | 0 <= j < |c| && j % 2 == 1 ensures Operator(c[j]) { assert Placed(j, c[j]); }
  }
}
