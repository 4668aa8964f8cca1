/** The FTS5 query grammar: parse trees over its 28 rules, the tokens a tree
    spells, and which trees respect the operator precedences. */
module Fts5Grammar {
  import opened Fts5Tables

  // A token code with its text; the text rides along untouched.
  datatype Token = Token(kind: int, text: string)

  datatype Tree = Leaf(tok: Token) | Node(rule: int, kids: seq<Tree>)

  // The grammar symbol a tree stands for.
  function Root(t: Tree): int {
    match t
    case Leaf(tok) => tok.kind
    case Node(r, _) => Lhs(r)
  }

  // Every node applies one rule to children that match its right-hand side.
  predicate Valid(t: Tree) {
    match t
    case Leaf(tok) => 0 < tok.kind < YYNTOKEN
    case Node(r, kids) =>
      && 0 <= r < YYNRULE
      && |kids| == |Rhs(r)|
      && forall i | 0 <= i < |kids| :: Valid(kids[i]) && Root(kids[i]) == Rhs(r)[i]
  }

  // The tokens of a tree, left to right.
  function Yield(t: Tree): seq<Token> {
    match t
    case Leaf(tok) => [tok]
    case Node(_, kids) => Yields(kids)
  }

  function Yields(ts: seq<Tree>): seq<Token> {
    if ts == [] then [] else Yield(ts[0]) + Yields(ts[1..])
  }

  // ----- Precedence: NOT over AND over OR, each to the left -----------------------

  function RuleLevel(r: int): int {
    match r
    case 8 => 1
    case 7 => 2
    case 9 => 3
    case _ => 4
  }

  function Level(t: Tree): int { if t.Node? then RuleLevel(t.rule) else 4 }

  function TokenLevel(kind: int): int {
    if kind == OR then 1 else if kind == AND then 2 else if kind == NOT then 3 else 0
  }

  // A left operand binds at least as tightly as its operator, a right operand more.
  predicate Resolved(t: Tree) {
    match t
    case Leaf(_) => true
    case Node(r, kids) =>
      && (forall i | 0 <= i < |kids| :: Resolved(kids[i]))
      && (RuleLevel(r) < 4 && |kids| == 3 ==> RuleLevel(r) <= Level(kids[0]) && RuleLevel(r) < Level(kids[2]))
  }

  // ----- Yields ---------------------------------------------------------------------

  lemma {:induction false} YieldsConcat(a: seq<Tree>, b: seq<Tree>)
    ensures Yields(a + b) == Yields(a) + Yields(b)
  {
    hide Yield;
    if a == [] {
      assert a + b == b;
    } else {
      YieldsConcat(a[1..], b);
      assert (a + b)[1..] == a[1..] + b && (a + b)[0] == a[0];
      assert Yields(a + b) == Yield(a[0]) + Yields(a[1..] + b);
    }
  }

  lemma YieldsOne(t: Tree)
    ensures Yields([t]) == Yield(t)
  {}
}
