/** The parser as a machine over a stack of (state, tree) entries.  Process is one
    call of sqlite3Fts5Parser: it reduces until the token can be shifted, the
    input is accepted, or an error shows. */
module Fts5Machine {
  import opened Fts5Tables
  import opened Fts5Grammar
  import opened Fts5Automaton

  // The entry's major symbol is Root(tree).  The bottom entry, state 0, is left out.
  datatype Entry = Entry(state: int, tree: Tree)

  datatype Outcome =
    | Shifted(stack: seq<Entry>)
    | Accepted(tree: Tree)
    | SyntaxError(rest: seq<Entry>)
    | Overflow

  function Top(st: seq<Entry>): int { if st == [] then 0 else st[|st| - 1].state }

  function TopLevel(st: seq<Entry>): int { if st == [] then 4 else Level(st[|st| - 1].tree) }

  function Trees(st: seq<Entry>): seq<Tree> { seq(|st|, k requires 0 <= k < |st| => st[k].tree) }

  // ----- Stacks the parser can build ------------------------------------------------

  // Every entry is where the table says it is, over a derivation.
  predicate Joined(below: seq<Entry>, e: Entry) {
    e.state == Step(Top(below), Root(e.tree)) != -1 && Valid(e.tree)
  }

  predicate Built(st: seq<Entry>) {
    st == [] || (Built(st[..|st| - 1]) && Joined(st[..|st| - 1], st[|st| - 1]))
  }

  // A stack that a call on token la can find, also after a syntax error.
  predicate Meets(st: seq<Entry>, la: int) {
    Built(st) && 0 <= la < YYNTOKEN && (Top(st) == YY_ACCEPT_ACTION ==> la == EOF)
  }

  // While there has been no error, operators are grouped by precedence as well:
  // entry e may stand on the stack below.
  predicate Linked(below: seq<Entry>, e: Entry) {
    && Joined(below, e) && Resolved(e.tree)
    && match e.tree
       case Leaf(tok) => TokenLevel(tok.kind) <= TopLevel(below)
       case Node(r, _) => Starts(Top(below), r)
  }

  predicate Viable(st: seq<Entry>) {
    st == [] || (Viable(st[..|st| - 1]) && Linked(st[..|st| - 1], st[|st| - 1]))
  }

  // ... and token la binds no tighter than the top.
  predicate Ready(st: seq<Entry>, la: int) {
    Viable(st) && Meets(st, la) && TokenLevel(la) <= TopLevel(st)
  }

  lemma {:induction false} ViableBuilt(st: seq<Entry>)
    requires Viable(st)
    ensures Built(st)
  {
    hide Joined, Resolved;
    if st != [] { ViableBuilt(st[..|st| - 1]); }
  }

  lemma ReadyMeets(st: seq<Entry>, la: int)
    requires Ready(st, la)
    ensures Meets(st, la) && Viable(st)
  {}

  lemma StepStates(s: int, x: int)
    requires Step(s, x) != -1
    ensures Step(s, x) == YY_ACCEPT_ACTION || (State(Step(s, x)) && Step(s, x) != 0)
    ensures Step(s, x) == YY_ACCEPT_ACTION ==> s == 0 && x == INPUT
  {}

  lemma StartState()
    ensures State(0)
  {}

  lemma TopStates(st: seq<Entry>)
    requires Built(st)
    ensures Top(st) == YY_ACCEPT_ACTION || State(Top(st))
    ensures Top(st) == 0 ==> st == []
    ensures Top(st) == YY_ACCEPT_ACTION ==> |st| == 1 && Root(st[0].tree) == INPUT
  {
    hide Step, State, Goto, Act;
    if st == [] {
      assert State(0) by { StartState(); }
    } else {
      var below, e := st[..|st| - 1], st[|st| - 1];
      StepStates(Top(below), Root(e.tree));
      if below != [] {
        StepStates(Top(below[..|below| - 1]), Root(below[|below| - 1].tree));
      }
    }
  }

  // ----- One reduction ----------------------------------------------------------------

  lemma NoItemAtStart(r: int, i: int)
    ensures !Item(0, r, i)
  {}

  // A state inside rule r sits on the symbols of r read so far.
  lemma {:induction false} Handle(st: seq<Entry>, r: int, i: nat)
    requires Built(st) && InRule(Top(st), r, i) && i <= |Rhs(r)|
    ensures i <= |st|
    ensures forall j | 0 <= j < i :: Root(st[|st| - i + j].tree) == Rhs(r)[j]
    ensures Built(st[..|st| - i]) && Starts(Top(st[..|st| - i]), r)
  {
    hide Step, Act, Goto, Rhs, Starts, RuleLevel, Item, Valid;
    if i == 0 {
      assert st[..|st|] == st;
    } else {
      NoItemAtStart(r, i);
      assert st != [];
      var below, e := st[..|st| - 1], st[|st| - 1];
      StepBack(Top(below), Root(e.tree), r, i);
      Handle(below, r, i - 1);
      assert below[..|below| - (i - 1)] == st[..|st| - i];
      forall j | 0 <= j < i ensures Root(st[|st| - i + j].tree) == Rhs(r)[j] {
        if j < i - 1 { assert below[|below| - (i - 1) + j] == st[|st| - i + j]; }
      }
    }
  }

  function Reduced(st: seq<Entry>, r: int): seq<Entry>
    requires |Rhs(r)| <= |st|
  {
    var n := |st| - |Rhs(r)|;
    st[..n] + [Entry(Goto(Top(st[..n]), Lhs(r)), Node(r, Trees(st[n..])))]
  }

  lemma ReducedSize(st: seq<Entry>, r: int)
    requires |Rhs(r)| <= |st|
    ensures |Reduced(st, r)| == |st| - |Rhs(r)| + 1
  {}

  lemma {:induction false} JoinedAt(st: seq<Entry>, k: nat)
    requires Built(st) && k < |st|
    ensures Built(st[..k]) && Joined(st[..k], st[k])
  {
    hide Joined;
    if k < |st| - 1 {
      JoinedAt(st[..|st| - 1], k);
      assert st[..|st| - 1][..k] == st[..k];
    }
  }

  lemma {:induction false} LinkedAt(st: seq<Entry>, k: nat)
    requires Viable(st) && k < |st|
    ensures Viable(st[..k]) && Linked(st[..k], st[k])
  {
    hide Linked;
    if k < |st| - 1 {
      LinkedAt(st[..|st| - 1], k);
      assert st[..|st| - 1][..k] == st[..k];
    }
  }

  lemma OperatorStates(s: int)
    ensures Step(s, OR) in {-1, 4} && Step(s, AND) in {-1, 5} && Step(s, NOT) in {-1, 3}
  {}

  lemma SymbolOf(t: Tree)
    requires Valid(t)
    ensures t.Leaf? <==> Root(t) < YYNTOKEN
    ensures t.Node? ==> INPUT <= Root(t) <= STAR_OPT
  {}

  lemma OperatorRules(r: int)
    requires RuleLevel(r) < 4
    ensures r in {7, 8, 9} && |Rhs(r)| == 3
    ensures r == 7 ==> Rhs(r) == [EXPR, AND, EXPR]
    ensures r == 8 ==> Rhs(r) == [EXPR, OR, EXPR]
    ensures r == 9 ==> Rhs(r) == [EXPR, NOT, EXPR]
  {}

  // The operands under a complete operator rule respect its level.
  lemma OperandLevels(st: seq<Entry>, r: int)
    requires Viable(st) && RuleLevel(r) < 4 && |st| >= 3
    requires forall j | 0 <= j < |Rhs(r)| :: |Rhs(r)| <= |st| && Root(st[|st| - |Rhs(r)| + j].tree) == Rhs(r)[j]
    ensures RuleLevel(r) <= Level(st[|st| - 3].tree) && RuleLevel(r) < Level(st[|st| - 1].tree)
  {
    hide Step, Goto, Rhs;
    OperatorRules(r);
    var n := |st| - 3;
    LinkedAt(st, n + 1);
    LinkedAt(st, n + 2);
    assert Root(st[n + 1].tree) == Rhs(r)[1] && Root(st[n + 2].tree) == Rhs(r)[2];
    SymbolOf(st[n + 1].tree);
    SymbolOf(st[n + 2].tree);
    OperatorStates(Top(st[..n + 1]));
    assert Top(st[..n + 2]) == st[n + 1].state;
    assert TopLevel(st[..n + 1]) == Level(st[n].tree);
  }

  lemma AcceptIsFinal(la: int)
    ensures Act(YY_ACCEPT_ACTION, la) == YY_ACCEPT_ACTION
  {}

  // What the table asks to reduce is on the stack, and the goto is defined.
  lemma ReducePossible(st: seq<Entry>, la: int)
    requires Meets(st, la) && Act(Top(st), la) >= YY_MIN_REDUCE
    ensures var r := Act(Top(st), la) - YY_MIN_REDUCE;
      && State(Top(st)) && 0 <= r < YYNRULE && |Rhs(r)| <= |st|
      && (forall j | 0 <= j < |Rhs(r)| :: Root(st[|st| - |Rhs(r)| + j].tree) == Rhs(r)[j])
      && Built(st[..|st| - |Rhs(r)|]) && Starts(Top(st[..|st| - |Rhs(r)|]), r)
      && TokenLevel(la) <= RuleLevel(r)
  {
    hide Step, Goto, Rhs, Act, Item, RuleLevel, TokenLevel, InRule, State, Starts;
    TopStates(st);
    AcceptIsFinal(la);
    ReduceBack(Top(st), la);
    Handle(st, Act(Top(st), la) - YY_MIN_REDUCE, |Rhs(Act(Top(st), la) - YY_MIN_REDUCE)|);
  }

  lemma MakeNode(r: int, kids: seq<Tree>)
    requires 0 <= r < YYNRULE && |kids| == |Rhs(r)|
    requires forall j | 0 <= j < |kids| :: Valid(kids[j]) && Resolved(kids[j]) && Root(kids[j]) == Rhs(r)[j]
    requires RuleLevel(r) < 4 && |kids| == 3 ==> RuleLevel(r) <= Level(kids[0]) && RuleLevel(r) < Level(kids[2])
    ensures Valid(Node(r, kids)) && Resolved(Node(r, kids))
  {
    hide Rhs, RuleLevel, Level, Root;
  }

  lemma TreeAt(st: seq<Entry>, n: nat, j: nat)
    requires Viable(st) && n + j < |st|
    ensures var kids := Trees(st[n..]);
      |kids| == |st| - n && kids[j] == st[n + j].tree && Valid(kids[j]) && Resolved(kids[j])
  {
    hide Step, Linked, Viable, Valid, Resolved;
    LinkedAt(st, n + j);
    LinkedParts(st[..n + j], st[n + j]);
  }

  lemma NewNode(st: seq<Entry>, r: int)
    requires Viable(st) && 0 <= r < YYNRULE && |Rhs(r)| <= |st|
    requires forall j | 0 <= j < |Rhs(r)| :: Root(st[|st| - |Rhs(r)| + j].tree) == Rhs(r)[j]
    ensures var t := Node(r, Trees(st[|st| - |Rhs(r)|..])); Valid(t) && Resolved(t)
  {
    hide Step, Goto, Rhs, Act, RuleLevel, Linked, Viable, Level, Valid, Resolved, Root;
    var kids := Trees(st[|st| - |Rhs(r)|..]);
    forall j | 0 <= j < |kids| ensures Valid(kids[j]) && Resolved(kids[j]) && Root(kids[j]) == Rhs(r)[j] {
      TreeAt(st, |st| - |Rhs(r)|, j);
    }
    if RuleLevel(r) < 4 {
      OperatorRules(r);
      OperandLevels(st, r);
    }
    MakeNode(r, kids);
  }

  lemma LinkedParts(below: seq<Entry>, e: Entry)
    requires Linked(below, e)
    ensures Valid(e.tree) && Resolved(e.tree) && e.state == Step(Top(below), Root(e.tree))
  {}

  lemma StartsSymbol(s: int, r: int)
    requires Starts(s, r) && 0 <= r < YYNRULE
    ensures Step(s, Lhs(r)) == Goto(s, Lhs(r)) != -1
    ensures Goto(s, Lhs(r)) == YY_ACCEPT_ACTION ==> r == 0
  {}

  lemma AcceptLookahead(s: int, la: int)
    requires State(s) && Act(s, la) == YY_MIN_REDUCE
    ensures la == EOF
  {}

  lemma ReducedMeets(st: seq<Entry>, la: int)
    requires Meets(st, la) && Act(Top(st), la) >= YY_MIN_REDUCE
    ensures var r := Act(Top(st), la) - YY_MIN_REDUCE;
      && 0 <= r < YYNRULE && |Rhs(r)| <= |st| && Meets(Reduced(st, r), la)
  {
    hide Step, Goto, Rhs, Act, Item, RuleLevel, TokenLevel, InRule, State, Starts, Valid, Trees, Lhs;
    ReducePossible(st, la);
    var r := Act(Top(st), la) - YY_MIN_REDUCE;
    var below := st[..|st| - |Rhs(r)|];
    NewValid(st, r);
    StartsSymbol(Top(below), r);
    if r == 0 { AcceptLookahead(Top(st), la); }
    var next := Reduced(st, r);
    assert next[..|next| - 1] == below;
    assert Joined(below, next[|next| - 1]);
  }

  lemma ReducedReady(st: seq<Entry>, la: int)
    requires Ready(st, la) && Act(Top(st), la) >= YY_MIN_REDUCE
    ensures var r := Act(Top(st), la) - YY_MIN_REDUCE;
      && 0 <= r < YYNRULE && |Rhs(r)| <= |st| && Ready(Reduced(st, r), la)
  {
    hide Step, Goto, Rhs, Act, Item, RuleLevel, TokenLevel, InRule, State, Starts, Valid, Resolved, Trees, Lhs,
        Joined, Built;
    ReducePossible(st, la);
    ReducedMeets(st, la);
    var r := Act(Top(st), la) - YY_MIN_REDUCE;
    var below := st[..|st| - |Rhs(r)|];
    BelowViable(st, |below|);
    NewNode(st, r);
    var next := Reduced(st, r);
    assert next[..|next| - 1] == below;
    LastJoined(next);
    assert Linked(below, next[|next| - 1]);
  }

  lemma BelowViable(st: seq<Entry>, n: nat)
    requires Viable(st) && n <= |st|
    ensures Viable(st[..n])
  {
    if n < |st| { LinkedAt(st, n); } else { assert st[..n] == st; }
  }

  lemma LastJoined(st: seq<Entry>)
    requires Built(st) && st != []
    ensures Joined(st[..|st| - 1], st[|st| - 1])
  {}

  // The new node is a derivation.
  lemma NewValid(st: seq<Entry>, r: int)
    requires Built(st) && 0 <= r < YYNRULE && |Rhs(r)| <= |st|
    requires forall j | 0 <= j < |Rhs(r)| :: Root(st[|st| - |Rhs(r)| + j].tree) == Rhs(r)[j]
    ensures Valid(Node(r, Trees(st[|st| - |Rhs(r)|..])))
  {
    hide Step, Goto, Rhs, Act, Joined, Built, Root;
    var n := |st| - |Rhs(r)|;
    var kids := Trees(st[n..]);
    forall j | 0 <= j < |kids| ensures Valid(kids[j]) && Root(kids[j]) == Rhs(r)[j] {
      assert kids[j] == st[n + j].tree;
      JoinedAt(st, n + j);
      JoinedParts(st[..n + j], st[n + j]);
    }
  }

  lemma JoinedParts(below: seq<Entry>, e: Entry)
    requires Joined(below, e)
    ensures Valid(e.tree) && e.state == Step(Top(below), Root(e.tree))
  {}

  // The measure that bounds the reductions of one call.
  function Fuel(st: seq<Entry>): nat { 10 * |st| + Rank(Top(st)) }

  lemma ReducedFuel(st: seq<Entry>, la: int)
    requires Meets(st, la) && Act(Top(st), la) >= YY_MIN_REDUCE
    ensures var r := Act(Top(st), la) - YY_MIN_REDUCE;
      |Rhs(r)| <= |st| && Fuel(Reduced(st, r)) < Fuel(st)
  {
    hide Step, Goto, Rhs, Act, Item, RuleLevel, TokenLevel, InRule, State, Valid, Resolved, Trees, Lhs, Rank;
    ReducePossible(st, la);
    var r := Act(Top(st), la) - YY_MIN_REDUCE;
    var below := st[..|st| - |Rhs(r)|];
    if Rhs(r) == [] {
      assert below == st;
    } else if |Rhs(r)| == 1 {
      JoinedAt(st, |st| - 1);
      JoinedParts(below, st[|st| - 1]);
    }
    RankDrops(Top(below), Top(st), la);
  }

  lemma ReducedYield(st: seq<Entry>, r: int)
    requires |Rhs(r)| <= |st|
    ensures Yields(Trees(Reduced(st, r))) == Yields(Trees(st))
  {
    hide Rhs, Goto, Lhs;
    var n := |st| - |Rhs(r)|;
    var t := Node(r, Trees(st[n..]));
    assert Trees(Reduced(st, r)) == Trees(st[..n]) + [t];
    YieldsConcat(Trees(st[..n]), [t]);
    YieldsOne(t);
    assert Trees(st) == Trees(st[..n]) + Trees(st[n..]);
    YieldsConcat(Trees(st[..n]), Trees(st[n..]));
  }
}
