/** Which token a syntax error names: the first one that no expression goes on with.
    Whatever has been shifted can still be completed, and whatever can be completed is
    shifted. */
module Fts5Errors {
  import opened Fts5Tables
  import opened Fts5Grammar
  import opened Fts5Automaton
  import opened Fts5Machine
  import opened Fts5Driver
  import opened Fts5Complete
  import opened Fts5Language

  // ----- Completing what is on the stack ------------------------------------------------

  // The short tree of a symbol.
  function Least(x: int): Tree
    decreases LeastRank(x)
  {
    match x
    case 16 => Node(0, [Least(EXPR)])
    case 17 => Node(12, [Least(EXPRLIST)])
    case 18 => Node(15, [Least(NEARSET)])
    case 19 => Node(13, [Least(CNEARSET)])
    case 20 => Node(3, [Leaf(Token(STRING, ""))])
    case 21 => Node(6, [Leaf(Token(STRING, ""))])
    case 22 => Node(17, [Least(PHRASE)])
    case 23 => Node(20, [Least(PHRASE)])
    case 24 => Node(25, [Leaf(Token(STRING, "")), Node(27, [])])
    case 25 => Node(22, [])
    case 26 => Node(27, [])
    case _ => Leaf(Token(x, ""))
  }

  function LeastRank(x: int): nat {
    match x
    case 16 => 6
    case 17 => 5
    case 19 => 4
    case 18 => 3
    case 22 | 23 => 2
    case 24 => 1
    case _ => 0
  }

  lemma {:induction false} LeastIs(x: int)
    requires 0 < x <= STAR_OPT
    ensures Valid(Least(x)) && Root(Least(x)) == x
    decreases LeastRank(x)
  {
    if x == INPUT {
      LeastIs(EXPR);
    } else if x == EXPR {
      LeastIs(EXPRLIST);
    } else if x == EXPRLIST {
      LeastIs(CNEARSET);
    } else if x == CNEARSET {
      LeastIs(NEARSET);
    } else if x == NEARSET || x == NEARPHRASES {
      LeastIs(PHRASE);
    }
  }

  function LeastRow(xs: seq<int>): seq<Tree> { seq(|xs|, k requires 0 <= k < |xs| => Least(xs[k])) }

  // The rule a state is taken to be in, and how much of it has been read.
  function ChosenRule(s: int): int {
    match s
    case 20 => 0
    case 17 | 23 | 24 => 1
    case 16 | 22 => 2
    case 11 => 3
    case 5 | 29 => 7
    case 4 | 21 => 8
    case 3 => 9
    case 2 | 7 | 19 | 28 => 10
    case 1 | 18 => 11
    case 6 => 12
    case 8 | 27 => 16
    case 26 => 17
    case 13 | 25 => 18
    case 9 | 10 | 12 | 34 => 19
    case 30 => 20
    case 33 => 21
    case 31 => 23
    case 15 | 32 => 24
    case 14 => 25
    case _ => s - YY_MIN_REDUCE
  }

  function ChosenRead(s: int): int {
    match s
    case 1 | 6 | 11 | 12 | 13 | 14 | 16 | 20 | 24 | 26 | 27 | 28 | 30 | 31 => 1
    case 3 | 4 | 5 | 7 | 8 | 10 | 17 | 18 | 22 | 25 | 32 | 33 => 2
    case 2 | 9 | 15 | 21 | 23 | 29 => 3
    case 19 | 34 => 4
    case _ => |Rhs(s - YY_MIN_REDUCE)|
  }

  // Completing a rule after its first symbol lowers this.
  function CompletionRank(s: int): (k: nat)
    ensures k <= 5
  {
    match s
    case 12 | 20 | 27 | 30 | 31 | 89 | 109 => 1
    case 1 | 6 | 14 | 28 => 2
    case 11 | 16 | 24 | 96 => 3
    case 98 => 4
    case 13 | 26 => 5
    case _ => 0
  }

  lemma ChosenIs(s: int)
    requires State(s) && s != 0
    ensures var r, i := ChosenRule(s), ChosenRead(s);
      0 <= r < YYNRULE && 0 < i <= |Rhs(r)| && Item(s, r, i)
  {}

  lemma ChosenDropsLow(b: int, s: int)
    requires State(s) && s != 0 && s < 14 && ChosenRead(s) == 1
    requires var r := ChosenRule(s); Rhs(r) != [] && Step(b, Rhs(r)[0]) == s && Goto(b, Lhs(r)) != -1
    ensures CompletionRank(Goto(b, Lhs(ChosenRule(s)))) < CompletionRank(s)
  {}

  lemma ChosenDropsHigh(b: int, s: int)
    requires State(s) && s >= 14 && ChosenRead(s) == 1
    requires var r := ChosenRule(s); Rhs(r) != [] && Step(b, Rhs(r)[0]) == s && Goto(b, Lhs(r)) != -1
    ensures CompletionRank(Goto(b, Lhs(ChosenRule(s)))) < CompletionRank(s)
  {}

  lemma ChosenDrops(b: int, s: int)
    requires State(s) && s != 0 && ChosenRead(s) == 1
    requires var r := ChosenRule(s); Rhs(r) != [] && Step(b, Rhs(r)[0]) == s && Goto(b, Lhs(r)) != -1
    ensures CompletionRank(Goto(b, Lhs(ChosenRule(s)))) < CompletionRank(s)
  {
    hide Step, Goto, Rhs, Lhs, ChosenRule, ChosenRead, CompletionRank, Pending;
    if s < 14 { ChosenDropsLow(b, s); } else { ChosenDropsHigh(b, s); }
  }

  // The rule with its missing symbols filled in.
  function Filled(st: seq<Entry>, r: int, i: nat): seq<Tree>
    requires i <= |st| && i <= |Rhs(r)|
  {
    Trees(st[|st| - i..]) + LeastRow(Rhs(r)[i..])
  }

  function Finished(st: seq<Entry>, r: int, i: nat): seq<Entry>
    requires i <= |st| && i <= |Rhs(r)|
  {
    var n := |st| - i;
    st[..n] + [Entry(Goto(Top(st[..n]), Lhs(r)), Node(r, Filled(st, r, i)))]
  }

  lemma FilledValid(st: seq<Entry>, r: int, i: nat)
    requires Built(st) && 0 <= r < YYNRULE && i <= |st| && i <= |Rhs(r)|
    requires forall j | 0 <= j < i :: Root(st[|st| - i + j].tree) == Rhs(r)[j]
    ensures Valid(Node(r, Filled(st, r, i)))
  {
    hide Step, Goto, Rhs, Joined, Built, Root, Least, Filled, Valid;
    var kids := Filled(st, r, i);
    RhsSymbols(r);
    FilledAt(st, r, i);
    forall j | 0 <= j < |kids| ensures Valid(kids[j]) && Root(kids[j]) == Rhs(r)[j] {
      if j < i {
        JoinedAt(st, |st| - i + j);
        JoinedParts(st[..|st| - i + j], st[|st| - i + j]);
      } else {
        LeastIs(Rhs(r)[j]);
      }
    }
    NodeValid(r, kids);
  }

  lemma FilledAt(st: seq<Entry>, r: int, i: nat)
    requires i <= |st| && i <= |Rhs(r)|
    ensures var kids := Filled(st, r, i);
      && |kids| == |Rhs(r)| && (forall j | 0 <= j < i :: kids[j] == st[|st| - i + j].tree)
      && forall j | i <= j < |kids| :: kids[j] == Least(Rhs(r)[j])
  {
    hide Rhs, Least;
  }

  lemma NodeValid(r: int, kids: seq<Tree>)
    requires 0 <= r < YYNRULE && |kids| == |Rhs(r)|
    requires forall j | 0 <= j < |kids| :: Valid(kids[j]) && Root(kids[j]) == Rhs(r)[j]
    ensures Valid(Node(r, kids))
  {
    hide Rhs, Root;
  }

  lemma RhsSymbols(r: int)
    ensures forall j | 0 <= j < |Rhs(r)| :: 0 < Rhs(r)[j] <= STAR_OPT
  {}

  lemma FinishedBuilt(st: seq<Entry>, r: int, i: nat)
    requires Built(st) && 0 <= r < YYNRULE && i <= |st| && i <= |Rhs(r)|
    requires forall j | 0 <= j < i :: Root(st[|st| - i + j].tree) == Rhs(r)[j]
    requires Built(st[..|st| - i]) && Starts(Top(st[..|st| - i]), r)
    ensures Built(Finished(st, r, i))
  {
    hide Step, Goto, Rhs, Lhs, Valid, Starts, Filled;
    var below := st[..|st| - i];
    var next := Finished(st, r, i);
    FilledValid(st, r, i);
    StartsSymbol(Top(below), r);
    assert next[..|next| - 1] == below;
    assert Joined(below, next[|next| - 1]);
  }

  lemma FinishedYield(st: seq<Entry>, r: int, i: nat)
    requires i <= |st| && i <= |Rhs(r)|
    ensures Yields(Trees(Finished(st, r, i))) == Yields(Trees(st)) + Yields(LeastRow(Rhs(r)[i..]))
  {
    hide Rhs, Goto, Lhs, Least;
    var n := |st| - i;
    var t := Node(r, Filled(st, r, i));
    assert Trees(Finished(st, r, i)) == Trees(st[..n]) + [t];
    YieldsConcat(Trees(st[..n]), [t]);
    YieldsOne(t);
    YieldsConcat(Trees(st[n..]), LeastRow(Rhs(r)[i..]));
    assert Trees(st) == Trees(st[..n]) + Trees(st[n..]);
    YieldsConcat(Trees(st[..n]), Trees(st[n..]));
  }

  // What is on the stack begins a sentence.
  lemma {:induction false} Completed(st: seq<Entry>) returns (t: Tree, w: seq<Token>)
    requires Built(st)
    ensures Valid(t) && Root(t) == INPUT && Yield(t) == Yields(Trees(st)) + w
    decreases 10 * |st| + CompletionRank(Top(st))
  {
    hide Valid, Root, Step, Goto, Rhs, Lhs, Starts, Item, InRule, State, Built, Finished, CompletionRank, ChosenRule,
      ChosenRead;
    TopStates(st);
    if st == [] {
      t := Least(INPUT);
      LeastIs(INPUT);
      w := Yield(t);
    } else if Top(st) == YY_ACCEPT_ACTION {
      t, w := st[0].tree, [];
      JoinedAt(st, 0);
      JoinedParts(st[..0], st[0]);
      assert Trees(st) == [t];
      YieldsOne(t);
    } else {
      var s := Top(st);
      ChosenIs(s);
      var r, i := ChosenRule(s), ChosenRead(s);
      ItemInRule(s, r, i);
      Handle(st, r, i);
      FinishedBuilt(st, r, i);
      FinishedYield(st, r, i);
      FinishedSmaller(st, r, i);
      var w': seq<Token>;
      t, w' := Completed(Finished(st, r, i));
      w := Yields(LeastRow(Rhs(r)[i..])) + w';
    }
  }

  lemma ItemInRule(s: int, r: int, i: int)
    requires Item(s, r, i) && i > 0
    ensures InRule(s, r, i)
  {}

  lemma FinishedSmaller(st: seq<Entry>, r: int, i: nat)
    requires Built(st) && st != [] && State(Top(st)) && Top(st) != 0
    requires r == ChosenRule(Top(st)) && i == ChosenRead(Top(st))
    requires 0 <= r < YYNRULE && 0 < i <= |st| && i <= |Rhs(r)|
    requires forall j | 0 <= j < i :: Root(st[|st| - i + j].tree) == Rhs(r)[j]
    requires Starts(Top(st[..|st| - i]), r)
    ensures var next := Finished(st, r, i);
      10 * |next| + CompletionRank(Top(next)) < 10 * |st| + CompletionRank(Top(st))
  {
    hide Step, Goto, Rhs, Lhs, Starts, Valid, Built, State, ChosenRule, ChosenRead, CompletionRank, Filled;
    var b := Top(st[..|st| - i]);
    StartsSymbol(b, r);
    if i == 1 {
      JoinedAt(st, |st| - 1);
      JoinedParts(st[..|st| - 1], st[|st| - 1]);
      ChosenDrops(b, Top(st));
    }
  }

  // ----- Runs, cut in two -----------------------------------------------------------------

  // Between two calls, whatever the next token is.
  ghost predicate AtRest(end: nat, st: seq<Entry>) {
    && Waiting(end, st) && Viable(st) && |st| <= end
    && forall la | 0 <= la < YYNTOKEN :: Ready(st, la)
  }

  lemma RestIs(end: nat, st: seq<Entry>)
    requires Waiting(end, st)
    ensures AtRest(end, st)
  {
    hide Waiting, Ready, Viable;
    WaitingReady(end, st);
    WaitingViable(end, st);
  }

  lemma {:induction false} FeedSplit(end: nat, st: seq<Entry>, a: seq<Token>, b: seq<Token>)
    requires AtRest(end, st) && Tokens(a) && Tokens(b) && Tokens(a + b)
    ensures var o := Feed(end, st, a);
      if o.Shifted? then
        && AtRest(end, o.stack) && Yields(Trees(o.stack)) == Yields(Trees(st)) + a
        && Feed(end, st, a + b) == Feed(end, o.stack, b)
      else Feed(end, st, a + b) == o
    decreases |a|
  {
    hide Waiting, Ready, Meets, Viable, Process, Yields, Trees, Feed;
    if a == [] {
      assert a + b == b;
      FeedNothing(end, st);
    } else {
      assert (a + b)[0] == a[0] && (a + b)[1..] == a[1..] + b;
      FeedTurn(end, st, a);
      FeedTurn(end, st, a + b);
      ReadyMeets(st, a[0].kind);
      var o := Process(end, st, a[0]);
      if o.Shifted? {
        ShiftedYield(end, st, a[0]);
        RestIs(end, o.stack);
        FeedSplit(end, o.stack, a[1..], b);
        assert a == [a[0]] + a[1..];
      }
    }
  }

  lemma ShiftedYield(end: nat, st: seq<Entry>, tok: Token)
    requires Ready(st, tok.kind) && |st| <= end && Process(end, st, tok).Shifted?
    ensures Yields(Trees(Process(end, st, tok).stack)) == Yields(Trees(st)) + [tok]
  {
    hide Process, Waiting, Viable, Yields, Trees;
    ProcessAnswers(end, st, tok);
  }

  lemma FeedNothing(end: nat, st: seq<Entry>)
    requires AtRest(end, st)
    ensures Feed(end, st, []) == Shifted(st)
  {}

  // A run grows token by token.
  lemma FeedMore(end: nat, input: seq<Token>, k: nat)
    requires AtRest(end, []) && Tokens(input) && k < |input| && Feed(end, [], input[..k]).Shifted?
    ensures var st := Feed(end, [], input[..k]).stack;
      && AtRest(end, st) && Ready(st, input[k].kind)
      && (Process(end, st, input[k]).Shifted? ==> Feed(end, [], input[..k + 1]) == Process(end, st, input[k]))
  {
    hide Feed, Waiting, Ready, Viable, Process;
    var st := Feed(end, [], input[..k]).stack;
    assert input[..k] + [input[k]] == input[..k + 1];
    FeedSplit(end, [], input[..k], [input[k]]);
    assert Ready(st, input[k].kind);
    FeedTurn(end, st, [input[k]]);
    ReadyMeets(st, input[k].kind);
    if Process(end, st, input[k]).Shifted? {
      assert [input[k]][1..] == [];
      RestIs(end, Process(end, st, input[k]).stack);
      FeedNothing(end, Process(end, st, input[k]).stack);
    }
  }

  // What fits a stack is done the same way on a deeper one.
  lemma {:induction false} ProcessDeeper(end: nat, deeper: nat, st: seq<Entry>, tok: Token)
    requires Meets(st, tok.kind) && |st| <= end <= deeper && Process(end, st, tok) != Overflow
    ensures Process(deeper, st, tok) == Process(end, st, tok)
    decreases Fuel(st)
  {
    hide Act, Goto, Rhs, Step, State, Built, Rank, Reduced, Fuel;
    var a := Act(Top(st), tok.kind);
    if a >= YY_MIN_REDUCE {
      ReducedMeets(st, tok.kind);
      ReducedFuel(st, tok.kind);
      var r := a - YY_MIN_REDUCE;
      ReducedSize(st, r);
      ProcessDeeper(end, deeper, Reduced(st, r), tok);
    }
  }

  lemma {:induction false} FeedDeeper(end: nat, deeper: nat, st: seq<Entry>, toks: seq<Token>)
    requires AtRest(end, st) && end <= deeper && Tokens(toks) && Feed(end, st, toks) != Overflow
    ensures AtRest(deeper, st) && Feed(deeper, st, toks) == Feed(end, st, toks)
    decreases |toks|
  {
    hide Ready, Viable, Process, Trees, Yields;
    RestIs(deeper, st);
    if toks != [] {
      FeedTurn(end, st, toks);
      FeedTurn(deeper, st, toks);
      ReadyMeets(st, toks[0].kind);
      ProcessDeeper(end, deeper, st, toks[0]);
      var o := Process(end, st, toks[0]);
      if o.Shifted? {
        RestIs(end, o.stack);
        FeedDeeper(end, deeper, o.stack, toks[1..]);
      }
    }
  }

  // ----- The token named ------------------------------------------------------------------

  // Some expression of the 28 rules, followed by the end of input, begins with these
  // tokens.
  ghost predicate Begins(toks: seq<Token>) {
    exists s :: Expression(s) && Sentence(s) && toks <= s + [END]
  }

  // Token k is the first that no expression goes on with.
  ghost predicate ErrorAt(toks: seq<Token>, k: nat) {
    k <= |toks| && Begins((toks + [END])[..k]) && !Begins((toks + [END])[..k + 1])
  }

  // There is only one such token.
  lemma OneErrorToken(toks: seq<Token>, j: nat, k: nat)
    requires ErrorAt(toks, j) && ErrorAt(toks, k)
    ensures j == k
  {
    hide Begins;
    var input := toks + [END];
    if j < k {
      assert input[..k][..j + 1] == input[..j + 1];
      BeginsShorter(input[..k], j + 1);
    } else if k < j {
      assert input[..j][..k + 1] == input[..k + 1];
      BeginsShorter(input[..j], k + 1);
    }
  }

  lemma BeginsShorter(toks: seq<Token>, n: nat)
    requires Begins(toks) && n <= |toks|
    ensures Begins(toks[..n])
  {
    hide Sentence;
    var s :| Expression(s) && Sentence(s) && toks <= s + [END];
    assert toks[..n] <= s + [END];
  }

  // What has been shifted begins an expression.
  lemma ShiftedBegins(end: nat, toks: seq<Token>)
    requires AtRest(end, []) && Tokens(toks) && Feed(end, [], toks).Shifted?
    ensures Begins(toks)
  {
    hide Feed, Waiting, Ready, Valid, Root, Sentence, Viable, Built;
    assert toks + [] == toks;
    FeedSplit(end, [], toks, []);
    assert Trees([]) == [];
    var st := Feed(end, [], toks).stack;
    ViableBuilt(st);
    var t, w := Completed(st);
    YieldTokens(t);
    var s := Yield(t);
    assert s == toks + w;
    SentenceOf(t);
    assert toks <= s + [END];
  }

  lemma SentenceOf(t: Tree)
    requires Valid(t) && Root(t) == INPUT
    ensures Sentence(Yield(t))
  {}

  // No expression begins with what has been shifted and a token that fails.
  lemma FailedBeginsNothing(end: nat, toks: seq<Token>, tok: Token)
    requires AtRest(end, []) && Tokens(toks) && 0 <= tok.kind < YYNTOKEN && Feed(end, [], toks).Shifted?
    requires var st := Feed(end, [], toks).stack;
      AtRest(end, st) && Ready(st, tok.kind) && Process(end, st, tok).SyntaxError?
    ensures !Begins(toks + [tok])
  {
    hide Feed, Waiting, Ready, Viable, Process, Sentence, AtRest, Tokens;
    if Begins(toks + [tok]) {
      var s :| Expression(s) && Sentence(s) && toks + [tok] <= s + [END];
      var rest := (s + [END])[|toks| + 1..];
      assert s + [END] == toks + [tok] + rest;
      Refuted(end, toks, tok, rest, s);
    }
  }

  lemma Refuted(end: nat, toks: seq<Token>, tok: Token, rest: seq<Token>, s: seq<Token>)
    requires AtRest(end, []) && Tokens(toks) && 0 <= tok.kind < YYNTOKEN && Feed(end, [], toks).Shifted?
    requires var st := Feed(end, [], toks).stack;
      AtRest(end, st) && Ready(st, tok.kind) && Process(end, st, tok).SyntaxError?
    requires Expression(s) && s + [END] == toks + [tok] + rest
    ensures !Sentence(s)
  {
    hide Feed, Waiting, Ready, Viable, Process, Sentence;
    if Sentence(s) {
      AcceptsLanguage(s);
      var depth: nat :| Parse(depth, s).Accepted?;
      var deep := if depth < end then end else depth;
      DeeperStack(depth, deep, s);
      forall k | 0 <= k < |[tok] + rest| ensures ([tok] + rest)[k] == (s + [END])[|toks| + k] {}
      assert s + [END] == toks + ([tok] + rest);
      FailsToo(end, deep, toks, tok, rest);
    }
  }

  // The failure shows at every depth from this one on, whatever follows.
  lemma FailsToo(end: nat, deep: nat, toks: seq<Token>, tok: Token, rest: seq<Token>)
    requires AtRest(end, []) && end <= deep && Tokens(toks) && Tokens([tok] + rest) && Feed(end, [], toks).Shifted?
    requires var st := Feed(end, [], toks).stack;
      AtRest(end, st) && Ready(st, tok.kind) && Process(end, st, tok).SyntaxError?
    ensures AtRest(deep, []) && Tokens(toks + ([tok] + rest)) && Feed(deep, [], toks + ([tok] + rest)).SyntaxError?
  {
    hide Feed, Waiting, Ready, Viable, Process;
    var st := Feed(end, [], toks).stack;
    FeedDeeper(end, deep, [], toks);
    FeedSplit(deep, [], toks, [tok] + rest);
    FeedTurn(deep, st, [tok] + rest);
    ReadyMeets(st, tok.kind);
    ProcessDeeper(end, deep, st, tok);
  }

  // A syntax error names the first token that no expression goes on with.
  lemma FailsAtFirst(end: nat, toks: seq<Token>, k: nat)
    requires AtRest(end, []) && Tokens(toks) && k <= |toks| && Feed(end, [], (toks + [END])[..k]).Shifted?
    requires var st := Feed(end, [], (toks + [END])[..k]).stack;
      AtRest(end, st) && Ready(st, (toks + [END])[k].kind) && Process(end, st, (toks + [END])[k]).SyntaxError?
    ensures ErrorAt(toks, k)
  {
    hide Feed, Waiting, Ready, Viable, Process, AtRest, Begins;
    var input := toks + [END];
    ShiftedBegins(end, input[..k]);
    FailedBeginsNothing(end, input[..k], input[k]);
    assert input[..k] + [input[k]] == input[..k + 1];
  }
}
