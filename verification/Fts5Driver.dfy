/** One call of the parser, a whole run, and its soundness: an accepted input is
    the yield of a derivation, reduced rule by rule. */
module Fts5Driver {
  import opened Fts5Tables
  import opened Fts5Grammar
  import opened Fts5Automaton
  import opened Fts5Machine
  import opened Fts5Lookup

  predicate Tokens(toks: seq<Token>) { forall k | 0 <= k < |toks| :: 0 <= toks[k].kind < YYNTOKEN }

  // The stack between two calls.
  predicate Waiting(end: nat, st: seq<Entry>) {
    Viable(st) && |st| <= end && (st == [] || st[|st| - 1].tree.Leaf?)
  }

  // What any call on token tok may answer, from a stack that spells some tokens.
  ghost predicate Keeps(end: nat, st: seq<Entry>, tok: Token, o: Outcome) {
    match o
    case Shifted(st') =>
      && tok.kind != EOF && Built(st') && |st'| <= end && Top(st') != YY_ACCEPT_ACTION
      && Yields(Trees(st')) == Yields(Trees(st)) + [tok]
    case Accepted(t) => tok.kind == EOF && Valid(t) && Root(t) == INPUT && Yield(t) == Yields(Trees(st))
    case SyntaxError(st') =>
      Built(st') && |st'| <= end && Top(st') != YY_ACCEPT_ACTION && Yields(Trees(st')) == Yields(Trees(st))
    case Overflow => true
  }

  // ... and if there was no syntax error before.
  ghost predicate Answers(end: nat, st: seq<Entry>, tok: Token, o: Outcome) {
    && Keeps(end, st, tok, o)
    && match o
       case Shifted(st') => Waiting(end, st')
       case Accepted(t) => Resolved(t)
       case SyntaxError(st') => Viable(st')
       case Overflow => true
  }

  // YYSTACKDEPTH is end + 1; the bottom entry takes one place.
  function Process(end: nat, st: seq<Entry>, tok: Token): (o: Outcome)
    requires Meets(st, tok.kind) && |st| <= end
    decreases Fuel(st)
  {
    hide Act, Goto, Step, Built, Rank, Reduced, Rhs, Lhs, TokenLevel, Item, Fuel;
    var a := Act(Top(st), tok.kind);
    if a >= YY_MIN_REDUCE then
      ReducedMeets(st, tok.kind);
      ReducedFuel(st, tok.kind);
      ReducedSize(st, a - YY_MIN_REDUCE);
      if Rhs(a - YY_MIN_REDUCE) == [] && |st| >= end then Overflow
      else Process(end, Reduced(st, a - YY_MIN_REDUCE), tok)
    else if a <= YY_MAX_SHIFTREDUCE then
      if |st| >= end then Overflow
      else Shifted(st + [Entry(if a > YY_MAX_SHIFT then a + YY_MIN_REDUCE - YY_MIN_SHIFTREDUCE else a, Leaf(tok))])
    else if a == YY_ACCEPT_ACTION then
      AcceptStack(st, tok.kind);
      Accepted(st[|st| - 1].tree)
    else SyntaxError(st)
  }

  // An accepting stack holds the finished input and nothing else.
  lemma AcceptStack(st: seq<Entry>, la: int)
    requires Built(st) && Act(Top(st), la) == YY_ACCEPT_ACTION
    ensures |st| == 1 && Root(st[0].tree) == INPUT && Top(st) == YY_ACCEPT_ACTION && Valid(st[0].tree)
  {
    hide Act, Step, Joined, Root, Valid;
    TopStates(st);
    AcceptState(Top(st), la);
    JoinedAt(st, |st| - 1);
    JoinedParts(st[..|st| - 1], st[|st| - 1]);
  }

  lemma AcceptState(s: int, la: int)
    requires State(s) || s == YY_ACCEPT_ACTION
    ensures Act(s, la) == YY_ACCEPT_ACTION <==> s == YY_ACCEPT_ACTION
  {}

  lemma ShiftState(s: int, la: int)
    requires State(s) && 0 <= la < YYNTOKEN && Act(s, la) <= YY_MAX_SHIFTREDUCE
    ensures la != EOF
    ensures Step(s, la) == if Act(s, la) > YY_MAX_SHIFT then Act(s, la) + YY_MIN_REDUCE - YY_MIN_SHIFTREDUCE
        else Act(s, la)
    ensures Step(s, la) != -1
  {}

  // Shifting keeps the stack viable and adds the token to what it spells.
  lemma ShiftKeeps(end: nat, st: seq<Entry>, tok: Token)
    requires Meets(st, tok.kind) && |st| < end && Act(Top(st), tok.kind) <= YY_MAX_SHIFTREDUCE
    ensures Keeps(end, st, tok, Shifted(st + [Entry(Step(Top(st), tok.kind), Leaf(tok))]))
    ensures Step(Top(st), tok.kind) != -1 && tok.kind != EOF
  {
    hide Step, Goto, Act, State;
    TopStates(st);
    AcceptIsFinal(tok.kind);
    ShiftState(Top(st), tok.kind);
    StepStates(Top(st), tok.kind);
    var next := st + [Entry(Step(Top(st), tok.kind), Leaf(tok))];
    assert next[..|next| - 1] == st;
    assert Trees(next) == Trees(st) + [Leaf(tok)];
    YieldsConcat(Trees(st), [Leaf(tok)]);
    YieldsOne(Leaf(tok));
  }

  lemma ShiftWaiting(end: nat, st: seq<Entry>, tok: Token)
    requires Ready(st, tok.kind) && |st| < end && Act(Top(st), tok.kind) <= YY_MAX_SHIFTREDUCE
    ensures Answers(end, st, tok, Shifted(st + [Entry(Step(Top(st), tok.kind), Leaf(tok))]))
  {
    hide Step, Goto, Act, State, TokenLevel, Keeps, Built, Yields, Trees;
    ShiftKeeps(end, st, tok);
    var next := st + [Entry(Step(Top(st), tok.kind), Leaf(tok))];
    assert next[..|next| - 1] == st;
  }

  // Whatever came before, a call shifts its token after reductions that spell the
  // same tokens, or accepts a derivation of everything shifted.
  lemma {:induction false} ProcessKeeps(end: nat, st: seq<Entry>, tok: Token)
    requires Meets(st, tok.kind) && |st| <= end
    ensures Keeps(end, st, tok, Process(end, st, tok))
    decreases Fuel(st)
  {
    hide Act, Goto, Rhs, Step, State, Built, Rank, Reduced;
    var a := Act(Top(st), tok.kind);
    if a >= YY_MIN_REDUCE {
      ReducedMeets(st, tok.kind);
      ReducedFuel(st, tok.kind);
      var r := a - YY_MIN_REDUCE;
      if !(Rhs(r) == [] && |st| >= end) {
        ReducedYield(st, r);
        ReducedSize(st, r);
        ProcessKeeps(end, Reduced(st, r), tok);
      }
    } else if a <= YY_MAX_SHIFTREDUCE {
      if |st| < end {
        TopStates(st);
        AcceptIsFinal(tok.kind);
        ShiftState(Top(st), tok.kind);
        ShiftKeeps(end, st, tok);
      }
    } else if a == YY_ACCEPT_ACTION {
      AcceptStack(st, tok.kind);
      assert Trees(st) == [st[0].tree];
      YieldsOne(st[0].tree);
    } else {
      AcceptIsFinal(tok.kind);
    }
  }

  lemma {:induction false} ProcessAnswers(end: nat, st: seq<Entry>, tok: Token)
    requires Ready(st, tok.kind) && |st| <= end
    ensures Answers(end, st, tok, Process(end, st, tok))
    decreases Fuel(st)
  {
    hide Act, Goto, Rhs, Step, State, Viable, Built, Rank, Reduced, Keeps, Linked, Resolved;
    ProcessKeeps(end, st, tok);
    var a := Act(Top(st), tok.kind);
    if a >= YY_MIN_REDUCE {
      ReducedReady(st, tok.kind);
      ReducedFuel(st, tok.kind);
      var r := a - YY_MIN_REDUCE;
      if !(Rhs(r) == [] && |st| >= end) {
        ReducedSize(st, r);
        ProcessAnswers(end, Reduced(st, r), tok);
      }
    } else if a <= YY_MAX_SHIFTREDUCE {
      if |st| < end {
        TopStates(st);
        AcceptIsFinal(tok.kind);
        ShiftState(Top(st), tok.kind);
        ShiftWaiting(end, st, tok);
      }
    } else if a == YY_ACCEPT_ACTION {
      AcceptStack(st, tok.kind);
      LinkedAt(st, 0);
      LinkedParts(st[..0], st[0]);
    }
  }

  // ----- A run ----------------------------------------------------------------------

  const END := Token(EOF, "")

  // The caller hands over tokens until one is not merely shifted.
  function Feed(end: nat, st: seq<Entry>, toks: seq<Token>): Outcome
    requires Viable(st) && |st| <= end && Tokens(toks)
    requires toks != [] ==> Ready(st, toks[0].kind)
    decreases |toks|
  {
    if toks == [] then Shifted(st)
    else
      var o := Process(end, st, toks[0]);
      if o.Shifted? then
        ProcessAnswers(end, st, toks[0]);
        WaitingReady(end, o.stack);
        Feed(end, o.stack, toks[1..])
      else o
  }

  lemma WaitingReady(end: nat, st: seq<Entry>)
    requires Waiting(end, st)
    ensures forall la | 0 <= la < YYNTOKEN :: Ready(st, la)
  {
    hide Step, TokenLevel, Built;
    ViableBuilt(st);
    TopStates(st);
    if st != [] {
      LinkedAt(st, |st| - 1);
    }
    LeafLevel(st);
  }

  lemma LeafLevel(st: seq<Entry>)
    requires st == [] || st[|st| - 1].tree.Leaf?
    ensures forall la :: TokenLevel(la) <= TopLevel(st)
  {}

  lemma WaitingViable(end: nat, st: seq<Entry>)
    requires Waiting(end, st)
    ensures Viable(st) && |st| <= end
  {}

  // One token of a run.
  lemma FeedTurn(end: nat, st: seq<Entry>, toks: seq<Token>)
    requires Viable(st) && |st| <= end && Tokens(toks) && toks != [] && Ready(st, toks[0].kind)
    ensures var o := Process(end, st, toks[0]);
      if o.Shifted? then
        && toks[0].kind != EOF && Waiting(end, o.stack) && Tokens(toks[1..])
        && (forall la | 0 <= la < YYNTOKEN :: Ready(o.stack, la))
        && Feed(end, st, toks) == Feed(end, o.stack, toks[1..])
      else Feed(end, st, toks) == o
  {
    hide Process, Ready, Meets, Viable;
    ReadyMeets(st, toks[0].kind);
    ProcessAnswers(end, st, toks[0]);
    if Process(end, st, toks[0]).Shifted? { WaitingReady(end, Process(end, st, toks[0]).stack); }
  }

  // A whole expression: its tokens, then the end of input.
  function Parse(end: nat, toks: seq<Token>): Outcome
    requires Tokens(toks)
  {
    Feed(end, [], toks + [END])
  }

  lemma {:induction false} FeedSound(end: nat, st: seq<Entry>, toks: seq<Token>)
    requires Viable(st) && |st| <= end && Tokens(toks)
    requires toks != [] ==> Ready(st, toks[0].kind)
    requires Feed(end, st, toks).Accepted?
    requires forall k | 0 <= k < |toks| - 1 :: toks[k].kind != EOF
    ensures var t := Feed(end, st, toks).tree;
      && Valid(t) && Resolved(t) && Root(t) == INPUT
      && toks != [] && Yield(t) == Yields(Trees(st)) + toks[..|toks| - 1]
    decreases |toks|
  {
    hide Viable, Ready, Meets, Waiting, Process, Trees, Yields, Valid, Resolved, Root;
    ReadyMeets(st, toks[0].kind);
    var o := Process(end, st, toks[0]);
    ProcessAnswers(end, st, toks[0]);
    if o.Shifted? {
      WaitingReady(end, o.stack);
      WaitingViable(end, o.stack);
      FeedSound(end, o.stack, toks[1..]);
      assert toks[..|toks| - 1] == [toks[0]] + toks[1..][..|toks[1..]| - 1];
    } else {
      assert |toks| == 1;
    }
  }

  // Soundness: an accepted expression is spelled by the tree the reductions built,
  // a derivation from input in which every operator respects its precedence.
  lemma ParseSound(end: nat, toks: seq<Token>)
    requires Tokens(toks) && Parse(end, toks).Accepted?
    requires forall k | 0 <= k < |toks| :: toks[k].kind != EOF
    ensures var t := Parse(end, toks).tree;
      Valid(t) && Resolved(t) && Root(t) == INPUT && Yield(t) == toks
  {
    FeedSound(end, [], toks + [END]);
    assert (toks + [END])[..|toks|] == toks;
  }
}
