/** What the automaton's states mean.  Item(s, r, i) says that state s is reached
    only after the first i symbols of rule r.  The lemmas check, over all states,
    that the moves agree with that reading in both directions. */
module Fts5Automaton {
  import opened Fts5Tables
  import opened Fts5Grammar

  // The rules that are reduced as soon as their last symbol is on the stack.
  predicate Pending(r: int) {
    match r
    case 1 | 2 | 4 | 5 | 6 | 9 | 10 | 11 | 13 | 14 | 15 | 16 | 19 | 23 | 24 | 25 | 26 => true
    case _ => false
  }

  // The numbers a stack entry carries before the parser accepts.
  predicate State(s: int) { 0 <= s <= YY_MAX_SHIFT || Pending(s - YY_MIN_REDUCE) }

  predicate Item(s: int, r: int, i: int) {
    match s
    case 1 => r == 11 && i == 1
    case 2 => r == 10 && i == 3
    case 3 => r == 9 && i == 2
    case 4 => r == 8 && i == 2
    case 5 => r == 7 && i == 2
    case 6 => (r == 12 || r == 14) && i == 1
    case 7 => (r == 10 || r == 16) && i == 2
    case 8 => r == 16 && i == 2
    case 9 => (r == 19 && i == 3) || (r == 21 && i == 1)
    case 10 => r == 19 && i == 2
    case 11 => (r == 3 || r == 19 || r == 25) && i == 1
    case 12 => (r == 19 || r == 25) && i == 1
    case 13 => r == 18 && i == 1
    case 14 => r == 25 && i == 1
    case 15 => r == 24 && i == 3
    case 16 => r == 2 && i == 1
    case 17 => r == 1 && i == 2
    case 18 => ((r == 7 || r == 8 || r == 9) && i == 1) || (r == 11 && i == 2)
    case 19 => ((r == 7 || r == 8 || r == 9) && i == 1) || (r == 10 && i == 4)
    case 20 => (r == 0 || r == 7 || r == 8 || r == 9) && i == 1
    case 21 => ((r == 7 || r == 9) && i == 1) || (r == 8 && i == 3)
    case 22 => (r == 2 && i == 2) || (r == 5 && i == 1)
    case 23 => (r == 1 && i == 3) || (r == 5 && i == 1)
    case 24 => (r == 1 || r == 4) && i == 1
    case 25 => (r == 18 && i == 2) || (r == 24 && i == 1)
    case 26 => (r == 17 || r == 24) && i == 1
    case 27 => r == 16 && i == 1
    case 28 => (r == 10 || r == 16) && i == 1
    case 29 => (r == 7 && i == 3) || (r == 9 && i == 1)
    case 30 => (r == 20 || r == 24) && i == 1
    case 31 => r == 23 && i == 1
    case 32 => r == 24 && i == 2
    case 33 => (r == 21 && i == 2) || (r == 24 && i == 1)
    case 34 => r == 19 && i == 4
    case _ => r == s - YY_MIN_REDUCE && Pending(r) && i == |Rhs(r)|
  }

  // The state that follows s over symbol x, or -1.  A shift-and-reduce leads to a
  // pending reduction.
  function Step(s: int, x: int): int {
    if x >= YYNTOKEN then Goto(s, x)
    else if !(0 <= s <= YY_MAX_SHIFT && 0 < x) then -1
    else if Act(s, x) <= YY_MAX_SHIFT then Act(s, x)
    else if Act(s, x) <= YY_MAX_SHIFTREDUCE then Act(s, x) + YY_MIN_REDUCE - YY_MIN_SHIFTREDUCE
    else -1
  }

  // State s can start rule r: after an operator only a tighter one.
  predicate Starts(s: int, r: int) {
    && Goto(s, Lhs(r)) != -1
    && (s == 4 ==> RuleLevel(r) > 1)
    && (s == 5 ==> RuleLevel(r) > 2)
    && (s == 3 ==> RuleLevel(r) > 3)
  }

  predicate InRule(s: int, r: int, i: int) {
    if i == 0 then Starts(s, r) else Item(s, r, i)
  }

  // ----- Backward: what a state says about how it was reached ----------------------

  lemma StepBackTo4(s: int, x: int, r: int, i: int)
    requires Step(s, x) != -1 && Item(Step(s, x), r, i) && Step(s, x) < 5
    ensures 0 < i <= |Rhs(r)| && Rhs(r)[i - 1] == x
    ensures InRule(s, r, i - 1)
  {}

  lemma StepBackTo9(s: int, x: int, r: int, i: int)
    requires Step(s, x) != -1 && Item(Step(s, x), r, i) && 5 <= Step(s, x) < 10
    ensures 0 < i <= |Rhs(r)| && Rhs(r)[i - 1] == x
    ensures InRule(s, r, i - 1)
  {}

  lemma StepBackTo14(s: int, x: int, r: int, i: int)
    requires Step(s, x) != -1 && Item(Step(s, x), r, i) && 10 <= Step(s, x) < 15
    ensures 0 < i <= |Rhs(r)| && Rhs(r)[i - 1] == x
    ensures InRule(s, r, i - 1)
  {}

  lemma StepBackTo19(s: int, x: int, r: int, i: int)
    requires Step(s, x) != -1 && Item(Step(s, x), r, i) && 15 <= Step(s, x) < 20
    ensures 0 < i <= |Rhs(r)| && Rhs(r)[i - 1] == x
    ensures InRule(s, r, i - 1)
  {}

  lemma StepBackTo24(s: int, x: int, r: int, i: int)
    requires Step(s, x) != -1 && Item(Step(s, x), r, i) && 20 <= Step(s, x) < 25
    ensures 0 < i <= |Rhs(r)| && Rhs(r)[i - 1] == x
    ensures InRule(s, r, i - 1)
  {}

  lemma StepBackTo29(s: int, x: int, r: int, i: int)
    requires Step(s, x) != -1 && Item(Step(s, x), r, i) && 25 <= Step(s, x) < 30
    ensures 0 < i <= |Rhs(r)| && Rhs(r)[i - 1] == x
    ensures InRule(s, r, i - 1)
  {}

  lemma StepBackTo34(s: int, x: int, r: int, i: int)
    requires Step(s, x) != -1 && Item(Step(s, x), r, i) && 30 <= Step(s, x) < 35
    ensures 0 < i <= |Rhs(r)| && Rhs(r)[i - 1] == x
    ensures InRule(s, r, i - 1)
  {}

  lemma StepBackShift(s: int, x: int, r: int, i: int)
    requires Step(s, x) != -1 && Item(Step(s, x), r, i) && 35 <= Step(s, x) && x < YYNTOKEN
    ensures 0 < i <= |Rhs(r)| && Rhs(r)[i - 1] == x
    ensures InRule(s, r, i - 1)
  {}

  lemma StepBackPending(s: int, x: int, r: int, i: int)
    requires Step(s, x) != -1 && Item(Step(s, x), r, i) && 35 <= Step(s, x) && x >= YYNTOKEN
    ensures 0 < i <= |Rhs(r)| && Rhs(r)[i - 1] == x
    ensures InRule(s, r, i - 1)
  {}

  lemma StepBack(s: int, x: int, r: int, i: int)
    requires Step(s, x) != -1 && Item(Step(s, x), r, i)
    ensures 0 < i <= |Rhs(r)| && Rhs(r)[i - 1] == x
    ensures InRule(s, r, i - 1)
  {
    hide *;
    if Step(s, x) < 5 {
      StepBackTo4(s, x, r, i);
    } else if Step(s, x) < 10 {
      StepBackTo9(s, x, r, i);
    } else if Step(s, x) < 15 {
      StepBackTo14(s, x, r, i);
    } else if Step(s, x) < 20 {
      StepBackTo19(s, x, r, i);
    } else if Step(s, x) < 25 {
      StepBackTo24(s, x, r, i);
    } else if Step(s, x) < 30 {
      StepBackTo29(s, x, r, i);
    } else if Step(s, x) < 35 {
      StepBackTo34(s, x, r, i);
    } else if x < YYNTOKEN {
      StepBackShift(s, x, r, i);
    } else {
      StepBackPending(s, x, r, i);
    }
  }

  lemma ReduceBack(s: int, la: int)
    requires State(s) && Act(s, la) >= YY_MIN_REDUCE
    ensures 0 <= Act(s, la) - YY_MIN_REDUCE < YYNRULE
    ensures var r := Act(s, la) - YY_MIN_REDUCE; InRule(s, r, |Rhs(r)|) && TokenLevel(la) <= RuleLevel(r)
  {}

  // ----- Forward: every rule a state is in can go on -------------------------------

  lemma StepForwardExpr(s: int, r: int, i: int)
    requires 0 <= r < 12 && 0 <= i < |Rhs(r)| && InRule(s, r, i) && i == 0
    ensures Step(s, Rhs(r)[i]) != -1 && Item(Step(s, Rhs(r)[i]), r, i + 1)
  {}

  lemma StepForwardNear(s: int, r: int, i: int)
    requires 12 <= r < 20 && 0 <= i < |Rhs(r)| && InRule(s, r, i) && i == 0
    ensures Step(s, Rhs(r)[i]) != -1 && Item(Step(s, Rhs(r)[i]), r, i + 1)
  {}

  lemma StepForwardPhrase(s: int, r: int, i: int)
    requires 20 <= r < YYNRULE && 0 <= i < |Rhs(r)| && InRule(s, r, i) && i == 0
    ensures Step(s, Rhs(r)[i]) != -1 && Item(Step(s, Rhs(r)[i]), r, i + 1)
  {}

  lemma StepForwardLow(s: int, r: int, i: int)
    requires 0 <= r < YYNRULE && 0 <= i < |Rhs(r)| && InRule(s, r, i) && i > 0 && s < 8
    ensures Step(s, Rhs(r)[i]) != -1 && Item(Step(s, Rhs(r)[i]), r, i + 1)
  {}

  lemma StepForwardMiddle(s: int, r: int, i: int)
    requires 0 <= r < YYNRULE && 0 <= i < |Rhs(r)| && InRule(s, r, i) && i > 0 && 8 <= s < 18
    ensures Step(s, Rhs(r)[i]) != -1 && Item(Step(s, Rhs(r)[i]), r, i + 1)
  {}

  lemma StepForwardHigh(s: int, r: int, i: int)
    requires 0 <= r < YYNRULE && 0 <= i < |Rhs(r)| && InRule(s, r, i) && i > 0 && s >= 18
    ensures Step(s, Rhs(r)[i]) != -1 && Item(Step(s, Rhs(r)[i]), r, i + 1)
  {}

  lemma StepForward(s: int, r: int, i: int)
    requires 0 <= r < YYNRULE && 0 <= i < |Rhs(r)| && InRule(s, r, i)
    ensures Step(s, Rhs(r)[i]) != -1 && Item(Step(s, Rhs(r)[i]), r, i + 1)
  {
    hide *;
    if i == 0 && r < 12 {
      StepForwardExpr(s, r, i);
    } else if i == 0 && r < 20 {
      StepForwardNear(s, r, i);
    } else if i == 0 {
      StepForwardPhrase(s, r, i);
    } else if s < 8 {
      StepForwardLow(s, r, i);
    } else if s < 18 {
      StepForwardMiddle(s, r, i);
    } else {
      StepForwardHigh(s, r, i);
    }
  }

  // Rule q may stand at position i of rule r.
  predicate Fits(r: int, i: int, q: int) {
    && 0 <= i < |Rhs(r)| && Rhs(r)[i] == Lhs(q)
    && (RuleLevel(r) < 4 ==> (if i == 0 then RuleLevel(r) <= RuleLevel(q) else RuleLevel(r) < RuleLevel(q)))
  }

  // The state after an operator starts the right operand, or a left operand of it.
  lemma OperandStates(s: int, r: int, i: int)
    requires 0 <= r < YYNRULE && InRule(s, r, i) && i < |Rhs(r)| && Rhs(r)[i] == EXPR && s in {3, 4, 5}
    ensures i == 0 ==> r in {7, 8, 9}
    ensures i > 0 ==> (s == 4 && r == 8) || (s == 5 && r == 7) || (s == 3 && r == 9)
  {}

  lemma ChildStarts(s: int, r: int, i: int, q: int)
    requires 0 <= r < YYNRULE && 0 <= q < YYNRULE && InRule(s, r, i) && Fits(r, i, q)
    ensures Starts(s, q)
  {
    hide Rhs, Goto, Act;
    StepForward(s, r, i);
    if s in {3, 4, 5} && RuleLevel(q) < 4 {
      OperandStates(s, r, i);
    }
  }

  // ----- Lookahead ------------------------------------------------------------------

  // Token la can begin symbol x.
  predicate First(x: int, la: int) {
    match x
    case 16 | 17 => la == MINUS || la == LCP || la == STRING || la == CARET || la == LP
    case 18 | 19 => la == MINUS || la == LCP || la == STRING || la == CARET
    case 20 => la == MINUS || la == LCP || la == STRING
    case 21 | 23 | 24 => la == STRING
    case 22 => la == STRING || la == CARET
    case 25 => la == COMMA
    case 26 => la == STAR
    case _ => la == x
  }

  predicate Nullable(x: int) { x == NEARDIST_OPT || x == STAR_OPT }

  // Token la can follow nonterminal x.
  predicate Follow(x: int, la: int) {
    match x
    case 16 => la == EOF
    case 17 => la == EOF || la == OR || la == AND || la == NOT || la == RP
    case 18 | 19 | 22 => la in {EOF, OR, AND, NOT, RP, MINUS, LCP, STRING, CARET}
    case 20 => la == COLON
    case 21 => la == RCP || la == STRING
    case 23 => la == STRING || la == COMMA || la == RP
    case 24 | 26 => la in {EOF, OR, AND, NOT, RP, MINUS, LCP, STRING, CARET, COMMA, PLUS}
    case 25 => la == RP
    case _ => false
  }

  // Token la can come once j symbols of rule r have been read.
  predicate Ahead(r: int, j: nat, la: int)
    decreases |Rhs(r)| - j
  {
    if j >= |Rhs(r)| then Follow(Lhs(r), la)
    else First(Rhs(r)[j], la) || (Nullable(Rhs(r)[j]) && Ahead(r, j + 1, la))
  }

  lemma AheadFollowsExpr(r: int, i: int, la: int)
    requires 0 <= r < 13 && 0 <= i < |Rhs(r)| && Rhs(r)[i] >= YYNTOKEN && Ahead(r, i + 1, la)
    ensures Follow(Rhs(r)[i], la)
  {}

  lemma AheadFollowsPhrase(r: int, i: int, la: int)
    requires 13 <= r < YYNRULE && 0 <= i < |Rhs(r)| && Rhs(r)[i] >= YYNTOKEN && Ahead(r, i + 1, la)
    ensures Follow(Rhs(r)[i], la)
  {}

  lemma AheadFollows(r: int, i: int, la: int)
    requires 0 <= r < YYNRULE && 0 <= i < |Rhs(r)| && Rhs(r)[i] >= YYNTOKEN && Ahead(r, i + 1, la)
    ensures Follow(Rhs(r)[i], la)
  {
    hide *;
    if r < 13 {
      AheadFollowsExpr(r, i, la);
    } else {
      AheadFollowsPhrase(r, i, la);
    }
  }

  // A child is reduced before the next token can bind more tightly than it does.
  lemma ChildLevel(r: int, i: int, q: int, la: int)
    requires 0 <= r < YYNRULE && 0 <= q < YYNRULE && Fits(r, i, q) && Ahead(r, i + 1, la)
    requires TokenLevel(la) <= RuleLevel(r) || i + 1 < |Rhs(r)|
    ensures TokenLevel(la) <= RuleLevel(q)
  {}

  lemma ReduceForward(s: int, r: int, la: int)
    requires 0 <= r < YYNRULE && InRule(s, r, |Rhs(r)|)
    requires Follow(Lhs(r), la) && TokenLevel(la) <= RuleLevel(r)
    ensures Act(s, la) == YY_MIN_REDUCE + r
  {}

  // ----- Termination ------------------------------------------------------------------

  // A reduction that does not shorten the stack lowers the rank of its top state;
  // one stack entry is worth ten ranks.
  function Rank(s: int): nat {
    match s
    case 18 | 19 | 20 | 21 | 29 | 92 => 1
    case 6 | 33 => 2
    case 96 | 97 => 3
    case 98 | 99 => 4
    case 26 => 5
    case 9 => 11
    case 30 => 12
    case 107 | 108 => 3
    case 109 => 4
    case 11 | 12 | 14 | 15 => 14
    case 89 => 1
    case _ => 0
  }

  lemma RankDropsUnit(b: int, s: int, r: int)
    requires 0 <= r < YYNRULE && |Rhs(r)| == 1 && Item(s, r, 1) && Step(b, Rhs(r)[0]) == s && Goto(b, Lhs(r)) != -1
    ensures Rank(Goto(b, Lhs(r))) < Rank(s)
  {}

  lemma RankDropsLong(b: int, s: int, r: int)
    requires 0 <= r < YYNRULE && |Rhs(r)| != 1 && InRule(s, r, |Rhs(r)|) && (Rhs(r) == [] ==> b == s)
        && Goto(b, Lhs(r)) != -1
    ensures 10 * (1 - |Rhs(r)|) + Rank(Goto(b, Lhs(r))) < Rank(s)
  {}

  lemma RankDrops(b: int, s: int, la: int)
    requires State(s) && Act(s, la) >= YY_MIN_REDUCE
    requires var r := Act(s, la) - YY_MIN_REDUCE;
      && Goto(b, Lhs(r)) != -1
      && (Rhs(r) == [] ==> b == s)
      && (|Rhs(r)| == 1 ==> Step(b, Rhs(r)[0]) == s)
    ensures var r := Act(s, la) - YY_MIN_REDUCE;
      10 * (1 - |Rhs(r)|) + Rank(Goto(b, Lhs(r))) < Rank(s)
  {
    hide Act, Goto, Rhs, Lhs, Rank, Step, State, Item, Starts;
    ReduceBack(s, la);
    var r := Act(s, la) - YY_MIN_REDUCE;
    if |Rhs(r)| == 1 { RankDropsUnit(b, s, r); } else { RankDropsLong(b, s, r); }
  }
}
