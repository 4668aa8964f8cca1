/** The parser object: its stack array, its table lookups and its loop, proved to do
    what the machine does. */
module Fts5Parser {
  import opened Fts5Tables
  import opened Fts5Lookup
  import opened Fts5Grammar
  import opened Fts5Automaton
  import opened Fts5Machine
  import opened Fts5Driver
  import opened Fts5Errors

  // What a call tells its caller: nothing, a finished tree, or an error.
  datatype Report = Quiet | Finished(tree: Tree) | SyntaxErrorNear(tok: Token) | StackOverflowed

  class Parser {
    const stack: array<Entry>
    var tos: nat
    var errcnt: int

    ghost predicate Valid()
      reads this, stack
    {
      && 0 < stack.Length && tos < stack.Length
      && stack[0].state == 0
      && Built(Contents())
    }

    // Between two calls.
    ghost predicate Resting()
      reads this, stack
    {
      Valid() && Top(Contents()) != YY_ACCEPT_ACTION
    }

    // The entries above the bottom one.
    ghost function Contents(): (s: seq<Entry>)
      reads this, stack
    {
      if tos < stack.Length then stack[1..tos + 1] else []
    }

    constructor (depth: nat)
      requires depth > 0
      ensures Resting() && Contents() == [] && errcnt == -1 && stack.Length == depth && fresh(stack)
    {
      stack := new Entry[depth](_ => Entry(0, Leaf(END)));
      tos := 0;
      errcnt := -1;
    }

    method PopAll()
      requires Valid()
      modifies this`tos
      ensures Valid() && Contents() == []
    {
      while tos > 0
        invariant tos < stack.Length
      {
        tos := tos - 1;
      }
    }

    // yy_shift
    method Shift(newState: int, tok: Token) returns (overflow: bool)
      requires Valid()
      modifies this`tos, stack
      ensures overflow == (old(tos) + 1 > stack.Length - 1)
      ensures stack[0] == old(stack[0])
      ensures if overflow then Valid() && tos == 0 else
        tos == old(tos) + 1 &&
        var state := if newState > YY_MAX_SHIFT then newState + YY_MIN_REDUCE - YY_MIN_SHIFTREDUCE else newState;
        Contents() == old(Contents()) + [Entry(state, Leaf(tok))]
    {
      tos := tos + 1;
      if tos > stack.Length - 1 {
        tos := tos - 1;
        PopAll();
        return true;
      }
      var state := newState;
      if state > YY_MAX_SHIFT { state := state + YY_MIN_REDUCE - YY_MIN_SHIFTREDUCE; }
      stack[tos] := Entry(state, Leaf(tok));
      overflow := false;
    }

    lemma RestingMeets(la: int)
      requires Resting() && 0 <= la < YYNTOKEN
      ensures Meets(Contents(), la)
    {}

    lemma EmptyRests()
      ensures Top([]) != YY_ACCEPT_ACTION
    {}

    lemma StackStates(k: nat)
      requires Valid() && k <= tos
      ensures stack[k].state == Top(Contents()[..k])
    {
      if k > 0 { assert Contents()[k - 1] == stack[k]; }
    }

    // yy_reduce, with its asserts
    method Reduce(r: nat, ghost la: int) returns (act: int)
      requires Valid() && Meets(Contents(), la) && Act(Top(Contents()), la) == YY_MIN_REDUCE + r
      requires Rhs(r) == [] ==> tos < stack.Length - 1
      modifies this`tos, stack
      ensures Valid() && |Rhs(r)| <= |old(Contents())|
      ensures Contents() == Reduced(old(Contents()), r)
      ensures act == stack[tos].state
    {
      hide Act, Goto, Rhs, YyRuleInfoLhs, YyRuleInfoNRhs, Meets, Built, FindReduceAction, ReduceInRange, Lhs, Starts,
        Reduced, Trees;
      ghost var st := Contents();
      ReduceOk(st, la, r);
      var goto, size := YyRuleInfoLhs(r), YyRuleInfoNRhs(r);
      var base := tos + size;
      assert base == |st| - |Rhs(r)|;
      StackStates(base);
      act := FindReduceAction(stack[base].state, goto);
      assert !(act > YY_MAX_SHIFT && act <= YY_MAX_SHIFTREDUCE);
      assert act != YY_ERROR_ACTION;
      var kids := Trees(stack[base + 1..tos + 1]);
      assert stack[base + 1..tos + 1] == st[base..];
      assert stack[1..base + 1] == st[..base];
      tos := base + 1;
      stack[tos] := Entry(act, Node(r, kids));
      assert Contents() == st[..base] + [stack[tos]];
    }

    // yy_accept, with its assert
    method Accept() returns (tree: Tree)
      requires Valid() && |Contents()| == 1
      modifies this`tos, this`errcnt
      ensures Valid() && Contents() == [] && errcnt == -1 && tree == old(Contents())[0].tree
    {
      tree := stack[tos].tree;
      tos := tos - 1;
      errcnt := -1;
      assert tos == 0;
    }

    // A syntax error: reported unless one was reported less than three shifts ago.
    method Fail(tok: Token) returns (report: Report)
      requires Valid()
      modifies this`tos, this`errcnt
      ensures Valid()
      ensures report == if old(errcnt) <= 0 then SyntaxErrorNear(tok) else Quiet
      ensures Contents() == if tok.kind == EOF then [] else old(Contents())
      ensures errcnt == if tok.kind == EOF then -1 else 3
    {
      report := if errcnt <= 0 then SyntaxErrorNear(tok) else Quiet;
      errcnt := 3;
      if tok.kind == EOF {
        PopAll();
        errcnt := -1;
      }
    }

    // sqlite3Fts5Parser: one token.
    method Call(tok: Token) returns (report: Report)
      requires Resting() && 0 <= tok.kind < YYNTOKEN
      modifies this`tos, this`errcnt, stack
      ensures Resting()
      ensures match Process(stack.Length - 1, old(Contents()), tok)
        case Shifted(st) => report == Quiet && Contents() == st && errcnt == old(errcnt) - 1
        case Accepted(t) => report == Finished(t) && Contents() == [] && errcnt == -1
        case SyntaxError(st) =>
          && report == (if old(errcnt) <= 0 then SyntaxErrorNear(tok) else Quiet)
          && Contents() == (if tok.kind == EOF then [] else st)
          && errcnt == (if tok.kind == EOF then -1 else 3)
        case Overflow => report == StackOverflowed && Contents() == [] && old(errcnt) - 1 <= errcnt <= old(errcnt)
    {
      hide Act, Goto, Rhs, YyRuleInfoNRhs, Meets, Built, FindShiftAction, Lhs, Starts, Reduced, Step, ShiftInRange,
        Fuel, State, Pending, Process, Top, Tokens;
      ghost var end, st0 := stack.Length - 1, Contents();
      RestingMeets(tok.kind);
      EmptyRests();
      var act := stack[tos].state;
      StackStates(tos);
      assert Contents()[..tos] == Contents();
      while true
        invariant Valid() && Meets(Contents(), tok.kind) && act == stack[tos].state == Top(Contents())
        invariant Process(end, Contents(), tok) == Process(end, st0, tok)
        invariant errcnt == old(errcnt)
        decreases Fuel(Contents())
      {
        ghost var st := Contents();
        LookupOk(st, tok.kind);
        ProcessTurn(end, st, tok);
        act := FindShiftAction(act, tok.kind);
        if act >= YY_MIN_REDUCE {
          var rule := act - YY_MIN_REDUCE;
          RuleTable(rule);
          if YyRuleInfoNRhs(rule) == 0 && tos >= stack.Length - 1 {
            PopAll();
            return StackOverflowed;
          }
          act := Reduce(rule, tok.kind);
          StackStates(tos);
          assert Contents()[..tos] == Contents();
        } else if act <= YY_MAX_SHIFTREDUCE {
          if tos < stack.Length - 1 { ShiftedRests(end, st, tok); }
          var overflow := Shift(act, tok);
          errcnt := errcnt - 1;
          return if overflow then StackOverflowed else Quiet;
        } else if act == YY_ACCEPT_ACTION {
          var tree := Accept();
          return Finished(tree);
        } else {
          assert act == YY_ERROR_ACTION;
          ErrorRests(end, st, tok);
          report := Fail(tok);
          return;
        }
      }
    }
  }

  lemma GotoValues(s: int, n: int)
    requires Goto(s, n) != -1
    ensures 0 <= Goto(s, n) <= YY_MAX_SHIFT || Goto(s, n) == YY_ACCEPT_ACTION || Goto(s, n) >= YY_MIN_REDUCE
  {}

  // Every lookup of the loop is inside the tables and gives the automaton's action.
  lemma LookupOk(st: seq<Entry>, la: int)
    requires Meets(st, la)
    ensures Top(st) <= YY_MAX_SHIFT ==> ShiftInRange(Top(st), la)
    ensures FindShiftAction(Top(st), la) == Act(Top(st), la)
    ensures var a := Act(Top(st), la);
      a <= YY_MAX_SHIFTREDUCE || a == YY_ERROR_ACTION || a == YY_ACCEPT_ACTION || a >= YY_MIN_REDUCE
  {
    hide Act, FindShiftAction, ShiftInRange;
    TopStates(st);
    StateRange(Top(st));
    ShiftTable(Top(st), la);
    ActValues(Top(st), la);
  }

  lemma StateRange(s: int)
    requires State(s) || s == YY_ACCEPT_ACTION
    ensures 0 <= s <= YY_MAX_REDUCE
  {}

  lemma ActValues(s: int, la: int)
    requires State(s) || s == YY_ACCEPT_ACTION
    ensures var a := Act(s, la);
      a <= YY_MAX_SHIFTREDUCE || a == YY_ERROR_ACTION || a == YY_ACCEPT_ACTION || a >= YY_MIN_REDUCE
  {}

  // One turn of the loop, as the machine sees it.
  lemma ProcessTurn(end: nat, st: seq<Entry>, tok: Token)
    requires Meets(st, tok.kind) && |st| <= end
    ensures var a, r := Act(Top(st), tok.kind), Act(Top(st), tok.kind) - YY_MIN_REDUCE;
      a >= YY_MIN_REDUCE ==>
        && 0 <= r < YYNRULE && |Rhs(r)| <= |st| && |Reduced(st, r)| == |st| - |Rhs(r)| + 1
        && Meets(Reduced(st, r), tok.kind) && Fuel(Reduced(st, r)) < Fuel(st)
        && Process(end, st, tok) == if Rhs(r) == [] && |st| >= end then Overflow else Process(end, Reduced(st, r), tok)
    ensures var a := Act(Top(st), tok.kind);
      a <= YY_MAX_SHIFTREDUCE ==>
        Process(end, st, tok) == if |st| >= end then Overflow
          else Shifted(st + [Entry(if a > YY_MAX_SHIFT then a + YY_MIN_REDUCE - YY_MIN_SHIFTREDUCE else a, Leaf(tok))])
    ensures Act(Top(st), tok.kind) == YY_ACCEPT_ACTION ==>
      |st| == 1 && Process(end, st, tok) == Accepted(st[0].tree)
    ensures Act(Top(st), tok.kind) == YY_ERROR_ACTION ==> Process(end, st, tok) == SyntaxError(st)
  {
    hide Act, Goto, Step, Built, Reduced, Rhs, Fuel, TokenLevel;
    var a := Act(Top(st), tok.kind);
    if a >= YY_MIN_REDUCE {
      ReducedMeets(st, tok.kind);
      ReducedFuel(st, tok.kind);
      ReducedSize(st, a - YY_MIN_REDUCE);
    } else if a == YY_ACCEPT_ACTION {
      AcceptStack(st, tok.kind);
    }
  }

  // The lookups of a reduction are inside the tables and give what the machine does.
  lemma ReduceOk(st: seq<Entry>, la: int, r: nat)
    requires Meets(st, la) && Act(Top(st), la) == YY_MIN_REDUCE + r
    ensures r < YYNRULE && |Rhs(r)| <= |st| && YyRuleInfoLhs(r) == Lhs(r) && YyRuleInfoNRhs(r) == -|Rhs(r)|
    ensures var s := Top(st[..|st| - |Rhs(r)|]);
      && ReduceInRange(s, Lhs(r)) && FindReduceAction(s, Lhs(r)) == Goto(s, Lhs(r)) != YY_ERROR_ACTION
      && !(Goto(s, Lhs(r)) > YY_MAX_SHIFT && Goto(s, Lhs(r)) <= YY_MAX_SHIFTREDUCE)
    ensures Built(Reduced(st, r))
    ensures var n := |st| - |Rhs(r)|;
      Reduced(st, r) == st[..n] + [Entry(Goto(Top(st[..n]), Lhs(r)), Node(r, Trees(st[n..])))]
  {
    hide Act, Goto, Rhs, YyRuleInfoLhs, YyRuleInfoNRhs, Meets, Built, FindReduceAction, ReduceInRange, Lhs, Starts,
      Reduced, Trees, Top;
    ReducePossible(st, la);
    ReducedMeets(st, la);
    MeetsBuilt(Reduced(st, r), la);
    RuleTable(r);
    var s := Top(st[..|st| - |Rhs(r)|]);
    StartsSymbol(s, r);
    GotoTable(s, Lhs(r));
    GotoValues(s, Lhs(r));
    ReducedIs(st, r);
  }

  lemma ReducedIs(st: seq<Entry>, r: int)
    requires |Rhs(r)| <= |st|
    ensures var n := |st| - |Rhs(r)|;
      Reduced(st, r) == st[..n] + [Entry(Goto(Top(st[..n]), Lhs(r)), Node(r, Trees(st[n..])))]
  {}

  lemma MeetsBuilt(st: seq<Entry>, la: int)
    requires Meets(st, la)
    ensures Built(st)
  {}

  lemma ShiftedRests(end: nat, st: seq<Entry>, tok: Token)
    requires Meets(st, tok.kind) && |st| <= end && Process(end, st, tok).Shifted?
    ensures var st' := Process(end, st, tok).stack; Built(st') && Top(st') != YY_ACCEPT_ACTION
  {
    hide Process, Built, Meets, Top;
    ProcessKeeps(end, st, tok);
  }

  lemma ErrorRests(end: nat, st: seq<Entry>, tok: Token)
    requires Meets(st, tok.kind) && |st| <= end && Process(end, st, tok).SyntaxError?
    ensures Top(Process(end, st, tok).rest) != YY_ACCEPT_ACTION
  {
    hide Process, Built, Meets, Top;
    ProcessKeeps(end, st, tok);
  }

  // The caller's loop: tokens are handed over until a report or the end of input.  A
  // syntax error names the first token that no expression goes on with.
  method ReadExpression(depth: nat, toks: seq<Token>) returns (report: Report)
    requires depth > 0 && Tokens(toks)
    requires forall k | 0 <= k < |toks| :: toks[k].kind != EOF
    ensures match Parse(depth - 1, toks)
      case Shifted(_) => false
      case Accepted(t) => report == Finished(t)
      case SyntaxError(_) => exists k: nat :: ErrorAt(toks, k) && report == SyntaxErrorNear((toks + [END])[k])
      case Overflow => report == StackOverflowed
  {
    hide Process, Ready, Meets, Viable, Built, Answers, Top, Waiting, Feed, ErrorAt, Yields, Trees;
    var p := new Parser(depth);
    var input := toks + [END];
    var k := 0;
    WaitingEmpty(depth - 1);
    RestIs(depth - 1, []);
    FeedNothing(depth - 1, []);
    assert input[..0] == [] && input[0..] == input;
    while true
      invariant 0 <= k < |input| && p.Resting() && fresh(p) && fresh(p.stack) && p.stack.Length == depth
      invariant p.errcnt <= 0 && AtRest(depth - 1, p.Contents()) && Tokens(input[k..]) && Tokens(input[..k])
      invariant Feed(depth - 1, [], input[..k]) == Shifted(p.Contents())
      invariant Feed(depth - 1, p.Contents(), input[k..]) == Parse(depth - 1, toks)
      decreases |input| - k
    {
      ghost var st := p.Contents();
      FeedTurn(depth - 1, st, input[k..]);
      FeedMore(depth - 1, input, k);
      report := p.Call(input[k]);
      if report != Quiet || input[k].kind == EOF {
        if Parse(depth - 1, toks).SyntaxError? { FailsAtFirst(depth - 1, toks, k); }
        return;
      }
      RestIs(depth - 1, p.Contents());
      assert input[k..][1..] == input[k + 1..];
      k := k + 1;
    }
  }

  lemma WaitingEmpty(end: nat)
    ensures Waiting(end, [])
  {}
}
